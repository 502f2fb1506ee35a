/**
 * The administrator commands of modules/admin.py that touch the model: the
 * two configuration commands, which write a setting through to both the
 * cached guild and its stored row, and the replies of ban, softban and
 * hackban.
 */
module Admin {
  import opened Common
  import opened Text
  import opened Models
  import opened Storage
  import opened Bot

  // ---------------------------------------------------------------- configuration

  /**
   * The configuration after `/config starboard` (admin.py:57-100), where
   * `threshold == 0` is the option's default, "not given", and `channel` is
   * the optional channel.
   */
  function Configured(g: StarrGuild, threshold: nat, channel: Option<Snowflake>): StarrGuild
  {
    var g1 := if channel.Some? then g.(starChannel := channel.value) else g;
    if threshold != 0 then g1.(threshold := threshold) else g1
  }

  function ChannelLine(channel: Snowflake): string
  {
    "Successfully updated starboard channel to <#" + NatToString(channel) + ">."
  }

  function ThresholdLine(threshold: nat): string
  {
    "Successfully updated starboard star threshold to " + NatToString(threshold) + "."
  }

  const NOTHING_HAPPENED: string := "Nothing happened..."

  /** `"\n".join(lines)`. */
  function Join(lines: seq<string>, sep: string): string
  {
    if lines == [] then ""
    else if |lines| == 1 then lines[0]
    else lines[0] + sep + Join(lines[1..], sep)
  }

  /** The lines `configure_starboard_cmd` collects, in the order it collects them. */
  function StarboardLines(threshold: nat, channel: Option<Snowflake>): seq<string>
  {
    (if channel.Some? then [ChannelLine(channel.value)] else [])
    + (if threshold != 0 then [ThresholdLine(threshold)] else [])
  }

  function StarboardReply(threshold: nat, channel: Option<Snowflake>): string
  {
    var lines := StarboardLines(threshold, channel);
    if lines != [] then Join(lines, "\n") else NOTHING_HAPPENED
  }

  /**
   * What `/config starboard` sets: the channel when one is given, the
   * threshold when a non-zero one is given, and nothing else. The reply says
   * "Nothing happened..." exactly when neither was given, and otherwise
   * reports each change on a line of its own, the channel first.
   */
  lemma ConfigureStarboardRules(g: StarrGuild, threshold: nat, channel: Option<Snowflake>)
    ensures var g1 := Configured(g, threshold, channel);
      && g1.guildId == g.guildId && g1.prefix == g.prefix && g1.starBlacklist == g.starBlacklist
      && g1.starChannel == (if channel.Some? then channel.value else g.starChannel)
      && g1.threshold == (if threshold != 0 then threshold else g.threshold)
      && (GuildValid(g) ==> GuildValid(g1))
    ensures StarboardReply(threshold, channel) == NOTHING_HAPPENED <==> threshold == 0 && channel.None?
    ensures threshold == 0 && channel.None? ==> Configured(g, threshold, channel) == g
    ensures channel.Some? && threshold != 0 ==>
              StarboardReply(threshold, channel) == ChannelLine(channel.value) + "\n" + ThresholdLine(threshold)
  {
    var lines := StarboardLines(threshold, channel);
    var r := StarboardReply(threshold, channel);
    // Every line is longer than "Nothing happened...", and so is any reply made of them.
    if |lines| == 2 {
      assert lines[1..] == [lines[1]];
      assert Join(lines[1..], "\n") == lines[1];
      assert r == lines[0] + "\n" + lines[1];
    } else if |lines| == 1 {
      assert r == lines[0];
    }
    if lines != [] {
      assert |r| >= |lines[0]| > |NOTHING_HAPPENED|;
    }
  }

  /**
   * `configure_starboard_cmd`. `None` is the KeyError of `bot.guilds[...]`
   * for a guild that is not cached; it is raised before anything is written.
   */
  method ConfigureStarboard(bot: StarrBot, guildId: Snowflake, threshold: nat, channel: Option<Snowflake>)
    returns (reply: Option<string>)
    requires bot.Valid()
    modifies bot, bot.db
    ensures bot.Valid()
    ensures guildId !in old(bot.guilds) ==>
              reply.None? && bot.guilds == old(bot.guilds) && bot.db.guildRows == old(bot.db.guildRows)
    ensures guildId in old(bot.guilds) ==>
              && reply == Some(StarboardReply(threshold, channel))
              && bot.guilds == old(bot.guilds)[guildId := Configured(old(bot.guilds[guildId]), threshold, channel)]
              && bot.db.guildRows == old(bot.db.guildRows)[guildId := bot.guilds[guildId]]
    ensures bot.db.starRows == old(bot.db.starRows) && bot.db.TagTables() == old(bot.db.TagTables())
  {
    if guildId !in bot.guilds {
      return None;
    }
    var responses: seq<string> := [];
    ghost var g0 := bot.guilds[guildId];
    if channel.Some? {
      bot.guilds := bot.guilds[guildId := bot.guilds[guildId].(starChannel := channel.value)];
      bot.db.SetStarChannel(guildId, channel.value);
      responses := responses + [ChannelLine(channel.value)];
    }
    if threshold != 0 {
      bot.guilds := bot.guilds[guildId := bot.guilds[guildId].(threshold := threshold)];
      bot.db.SetThreshold(guildId, threshold);
      responses := responses + [ThresholdLine(threshold)];
    }
    assert bot.guilds[guildId] == Configured(g0, threshold, channel);
    if responses != [] {
      reply := Some(Join(responses, "\n"));
    } else {
      reply := Some(NOTHING_HAPPENED);
    }
  }

  function PrefixReply(value: string): string
  {
    "Successfully updated message command prefix to `" + value + "`."
  }

  /**
   * `configure_prefix_cmd` (admin.py:103-117): the row is written first; a
   * guild that is not cached then raises (`None`) with the row already
   * changed.
   */
  method ConfigurePrefix(bot: StarrBot, guildId: Snowflake, value: string) returns (reply: Option<string>)
    requires bot.Valid()
    modifies bot, bot.db
    ensures bot.Valid()
    ensures bot.db.guildRows == if guildId in old(bot.db.guildRows)
                                then old(bot.db.guildRows)[guildId := old(bot.db.guildRows)[guildId].(prefix := value)]
                                else old(bot.db.guildRows)
    ensures guildId !in old(bot.guilds) ==> reply.None? && bot.guilds == old(bot.guilds)
    ensures guildId in old(bot.guilds) ==>
              && reply == Some(PrefixReply(value))
              && bot.guilds == old(bot.guilds)[guildId := old(bot.guilds[guildId]).(prefix := value)]
              && bot.ResolvePrefix(guildId) == value == bot.db.guildRows[guildId].prefix
    ensures bot.db.starRows == old(bot.db.starRows) && bot.db.TagTables() == old(bot.db.TagTables())
  {
    bot.db.SetPrefix(guildId, value);
    if guildId !in bot.guilds {
      return None;
    }
    bot.guilds := bot.guilds[guildId := bot.guilds[guildId].(prefix := value)];
    reply := Some(PrefixReply(value));
  }

  // ---------------------------------------------------------------- ban replies

  /** The `delete_message_days` option: an integer from 0 to 7 (admin.py:205-210). */
  type MessageDays = d: nat | d <= 7

  /** How `rest.ban_member` ended. */
  datatype BanOutcome = Banned | Forbidden | UnknownUser

  function Mention(member: Snowflake): string
  {
    "<@!" + NatToString(member) + ">"
  }

  const DAYS_LEAD: string := ", and deleted their" + " messages from the past "
  const DAYS_SUFFIX: string := " days."

  function BannedText(member: Snowflake, days: MessageDays): string
  {
    "Successfully banned " + Mention(member)
    + (if days != 0 then DAYS_LEAD + NatToString(days) + DAYS_SUFFIX else ".")
  }

  function ForbiddenText(member: Snowflake): string
  {
    "Unable to ban " + Mention(member) + FORBIDDEN_TAIL
  }

  const FORBIDDEN_TAIL: string := ", I am missing permissions" + " or my top role is too low."


  /**
   * `_ban_member` (admin.py:177-200): the reply for a ban that succeeded or
   * was forbidden. An unknown user's NotFoundError is not caught there.
   */
  function BanMember(member: Snowflake, days: MessageDays, outcome: BanOutcome): Option<string>
  {
    match outcome
    case Banned => Some(BannedText(member, days))
    case Forbidden => Some(ForbiddenText(member))
    case UnknownUser => None
  }

  /** `/softban` (admin.py:236-251); `unbanned` is false where the unban call raised. */
  function SoftbanReply(member: Snowflake, days: MessageDays, outcome: BanOutcome, unbanned: bool): Option<string>
  {
    match BanMember(member, days, outcome)
    case None => None
    case Some(m) => if unbanned then Some(ReplaceAll(m, "banned", "softbanned")) else None
  }

  /** `/hackban` (admin.py:264-279): an unknown user gets its own reply. */
  function HackbanReply(member: Snowflake, days: MessageDays, outcome: BanOutcome): string
  {
    match BanMember(member, days, outcome)
    case None => "Hackban failed - invalid user ID: " + NatToString(member) + "."
    case Some(m) => ReplaceAll(m, "banned", "hackbanned")
  }

  predicate EndsWith(s: string, suffix: string)
  {
    |suffix| <= |s| && s[|s| - |suffix|..] == suffix
  }

  /** The success reply mentions deleted messages exactly when some days were deleted. */
  lemma BanMentionsDaysIffNonzero(member: Snowflake, days: MessageDays)
    ensures EndsWith(BannedText(member, days), DAYS_SUFFIX) <==> days != 0
    ensures days != 0 ==> EndsWith(BannedText(member, days), NatToString(days) + DAYS_SUFFIX)
  {
    var t := BannedText(member, days);
    if days == 0 {
      assert t[|t| - 1] == '.' && t[|t| - 2] == '>';
      assert DAYS_SUFFIX[|DAYS_SUFFIX| - 2] == 's';
    } else {
      var tail := NatToString(days) + DAYS_SUFFIX;
      var head := "Successfully banned " + Mention(member) + ", and deleted their messages from the past ";
      assert t == head + tail;
      assert t[|t| - |tail|..] == tail;
      assert t[|t| - |DAYS_SUFFIX|..] == DAYS_SUFFIX;
    }
  }

  /** The part of the success reply after the word "banned". */
  function BannedTail(member: Snowflake, days: MessageDays): string
  {
    " " + Mention(member)
    + (if days != 0 then DAYS_LEAD + NatToString(days) + DAYS_SUFFIX else ".")
  }

  /** Nothing in a success reply after the word "banned" can start another occurrence of it. */
  lemma BannedTailHasNoB(member: Snowflake, days: MessageDays)
    ensures Lacks(BannedTail(member, days), 'b')
  {
    MentionHasNoB(member);
    var rest := if days != 0 then DAYS_LEAD + NatToString(days) + DAYS_SUFFIX else ".";
    if days != 0 {
      DigitsHaveNoLetter(NatToString(days), 'b');
      assert Lacks(", and deleted their", 'b') && Lacks(" messages from the past ", 'b');
      LacksConcat(", and deleted their", " messages from the past ", 'b');
      assert Lacks(DAYS_SUFFIX, 'b');
      LacksConcat(DAYS_LEAD, NatToString(days), 'b');
      LacksConcat(DAYS_LEAD + NatToString(days), DAYS_SUFFIX, 'b');
    } else {
      assert Lacks(".", 'b');
    }
    assert Lacks(" ", 'b');
    LacksConcat(" ", Mention(member), 'b');
    LacksConcat(" " + Mention(member), rest, 'b');
  }

  lemma MentionHasNoB(member: Snowflake)
    ensures Lacks(Mention(member), 'b')
  {
    DigitsHaveNoLetter(NatToString(member), 'b');
    assert Lacks("<@!", 'b') && Lacks(">", 'b');
    LacksConcat("<@!", NatToString(member), 'b');
    LacksConcat("<@!" + NatToString(member), ">", 'b');
  }

  /** The success reply with "banned" replaced: only the verb changes. */
  lemma {:induction false} BannedReworded(member: Snowflake, days: MessageDays, verb: string)
    ensures ReplaceAll(BannedText(member, days), "banned", verb) == "Successfully " + verb + BannedTail(member, days)
  {
    var tail := BannedTail(member, days);
    assert BannedText(member, days) == "Successfully " + ("banned" + tail);
    assert "banned"[0] == 'b' && Lacks("Successfully ", 'b');
    ReplaceAllPrefixAbsent("Successfully ", "banned" + tail, "banned", verb);
    ReplaceAllHit(tail, "banned", verb);
    BannedTailHasNoB(member, days);
    ReplaceAllAbsent(tail, "banned", verb);
  }

  /** After the word "ban", the forbidden reply has no letter b. */
  lemma ForbiddenTailHasNoB(member: Snowflake)
    ensures Lacks(" " + Mention(member) + FORBIDDEN_TAIL, 'b')
  {
    MentionHasNoB(member);
    assert Lacks(", I am missing permissions", 'b') && Lacks(" or my top role is too low.", 'b');
    LacksConcat(", I am missing permissions", " or my top role is too low.", 'b');
    assert Lacks(" ", 'b');
    LacksConcat(" ", Mention(member), 'b');
    LacksConcat(" " + Mention(member), FORBIDDEN_TAIL, 'b');
  }

  /** A "b" followed by something other than "anned" is kept and the scan moves on. */
  lemma {:induction false} KeepB(s: string, verb: string)
    requires |s| >= 6 && s[0] == 'b' && s[..6] != "banned"
    ensures ReplaceAll(s, "banned", verb) == "b" + ReplaceAll(s[1..], "banned", verb)
  {
    ReplaceAllNoMatchAt(s, "banned", verb);
    assert [s[0]] == "b";
  }

  /** The forbidden reply contains "ban" but never "banned", so replacing leaves it as it is. */
  lemma {:induction false} ForbiddenUnchanged(member: Snowflake, verb: string)
    ensures ReplaceAll(ForbiddenText(member), "banned", verb) == ForbiddenText(member)
  {
    var x := " " + Mention(member) + FORBIDDEN_TAIL;
    ForbiddenTailHasNoB(member);
    assert "banned"[0] == 'b';
    // "Una" + "b" + "le to " + "b" + "an" + x, neither b starting "banned".
    var s3 := "an" + x;
    var s2 := "b" + s3;
    var s1 := "le to " + s2;
    var s0 := "b" + s1;
    assert ForbiddenText(member) == "Una" + s0;
    assert Lacks("an", 'b') && Lacks("Una", 'b') && Lacks("le to ", 'b');
    LacksConcat("an", x, 'b');
    ReplaceAllAbsent(s3, "banned", verb);
    assert s2[3] == ' ';
    KeepB(s2, verb);
    assert s2[1..] == s3;
    assert ReplaceAll(s2, "banned", verb) == s2;
    ReplaceAllPrefixAbsent("le to ", s2, "banned", verb);
    assert ReplaceAll(s1, "banned", verb) == s1;
    assert s0[1] == 'l';
    KeepB(s0, verb);
    assert s0[1..] == s1;
    assert ReplaceAll(s0, "banned", verb) == s0;
    ReplaceAllPrefixAbsent("Una", s0, "banned", verb);
    assert ReplaceAll("Una" + s0, "banned", verb) == "Una" + s0;
  }

  /**
   * The softban reply is the ban reply reworded: a success says "softbanned"
   * in place of "banned" and nothing else changes; a forbidden ban keeps its
   * wording; an unknown user gets no reply.
   */
  lemma SoftbanReworded(member: Snowflake, days: MessageDays)
    ensures SoftbanReply(member, days, Banned, true) == Some("Successfully softbanned" + BannedTail(member, days))
    ensures SoftbanReply(member, days, Forbidden, true) == BanMember(member, days, Forbidden)
    ensures SoftbanReply(member, days, UnknownUser, true).None?
  {
    BannedReworded(member, days, "softbanned");
    assert "Successfully " + "softbanned" == "Successfully softbanned";
    ForbiddenUnchanged(member, "softbanned");
  }

  /** The hackban reply reworded the same way; an unknown user gets the invalid-id reply. */
  lemma HackbanReworded(member: Snowflake, days: MessageDays)
    ensures HackbanReply(member, days, Banned) == "Successfully hackbanned" + BannedTail(member, days)
    ensures Some(HackbanReply(member, days, Forbidden)) == BanMember(member, days, Forbidden)
    ensures HackbanReply(member, days, UnknownUser) == "Hackban failed - invalid user ID: " + NatToString(member) + "."
  {
    BannedReworded(member, days, "hackbanned");
    assert "Successfully " + "hackbanned" == "Successfully hackbanned";
    ForbiddenUnchanged(member, "hackbanned");
  }
}
