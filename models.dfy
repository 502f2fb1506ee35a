/**
 * The values of models.py: a guild's configuration (`StarrGuild`), the
 * message a reaction event refers to, the star count taken from it, and the
 * repost that `StarboardMessage.create_new` renders for it.
 */
module Models {
  import opened Common
  import opened Text

  /** The prefix a guild row starts with, and the fallback of `resolve_prefix` (bot.py:110). */
  const DEFAULT_PREFIX: string := "./"

  /** `StarrGuild.__init__`'s default threshold (models.py:201). */
  const DEFAULT_THRESHOLD: int := 5

  /**
   * A guild's configuration (models.py:192-206). `starChannel == 0` means the
   * starboard is not configured. `starBlacklist` is read by stars.py:58 as
   * `guild.star_blacklist`, but `StarrGuild.__slots__` (models.py:194) declares
   * no such attribute; here it is a field that starts empty.
   */
  datatype StarrGuild = StarrGuild(
    guildId: Snowflake,
    prefix: string,
    starChannel: nat,
    threshold: int,
    starBlacklist: set<Snowflake>)

  /** `StarrGuild(guild_id, prefix, star_channel=0, threshold=5)`. */
  function NewGuild(guildId: Snowflake, prefix: string, starChannel: nat := 0,
                    threshold: int := DEFAULT_THRESHOLD): (g: StarrGuild)
    ensures g.guildId == guildId && g.prefix == prefix
    ensures g.starChannel == starChannel && g.threshold == threshold
    ensures g.starBlacklist == {}
  {
    StarrGuild(guildId, prefix, starChannel, threshold, {})
  }

  /** The row `INSERT INTO guilds (GuildID)` creates: every other column takes its default. */
  function DefaultRow(guildId: Snowflake): StarrGuild
  {
    NewGuild(guildId, DEFAULT_PREFIX)
  }

  predicate StarboardEnabled(g: StarrGuild) { g.starChannel != 0 }

  /** What every stored configuration satisfies: a threshold of at least one star. */
  predicate GuildValid(g: StarrGuild) { g.threshold >= 1 }

  /** A fresh configuration has the starboard switched off and a threshold of five. */
  lemma DefaultRowIsDisabled(guildId: Snowflake)
    ensures !StarboardEnabled(DefaultRow(guildId)) && GuildValid(DefaultRow(guildId))
    ensures DefaultRow(guildId).threshold == 5 && DefaultRow(guildId).starBlacklist == {}
    ensures DefaultRow(guildId).guildId == guildId
  {
  }

  /** One entry of `message.reactions`: an emoji and how many users reacted with it. */
  datatype Reaction = Reaction(emoji: string, count: nat)

  /** The parts of a fetched message the starboard reads. */
  datatype Message = Message(
    id: Snowflake,
    channelId: Snowflake,
    content: string,
    reactions: seq<Reaction>,
    attachments: seq<string>)

  /** `sum(r.count if r.emoji == star else 0 for r in reactions)` (stars.py:75). */
  function StarCount(reactions: seq<Reaction>): nat
  {
    if reactions == [] then 0
    else (if reactions[0].emoji == STAR then reactions[0].count else 0) + StarCount(reactions[1..])
  }

  /** The count of a concatenation is the sum of the counts: every entry is visited. */
  lemma {:induction false} StarCountAppend(a: seq<Reaction>, b: seq<Reaction>)
    ensures StarCount(a + b) == StarCount(a) + StarCount(b)
  {
    if a != [] {
      assert (a + b)[1..] == a[1..] + b;
      StarCountAppend(a[1..], b);
    } else {
      assert a + b == b;
    }
  }

  /** Every star entry contributes its whole count, not only the first one. */
  lemma {:induction false} StarCountCoversEntry(rs: seq<Reaction>, i: nat)
    requires i < |rs| && rs[i].emoji == STAR
    ensures StarCount(rs) == StarCount(rs[..i]) + rs[i].count + StarCount(rs[i + 1..])
  {
    assert rs == rs[..i] + rs[i..];
    StarCountAppend(rs[..i], rs[i..]);
    assert rs[i..][1..] == rs[i + 1..];
  }

  /** Two distinct star entries both count. */
  lemma StarCountTwoEntries(rs: seq<Reaction>, i: nat, j: nat)
    requires i < j < |rs| && rs[i].emoji == STAR && rs[j].emoji == STAR
    ensures StarCount(rs) >= rs[i].count + rs[j].count
  {
    StarCountCoversEntry(rs, j);
    StarCountCoversEntry(rs[..j], i);
    assert rs[..j][..i] == rs[..i];
  }

  /** Entries of other emojis never count. */
  lemma {:induction false} StarCountIgnoresOthers(rs: seq<Reaction>)
    requires forall i | 0 <= i < |rs| :: rs[i].emoji != STAR
    ensures StarCount(rs) == 0
  {
    if rs != [] {
      StarCountIgnoresOthers(rs[1..]);
    }
  }

  const COUNT_PREFIX: string := "You're a " + STAR + " x"
  const COUNT_SUFFIX: string := "!\n"

  /** The text line of a repost, shared by `create_new` and `update` (models.py:315, 368). */
  function CountText(count: nat): string
  {
    COUNT_PREFIX + NatToString(count) + COUNT_SUFFIX
  }

  /** Reads the count back from a repost's text line. */
  function CountFromText(t: string): Option<nat>
  {
    var lo, hi := |COUNT_PREFIX|, |t| - |COUNT_SUFFIX|;
    if lo <= hi && t[..lo] == COUNT_PREFIX && t[hi..] == COUNT_SUFFIX && AllDigits(t[lo..hi])
    then Some(ParseDigits(t[lo..hi]))
    else None
  }

  /** The text line states the count exactly, so two different counts never share a line. */
  lemma CountTextRoundTrip(count: nat)
    ensures CountFromText(CountText(count)) == Some(count)
  {
    var t := CountText(count);
    var d := NatToString(count);
    assert t[..|COUNT_PREFIX|] == COUNT_PREFIX;
    assert t[|t| - |COUNT_SUFFIX|..] == COUNT_SUFFIX;
    assert t[|COUNT_PREFIX|..|t| - |COUNT_SUFFIX|] == d;
    ParseNatToString(count);
  }

  lemma CountTextInjective(m: nat, n: nat)
    requires CountText(m) == CountText(n)
    ensures m == n
  {
    CountTextRoundTrip(m);
    CountTextRoundTrip(n);
  }

  /**
   * The parts of the repost's embed that depend on the original message
   * (models.py:348-365): the original text, a footer with its id and, when it
   * has attachments, the first one as the image.
   */
  datatype Embed = Embed(title: string, description: string, footer: string, image: Option<string>)

  /** A message the bot posted in a star channel: its text line and its embed. */
  datatype Post = Post(content: string, embed: Embed)

  function RenderEmbed(original: Message): (e: Embed)
    ensures e.description == original.content
    ensures e.footer == "ID: " + NatToString(original.id)
    ensures e.image.Some? <==> original.attachments != []
    ensures e.image.Some? ==> e.image.value == original.attachments[0]
  {
    Embed("Jump to message", original.content, "ID: " + NatToString(original.id),
          if original.attachments != [] then Some(original.attachments[0]) else None)
  }

  /** What `create_new` sends to the star channel. */
  function RenderPost(original: Message, count: nat): (p: Post)
    ensures CountFromText(p.content) == Some(count)
    ensures p.embed == RenderEmbed(original)
  {
    CountTextRoundTrip(count);
    Post(CountText(count), RenderEmbed(original))
  }
}
