/**
 * The starboard plugin (modules/stars.py): the classifier that turns a
 * reaction event into a snapshot of (message, guild configuration, star
 * count) or a reason to ignore it, the threshold rules that pick an action,
 * and the three event handlers, proved to perform exactly that action on the
 * record table and the reposts.
 */
module Stars {
  import opened Common
  import opened Models
  import opened Storage
  import opened Starboard
  import opened Bot

  /** A reaction added to, or removed from, a message of a guild channel. */
  datatype ReactionEvent = ReactionEvent(guildId: Snowflake, channelId: Snowflake, messageId: Snowflake, emoji: string)

  /** The three events `handle_guaranteed_delete` listens to (stars.py:127-134). */
  datatype ClearEvent =
    | MessageDeleted(guildId: Snowflake, messageId: Snowflake)
    | EmojiCleared(guildId: Snowflake, messageId: Snowflake, emoji: string)
    | AllCleared(guildId: Snowflake, messageId: Snowflake)

  /**
   * The outcome of `get_reaction_event_info`: the event is ignored (`None`),
   * the handler raises before it changes anything, or a snapshot.
   */
  datatype Classified =
    | Skip
    | Failed
    | Star(message: Message, guild: StarrGuild, count: nat)

  /**
   * `get_reaction_event_info` (stars.py:45-77) with the blacklist read from
   * the configuration. `fetched` is what `fetch_message` returned: `None`
   * where it raised NotFoundError.
   */
  function Classify(cache: map<Snowflake, StarrGuild>, rows: map<Snowflake, StarrGuild>,
                    e: ReactionEvent, fetched: Option<Message>): Classified
  {
    if e.emoji != STAR then Skip
    else match LookupGuild(cache, rows, e.guildId)
      case None => Failed
      case Some(g) =>
        if !StarboardEnabled(g) || e.channelId in g.starBlacklist then Skip
        else if fetched.None? then Skip
        else Star(fetched.value, g, StarCount(fetched.value.reactions))
  }

  /**
   * The classifier as the code stands: `guild.star_blacklist` is evaluated
   * once the star channel is known to be set, and `StarrGuild` has no such
   * attribute, so that evaluation raises.
   */
  function ClassifyAsWritten(cache: map<Snowflake, StarrGuild>, rows: map<Snowflake, StarrGuild>,
                             e: ReactionEvent, fetched: Option<Message>): Classified
  {
    if e.emoji != STAR then Skip
    else match LookupGuild(cache, rows, e.guildId)
      case None => Failed
      case Some(g) => if !StarboardEnabled(g) then Skip else Failed
  }

  /** As written, no reaction event ever reaches the threshold rules. */
  lemma AsWrittenNeverStars(cache: map<Snowflake, StarrGuild>, rows: map<Snowflake, StarrGuild>,
                            e: ReactionEvent, fetched: Option<Message>)
    ensures !ClassifyAsWritten(cache, rows, e, fetched).Star?
    ensures ClassifyAsWritten(cache, rows, e, fetched) == Failed <==>
              e.emoji == STAR && match LookupGuild(cache, rows, e.guildId)
                case None => true
                case Some(g) => StarboardEnabled(g)
  {
  }

  /** A star on a message of a configured guild: the intended classifier takes it, the code raises. */
  lemma AsWrittenExample()
    ensures var g := NewGuild(1, DEFAULT_PREFIX, 7, 1);
            var m := Message(3, 2, "hi", [Reaction(STAR, 1)], []);
            var e := ReactionEvent(1, 2, 3, STAR);
            && Classify(map[1 := g], map[1 := g], e, Some(m)) == Star(m, g, 1)
            && ClassifyAsWritten(map[1 := g], map[1 := g], e, Some(m)) == Failed
  {
    var m := Message(3, 2, "hi", [Reaction(STAR, 1)], []);
    assert StarCount(m.reactions) == 1 + StarCount([]);
  }

  /** What a handler does to the starboard once it holds a snapshot. */
  datatype Action = NoAction | Create | Update(starId: Snowflake) | Remove(starId: Snowflake)

  /** stars.py:88-102. */
  function AddAction(rows: map<Snowflake, Snowflake>, message: Message, guild: StarrGuild, count: nat): Action
  {
    if message.channelId == guild.starChannel then NoAction
    else if count >= guild.threshold then
      (if message.id in rows then Update(rows[message.id]) else Create)
    else NoAction
  }

  /** stars.py:111-124. */
  function DeleteAction(rows: map<Snowflake, Snowflake>, message: Message, guild: StarrGuild, count: nat): Action
  {
    if message.id !in rows then NoAction
    else if count < guild.threshold then Remove(rows[message.id])
    else Update(rows[message.id])
  }

  function Apply(s: Store, a: Action, message: Message, guild: StarrGuild, count: nat): Store
  {
    match a
    case NoAction => s
    case Create => CreateNewStep(s, message, count, guild.starChannel).0
    case Update(starId) => UpdateStep(s, starId, message.id, message, count, guild.starChannel).0
    case Remove(starId) => DeleteStep(s, starId, guild.starChannel)
  }

  /** The starboard after `on_reaction_add`. */
  function ReactionAddStep(cache: map<Snowflake, StarrGuild>, guildRows: map<Snowflake, StarrGuild>,
                           s: Store, e: ReactionEvent, fetched: Option<Message>): Store
  {
    match Classify(cache, guildRows, e, fetched)
    case Star(m, g, c) => Apply(s, AddAction(s.rows, m, g, c), m, g, c)
    case _ => s
  }

  /** The starboard after `on_reaction_delete`. */
  function ReactionDeleteStep(cache: map<Snowflake, StarrGuild>, guildRows: map<Snowflake, StarrGuild>,
                              s: Store, e: ReactionEvent, fetched: Option<Message>): Store
  {
    match Classify(cache, guildRows, e, fetched)
    case Star(m, g, c) => Apply(s, DeleteAction(s.rows, m, g, c), m, g, c)
    case _ => s
  }

  /** The starboard after `handle_guaranteed_delete` (stars.py:127-147). */
  function ClearStep(cache: map<Snowflake, StarrGuild>, guildRows: map<Snowflake, StarrGuild>,
                     s: Store, e: ClearEvent): Store
  {
    match LookupGuild(cache, guildRows, e.guildId)
    case None => s
    case Some(g) =>
      if !StarboardEnabled(g) || e.messageId !in s.rows then s
      else DeleteStep(s, s.rows[e.messageId], g.starChannel)
  }

  // ---------------------------------------------------------------- classifier

  /**
   * An emoji other than the star is ignored before anything else is looked
   * at, by both reaction handlers.
   */
  lemma OtherEmojiIgnored(cache: map<Snowflake, StarrGuild>, guildRows: map<Snowflake, StarrGuild>,
                          s: Store, e: ReactionEvent, fetched: Option<Message>)
    requires e.emoji != STAR
    ensures Classify(cache, guildRows, e, fetched) == Skip
    ensures ReactionAddStep(cache, guildRows, s, e, fetched) == s
    ensures ReactionDeleteStep(cache, guildRows, s, e, fetched) == s
  {
  }

  /**
   * Classification in full: a snapshot exactly when the reaction is a star,
   * the guild has a configuration with a star channel, the channel is not
   * blacklisted and the message could be fetched; the count is then the star
   * total of the fetched message.
   */
  lemma ClassifyRules(cache: map<Snowflake, StarrGuild>, guildRows: map<Snowflake, StarrGuild>,
                      e: ReactionEvent, fetched: Option<Message>)
    ensures Classify(cache, guildRows, e, fetched).Star? <==>
              && e.emoji == STAR
              && LookupGuild(cache, guildRows, e.guildId).Some?
              && StarboardEnabled(LookupGuild(cache, guildRows, e.guildId).value)
              && e.channelId !in LookupGuild(cache, guildRows, e.guildId).value.starBlacklist
              && fetched.Some?
    ensures Classify(cache, guildRows, e, fetched).Star? ==>
              && Classify(cache, guildRows, e, fetched).message == fetched.value
              && Classify(cache, guildRows, e, fetched).guild == LookupGuild(cache, guildRows, e.guildId).value
              && Classify(cache, guildRows, e, fetched).count == StarCount(fetched.value.reactions)
    ensures Classify(cache, guildRows, e, fetched) == Failed <==>
              e.emoji == STAR && LookupGuild(cache, guildRows, e.guildId).None?
  {
  }

  /** An event that does not classify to a snapshot leaves the starboard alone. */
  lemma IgnoredEventChangesNothing(cache: map<Snowflake, StarrGuild>, guildRows: map<Snowflake, StarrGuild>,
                                   s: Store, e: ReactionEvent, fetched: Option<Message>)
    requires fetched.None? || e.emoji != STAR
             || (LookupGuild(cache, guildRows, e.guildId).Some?
                 && (!StarboardEnabled(LookupGuild(cache, guildRows, e.guildId).value)
                     || e.channelId in LookupGuild(cache, guildRows, e.guildId).value.starBlacklist))
    ensures !Classify(cache, guildRows, e, fetched).Star?
    ensures ReactionAddStep(cache, guildRows, s, e, fetched) == s
    ensures ReactionDeleteStep(cache, guildRows, s, e, fetched) == s
  {
  }

  // ---------------------------------------------------------------- threshold rules

  /** `s1`'s posts are `s`'s with at most the post at `k` added or changed. */
  ghost predicate PostsFramed(s: Store, s1: Store, k: (nat, Snowflake))
  {
    && s1.posts.Keys == s.posts.Keys + {k}
    && forall k' | k' in s.posts && k' != k :: s1.posts[k'] == s.posts[k']
  }

  /** Setting one post frames the change to that post. */
  lemma PostsFramedByUpdate(s: Store, s1: Store, k: (nat, Snowflake), p: Post)
    requires s1.posts == s.posts[k := p]
    ensures PostsFramed(s, s1, k)
  {
  }

  /** Updating the record of a fetched message changes only that record and its repost. */
  lemma {:induction false} UpdateFramed(s: Store, m: Message, c: nat, channel: nat)
    requires Consistent(s) && m.id in s.rows
    ensures var s1 := UpdateStep(s, s.rows[m.id], m.id, m, c, channel).0;
      && Consistent(s1)
      && ShowsCount(s1, m.id, channel, c)
      && s1.rows.Keys == s.rows.Keys
      && (forall r | r in s.rows && r != m.id :: s1.rows[r] == s.rows[r])
      && PostsFramed(s, s1, (channel, s1.rows[m.id]))
  {
    UpdateShowsCount(s, m.id, m, c, channel);
    var (s1, id) := UpdateStep(s, s.rows[m.id], m.id, m, c, channel);
    if (channel, s.rows[m.id]) in s.posts {
      PostsFramedByUpdate(s, s1, (channel, id), s.posts[(channel, id)].(content := CountText(c)));
    } else {
      PostsFramedByUpdate(s, s1, (channel, id), RenderPost(m, c));
    }
  }

  /** Creating the record of a message without one adds only that record and its repost. */
  lemma CreateFramed(s: Store, m: Message, c: nat, channel: nat)
    requires Consistent(s) && m.id !in s.rows
    ensures var s1 := CreateNewStep(s, m, c, channel).0;
      && Consistent(s1)
      && ShowsCount(s1, m.id, channel, c)
      && s1.rows.Keys == s.rows.Keys + {m.id}
      && (forall r | r in s.rows :: s1.rows[r] == s.rows[r])
      && PostsFramed(s, s1, (channel, s1.rows[m.id]))
  {
    CreateNewRules(s, m, c, channel);
    var (s1, id) := CreateNewStep(s, m, c, channel);
    PostsFramedByUpdate(s, s1, (channel, id), RenderPost(m, c));
  }

  /**
   * `on_reaction_add` with a snapshot: nothing for a message of the star
   * channel itself or below the threshold; at or above it, the message ends
   * with a record whose repost is live and shows the count, and only its own
   * record and that repost may change.
   */
  lemma {:induction false} AddRules(s: Store, m: Message, g: StarrGuild, c: nat)
    requires Consistent(s)
    ensures var s1 := Apply(s, AddAction(s.rows, m, g, c), m, g, c);
      && Consistent(s1)
      && (m.channelId == g.starChannel || c < g.threshold ==> s1 == s)
      && (m.channelId != g.starChannel && c >= g.threshold ==>
            && ShowsCount(s1, m.id, g.starChannel, c)
            && s1.rows.Keys == s.rows.Keys + {m.id}
            && (forall r | r in s.rows && r != m.id :: s1.rows[r] == s.rows[r])
            && PostsFramed(s, s1, (g.starChannel, s1.rows[m.id])))
  {
    var a := AddAction(s.rows, m, g, c);
    if m.channelId == g.starChannel || c < g.threshold {
      assert a == NoAction;
    } else if m.id in s.rows {
      assert a == Update(s.rows[m.id]);
      UpdateFramed(s, m, c, g.starChannel);
    } else {
      assert a == Create;
      CreateFramed(s, m, c, g.starChannel);
    }
  }

  /**
   * `on_reaction_delete` with a snapshot: nothing without a record; below the
   * threshold the record and its repost both go; otherwise the repost is
   * brought up to the count, as on an add. No other record or repost changes.
   */
  lemma {:induction false} DeleteRules(s: Store, m: Message, g: StarrGuild, c: nat)
    requires Consistent(s)
    ensures var s1 := Apply(s, DeleteAction(s.rows, m, g, c), m, g, c);
      && Consistent(s1)
      && (m.id !in s.rows ==> s1 == s)
      && (m.id in s.rows && c < g.threshold ==>
            s1.rows == s.rows - {m.id} && s1.posts == s.posts - {(g.starChannel, s.rows[m.id])})
      && (m.id in s.rows && c >= g.threshold ==>
            && ShowsCount(s1, m.id, g.starChannel, c) && s1.rows.Keys == s.rows.Keys
            && (forall r | r in s.rows && r != m.id :: s1.rows[r] == s.rows[r])
            && PostsFramed(s, s1, (g.starChannel, s1.rows[m.id])))
  {
    if m.id in s.rows {
      if c < g.threshold {
        DeleteRemovesRecord(s, m.id, g.starChannel);
      } else {
        UpdateFramed(s, m, c, g.starChannel);
      }
    }
  }

  /**
   * The clearing events never look at an emoji or fetch the message: with a
   * configured guild and a record, the record and its repost go; otherwise
   * nothing changes.
   */
  lemma {:induction false} ClearRules(cache: map<Snowflake, StarrGuild>, guildRows: map<Snowflake, StarrGuild>,
                                      s: Store, e: ClearEvent)
    requires Consistent(s)
    ensures var s1 := ClearStep(cache, guildRows, s, e);
      && Consistent(s1)
      && (match LookupGuild(cache, guildRows, e.guildId)
          case None => s1 == s
          case Some(g) =>
            && (!StarboardEnabled(g) || e.messageId !in s.rows ==> s1 == s)
            && (StarboardEnabled(g) && e.messageId in s.rows ==>
                  s1.rows == s.rows - {e.messageId} && s1.posts == s.posts - {(g.starChannel, s.rows[e.messageId])}))
  {
    var lg := LookupGuild(cache, guildRows, e.guildId);
    if lg.Some? && StarboardEnabled(lg.value) && e.messageId in s.rows {
      DeleteRemovesRecord(s, e.messageId, lg.value.starChannel);
    }
  }

  /** The part of `AddRules` and `DeleteRules` the handlers rely on. */
  lemma ActionsKeepConsistent(s: Store, m: Message, g: StarrGuild, c: nat)
    requires Consistent(s)
    ensures Consistent(Apply(s, AddAction(s.rows, m, g, c), m, g, c))
    ensures Consistent(Apply(s, DeleteAction(s.rows, m, g, c), m, g, c))
  {
    AddRules(s, m, g, c);
    DeleteRules(s, m, g, c);
  }

  /** Every handler keeps the starboard consistent. */
  lemma HandlersPreserveConsistent(cache: map<Snowflake, StarrGuild>, guildRows: map<Snowflake, StarrGuild>,
                                   s: Store, e: ReactionEvent, fetched: Option<Message>, ce: ClearEvent)
    requires Consistent(s)
    ensures Consistent(ReactionAddStep(cache, guildRows, s, e, fetched))
    ensures Consistent(ReactionDeleteStep(cache, guildRows, s, e, fetched))
    ensures Consistent(ClearStep(cache, guildRows, s, ce))
  {
    var c := Classify(cache, guildRows, e, fetched);
    if c.Star? {
      AddRules(s, c.message, c.guild, c.count);
      DeleteRules(s, c.message, c.guild, c.count);
    }
    ClearRules(cache, guildRows, s, ce);
  }

  // ---------------------------------------------------------------- repeated events

  /** A repeated add of the same snapshot changes nothing more. */
  lemma {:induction false} AddTwice(s: Store, m: Message, g: StarrGuild, c: nat)
    requires Consistent(s)
    ensures var s1 := Apply(s, AddAction(s.rows, m, g, c), m, g, c);
            Apply(s1, AddAction(s1.rows, m, g, c), m, g, c) == s1
  {
    AddRules(s, m, g, c);
    var s1 := Apply(s, AddAction(s.rows, m, g, c), m, g, c);
    if m.channelId != g.starChannel && c >= g.threshold {
      var k := (g.starChannel, s1.rows[m.id]);
      assert s1.posts[k := s1.posts[k].(content := CountText(c))] == s1.posts;
    }
  }

  /** A repeated delete of the same snapshot changes nothing more. */
  lemma {:induction false} DeleteTwice(s: Store, m: Message, g: StarrGuild, c: nat)
    requires Consistent(s)
    ensures var s1 := Apply(s, DeleteAction(s.rows, m, g, c), m, g, c);
            Apply(s1, DeleteAction(s1.rows, m, g, c), m, g, c) == s1
  {
    DeleteRules(s, m, g, c);
    var s1 := Apply(s, DeleteAction(s.rows, m, g, c), m, g, c);
    if m.id in s.rows && c >= g.threshold {
      var k := (g.starChannel, s1.rows[m.id]);
      assert s1.posts[k := s1.posts[k].(content := CountText(c))] == s1.posts;
    }
  }

  /** A repeated clearing event changes nothing more. */
  lemma {:induction false} ClearTwice(cache: map<Snowflake, StarrGuild>, guildRows: map<Snowflake, StarrGuild>,
                                      s: Store, e: ClearEvent)
    requires Consistent(s)
    ensures ClearStep(cache, guildRows, ClearStep(cache, guildRows, s, e), e) == ClearStep(cache, guildRows, s, e)
  {
    ClearRules(cache, guildRows, s, e);
  }

  // ---------------------------------------------------------------- handlers

  /**
   * stars.py:45-77 against the bot's cache, table and the fetch result;
   * `fetched` is what `fetch_message` gave for the event's channel and message.
   */
  method GetReactionEventInfo(bot: StarrBot, e: ReactionEvent, fetched: Option<Message>) returns (c: Classified)
    requires fetched.Some? ==> fetched.value.id == e.messageId && fetched.value.channelId == e.channelId
    ensures c == Classify(bot.guilds, bot.db.guildRows, e, fetched)
    ensures c.Star? ==> c.message.id == e.messageId && c.message.channelId == e.channelId
  {
    if e.emoji != STAR {
      return Skip;
    }
    var guild: StarrGuild;
    if e.guildId in bot.guilds {
      guild := bot.guilds[e.guildId];
    } else {
      var row := bot.db.FromDb(e.guildId);
      if row.None? {
        return Failed;
      }
      guild := row.value;
    }
    if !StarboardEnabled(guild) || e.channelId in guild.starBlacklist {
      return Skip;
    }
    if fetched.None? {
      return Skip;
    }
    var message := fetched.value;
    return Star(message, guild, StarCount(message.reactions));
  }

  /** stars.py:80-102. The cache is left as it was: a guild read from the table is not cached. */
  method OnReactionAdd(bot: StarrBot, e: ReactionEvent, fetched: Option<Message>)
    requires bot.Valid()
    requires fetched.Some? ==> fetched.value.id == e.messageId && fetched.value.channelId == e.channelId
    modifies bot.db, bot.rest
    ensures bot.Valid()
    ensures StoreOf(bot.db, bot.rest) ==
            ReactionAddStep(bot.guilds, bot.db.guildRows, old(StoreOf(bot.db, bot.rest)), e, fetched)
    ensures bot.db.NonStarTables() == old(bot.db.NonStarTables())
  {
    var info := GetReactionEventInfo(bot, e, fetched);
    if !info.Star? {
      return;
    }
    var message, guild, count := info.message, info.guild, info.count;
    ghost var s := StoreOf(bot.db, bot.rest);
    ActionsKeepConsistent(s, message, guild, count);
    if message.channelId == guild.starChannel {
      return;
    }
    if count >= guild.threshold {
      var record := StarboardMessage.FromReference(bot.db, message.id, guild);
      if record == null {
        var _ := StarboardMessage.CreateNew(bot.rest, bot.db, message, count, guild);
      } else {
        record.Update(bot.rest, bot.db, message, count, guild);
      }
    }
  }

  /** stars.py:105-124. */
  method OnReactionDelete(bot: StarrBot, e: ReactionEvent, fetched: Option<Message>)
    requires bot.Valid()
    requires fetched.Some? ==> fetched.value.id == e.messageId && fetched.value.channelId == e.channelId
    modifies bot.db, bot.rest
    ensures bot.Valid()
    ensures StoreOf(bot.db, bot.rest) ==
            ReactionDeleteStep(bot.guilds, bot.db.guildRows, old(StoreOf(bot.db, bot.rest)), e, fetched)
    ensures bot.db.NonStarTables() == old(bot.db.NonStarTables())
  {
    var info := GetReactionEventInfo(bot, e, fetched);
    if !info.Star? {
      return;
    }
    var message, guild, count := info.message, info.guild, info.count;
    ghost var s := StoreOf(bot.db, bot.rest);
    ActionsKeepConsistent(s, message, guild, count);
    var record := StarboardMessage.FromReference(bot.db, message.id, guild);
    if record == null {
      return;
    }
    if count < guild.threshold {
      record.Delete(bot.rest, bot.db);
    } else {
      record.Update(bot.rest, bot.db, message, count, guild);
    }
  }

  /** stars.py:127-147. */
  method HandleGuaranteedDelete(bot: StarrBot, e: ClearEvent)
    requires bot.Valid()
    modifies bot.db, bot.rest
    ensures bot.Valid()
    ensures StoreOf(bot.db, bot.rest) == ClearStep(bot.guilds, bot.db.guildRows, old(StoreOf(bot.db, bot.rest)), e)
    ensures bot.db.NonStarTables() == old(bot.db.NonStarTables())
  {
    ghost var s := StoreOf(bot.db, bot.rest);
    ClearRules(bot.guilds, bot.db.guildRows, s, e);
    var guild: StarrGuild;
    if e.guildId in bot.guilds {
      guild := bot.guilds[e.guildId];
    } else {
      var row := bot.db.FromDb(e.guildId);
      if row.None? {
        return;
      }
      guild := row.value;
    }
    if !StarboardEnabled(guild) {
      return;
    }
    var record := StarboardMessage.FromReference(bot.db, e.messageId, guild);
    if record != null {
      record.Delete(bot.rest, bot.db);
    }
  }
}
