/**
 * The starboard's persistent state and `StarboardMessage` (models.py:254-375).
 * A `Store` holds the `starboard_messages` rows (original message id to repost
 * id), the posts the bot has in star channels, and the next id Discord hands
 * out. Each operation of `StarboardMessage` is first a function on a `Store`;
 * the class's methods run the same SQL statements and REST calls step by
 * step and are proved to end in the state that function describes.
 */
module Starboard {
  import opened Common
  import opened Models
  import opened Storage

  datatype Store = Store(
    rows: map<Snowflake, Snowflake>,
    posts: map<(nat, Snowflake), Post>,
    nextId: Snowflake)

  function StoreOf(db: Database, rest: Rest): Store
    reads db, rest
  {
    Store(db.starRows, rest.posts, rest.nextId)
  }

  /**
   * What every operation keeps: ids only come from Discord's allocator, and
   * no two originals share one repost.
   */
  ghost predicate Consistent(s: Store)
  {
    && (forall ref | ref in s.rows :: s.rows[ref] < s.nextId)
    && (forall k | k in s.posts :: k.1 < s.nextId)
    && (forall r1, r2 | r1 in s.rows && r2 in s.rows && r1 != r2 :: s.rows[r1] != s.rows[r2])
  }

  /** `INSERT ... VALUES (star, ref) ON CONFLICT DO NOTHING`, the conflict being on ReferenceID. */
  function InsertOrIgnore(rows: map<Snowflake, Snowflake>, starId: Snowflake, ref: Snowflake): map<Snowflake, Snowflake>
  {
    if ref in rows then rows else rows[ref := starId]
  }

  /** `UPDATE starboard_messages SET StarMessageID = star WHERE ReferenceID = ref`. */
  function UpdateByReference(rows: map<Snowflake, Snowflake>, starId: Snowflake, ref: Snowflake): map<Snowflake, Snowflake>
  {
    if ref in rows then rows[ref := starId] else rows
  }

  /** `DELETE FROM starboard_messages WHERE StarMessageID = star`. */
  function DeleteByStarId(rows: map<Snowflake, Snowflake>, starId: Snowflake): map<Snowflake, Snowflake>
  {
    map ref | ref in rows && rows[ref] != starId :: rows[ref]
  }

  /**
   * `create_new` (models.py:339-375): post the rendered repost in the star
   * channel, then record it for the original. Returns the new post's id.
   */
  function CreateNewStep(s: Store, original: Message, count: nat, channel: nat): (Store, Snowflake)
  {
    var id := s.nextId;
    (Store(InsertOrIgnore(s.rows, id, original.id),
           s.posts[(channel, id) := RenderPost(original, count)],
           id + 1),
     id)
  }

  /**
   * `update` (models.py:305-321): rewrite the text line of the repost; when
   * Discord no longer has it, post a new one and point the record of `ref` at
   * it. Returns the id the `StarboardMessage` holds afterwards.
   */
  function UpdateStep(s: Store, starId: Snowflake, ref: Snowflake, original: Message, count: nat, channel: nat): (Store, Snowflake)
  {
    if (channel, starId) in s.posts then
      (s.(posts := s.posts[(channel, starId) := s.posts[(channel, starId)].(content := CountText(count))]), starId)
    else
      var (s1, id) := CreateNewStep(s, original, count, channel);
      (s1.(rows := UpdateByReference(s1.rows, id, ref)), id)
  }

  /**
   * `delete` (models.py:289-303): remove the repost (a repost already gone
   * is ignored), then every record that names it.
   */
  function DeleteStep(s: Store, starId: Snowflake, channel: nat): Store
  {
    s.(posts := s.posts - {(channel, starId)}, rows := DeleteByStarId(s.rows, starId))
  }

  /**
   * The original `ref` has a record naming a repost that exists in the star
   * channel and whose text line is the one for `count`.
   */
  ghost predicate ShowsCount(s: Store, ref: Snowflake, channel: nat, count: nat)
  {
    && ref in s.rows
    && (channel, s.rows[ref]) in s.posts
    && s.posts[(channel, s.rows[ref])].content == CountText(count)
  }

  // ---------------------------------------------------------------- lemmas

  /**
   * Creating a repost posts it under a fresh id and records it for the
   * original, unless the original already had a record: then that record is
   * kept and the new post is left without one.
   */
  lemma CreateNewRules(s: Store, original: Message, count: nat, channel: nat)
    requires Consistent(s)
    ensures var (s1, id) := CreateNewStep(s, original, count, channel);
      && Consistent(s1)
      && id == s.nextId && (channel, id) !in s.posts && id !in s.rows.Values
      && s1.posts == s.posts[(channel, id) := RenderPost(original, count)]
      && s1.nextId == s.nextId + 1
      && CountFromText(s1.posts[(channel, id)].content) == Some(count)
      && s1.rows.Keys == s.rows.Keys + {original.id}
      && (original.id in s.rows ==> s1.rows == s.rows)
      && (original.id !in s.rows ==> ShowsCount(s1, original.id, channel, count))
  {
  }

  /** Creating twice for the same original leaves one record, naming the first repost. */
  lemma CreateNewTwice(s: Store, original: Message, count1: nat, count2: nat, channel: nat)
    requires Consistent(s) && original.id !in s.rows
    ensures var (s1, id1) := CreateNewStep(s, original, count1, channel);
            var (s2, id2) := CreateNewStep(s1, original, count2, channel);
      && s2.rows == s.rows[original.id := id1]
      && id1 != id2
      && (channel, id2) in s2.posts && id2 !in s2.rows.Values
  {
  }

  /**
   * After `update` the record of `ref` names a live repost whose text line
   * states `count`: either the old repost with only its text rewritten, or a
   * fresh one. No other record and no other repost changes.
   * The handlers always update the record of the message they fetched.
   */
  lemma {:induction false} UpdateShowsCount(s: Store, ref: Snowflake, original: Message, count: nat, channel: nat)
    requires Consistent(s) && ref in s.rows && original.id == ref
    ensures var (s1, id) := UpdateStep(s, s.rows[ref], ref, original, count, channel);
      && Consistent(s1)
      && s1.rows == s.rows[ref := id]
      && ShowsCount(s1, ref, channel, count)
      && ((channel, s.rows[ref]) in s.posts ==>
            && id == s.rows[ref] && s1.nextId == s.nextId
            && s1.posts == s.posts[(channel, id) := s.posts[(channel, id)].(content := CountText(count))])
      && ((channel, s.rows[ref]) !in s.posts ==>
            && id == s.nextId && s1.nextId == s.nextId + 1
            && s1.posts == s.posts[(channel, id) := RenderPost(original, count)])
  {
    var starId := s.rows[ref];
    var (s1, id) := UpdateStep(s, starId, ref, original, count, channel);
    CountTextRoundTrip(count);
    if (channel, starId) !in s.posts {
      var (s0, id0) := CreateNewStep(s, original, count, channel);
      assert id0 == id && s0.rows.Keys == s.rows.Keys + {original.id};
      assert s1.rows == s.rows[ref := id];
      forall r1, r2 | r1 in s1.rows && r2 in s1.rows && r1 != r2
        ensures s1.rows[r1] != s1.rows[r2]
      {
        if r1 != ref && r2 != ref {
          assert s1.rows[r1] == s.rows[r1] && s1.rows[r2] == s.rows[r2];
        }
      }
    } else {
      assert s1.rows == s.rows;
    }
  }

  /**
   * Deleting the repost of `ref` removes exactly that record (no other record
   * shares its id) and exactly that repost.
   */
  lemma {:induction false} DeleteRemovesRecord(s: Store, ref: Snowflake, channel: nat)
    requires Consistent(s) && ref in s.rows
    ensures var s1 := DeleteStep(s, s.rows[ref], channel);
      && Consistent(s1)
      && s1.rows == s.rows - {ref}
      && s1.posts == s.posts - {(channel, s.rows[ref])}
      && s1.nextId == s.nextId
  {
    var starId := s.rows[ref];
    var s1 := DeleteStep(s, starId, channel);
    forall r | r in s.rows
      ensures r in s1.rows <==> r != ref
    {
      if r != ref {
        assert s.rows[r] != s.rows[ref];
      }
    }
    assert s1.rows == s.rows - {ref};
  }

  /** Deleting twice is deleting once. */
  lemma DeleteIdempotent(s: Store, starId: Snowflake, channel: nat)
    ensures DeleteStep(DeleteStep(s, starId, channel), starId, channel) == DeleteStep(s, starId, channel)
  {
    var s1 := DeleteStep(s, starId, channel);
    assert DeleteByStarId(s1.rows, starId) == s1.rows;
    assert s1.posts - {(channel, starId)} == s1.posts;
  }

  /** Every step keeps the store consistent. */
  lemma {:induction false} StepsPreserveConsistent(s: Store, starId: Snowflake, ref: Snowflake, original: Message, count: nat, channel: nat)
    requires Consistent(s) && original.id == ref
    ensures Consistent(CreateNewStep(s, original, count, channel).0)
    ensures Consistent(UpdateStep(s, starId, ref, original, count, channel).0)
    ensures Consistent(DeleteStep(s, starId, channel))
  {
    CreateNewRules(s, original, count, channel);
    var s1 := UpdateStep(s, starId, ref, original, count, channel).0;
    if (channel, starId) !in s.posts {
      var (s0, id) := CreateNewStep(s, original, count, channel);
      assert id !in s0.rows.Values - {id} by {
        assert forall r | r in s.rows :: s.rows[r] < id;
      }
      forall r1, r2 | r1 in s1.rows && r2 in s1.rows && r1 != r2
        ensures s1.rows[r1] != s1.rows[r2]
      {
        if r1 != ref && r2 != ref {
          assert s1.rows[r1] == s0.rows[r1] && s1.rows[r2] == s0.rows[r2];
        } else if r1 == ref {
          assert s1.rows[r2] == s0.rows[r2];
        } else {
          assert s1.rows[r1] == s0.rows[r1];
        }
      }
    }
    var s2 := DeleteStep(s, starId, channel);
    assert forall r | r in s2.rows :: s2.rows[r] == s.rows[r];
  }

  // ---------------------------------------------------------------- the class

  /** A starboard record bound to its guild: the repost's id, the original's id. */
  class StarboardMessage {
    var messageId: Snowflake
    const referenceId: Snowflake
    const guild: StarrGuild

    constructor (messageId: Snowflake, referenceId: Snowflake, guild: StarrGuild)
      ensures this.messageId == messageId && this.referenceId == referenceId && this.guild == guild
    {
      this.messageId := messageId;
      this.referenceId := referenceId;
      this.guild := guild;
    }

    /** models.py:275-280. */
    method DbInsert(db: Database)
      modifies db
      ensures db.starRows == InsertOrIgnore(old(db.starRows), messageId, referenceId)
      ensures db.NonStarTables() == old(db.NonStarTables())
    {
      db.starRows := InsertOrIgnore(db.starRows, messageId, referenceId);
    }

    /** models.py:282-287. */
    method DbUpdate(db: Database)
      modifies db
      ensures db.starRows == UpdateByReference(old(db.starRows), messageId, referenceId)
      ensures db.NonStarTables() == old(db.NonStarTables())
    {
      db.starRows := UpdateByReference(db.starRows, messageId, referenceId);
    }

    /** models.py:289-303, in the channel of the guild this record was loaded with. */
    method Delete(rest: Rest, db: Database)
      modifies rest, db
      ensures StoreOf(db, rest) == DeleteStep(old(StoreOf(db, rest)), messageId, guild.starChannel)
      ensures db.NonStarTables() == old(db.NonStarTables())
    {
      var _ := rest.DeleteMessage(guild.starChannel, messageId);
      db.starRows := DeleteByStarId(db.starRows, messageId);
    }

    /** models.py:305-321, in the channel of the guild passed in. */
    method Update(rest: Rest, db: Database, original: Message, count: nat, guild: StarrGuild)
      modifies this, rest, db
      ensures (StoreOf(db, rest), messageId) ==
              UpdateStep(old(StoreOf(db, rest)), old(messageId), referenceId, original, count, guild.starChannel)
      ensures db.NonStarTables() == old(db.NonStarTables())
    {
      var found := rest.EditMessage(guild.starChannel, messageId, CountText(count));
      if !found {
        var id := CreateNew(rest, db, original, count, guild);
        messageId := id;
        DbUpdate(db);
      }
    }

    /** models.py:323-337: `SELECT StarMessageID ... WHERE ReferenceID = ref`. */
    static method FromReference(db: Database, referenceId: Snowflake, guild: StarrGuild) returns (m: StarboardMessage?)
      ensures m == null <==> referenceId !in db.starRows
      ensures m != null ==> fresh(m) && m.messageId == db.starRows[referenceId]
                            && m.referenceId == referenceId && m.guild == guild
    {
      if referenceId in db.starRows {
        m := new StarboardMessage(db.starRows[referenceId], referenceId, guild);
      } else {
        m := null;
      }
    }

    /** models.py:339-375; returns the id of the message posted. */
    static method CreateNew(rest: Rest, db: Database, original: Message, count: nat, guild: StarrGuild) returns (id: Snowflake)
      modifies rest, db
      ensures (StoreOf(db, rest), id) == CreateNewStep(old(StoreOf(db, rest)), original, count, guild.starChannel)
      ensures db.NonStarTables() == old(db.NonStarTables())
    {
      id := rest.CreateMessage(guild.starChannel, RenderPost(original, count));
      var record := new StarboardMessage(id, original.id, guild);
      record.DbInsert(db);
    }
  }
}
