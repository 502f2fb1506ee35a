/**
 * The two collaborators the bot mutates: the database (its four tables, as
 * maps) and the Discord REST API (the set of messages the bot has posted in
 * star channels). Each method is one SQL statement or one REST call.
 */
module Storage {
  import opened Common
  import opened Models
  import opened TagRules

  class Database {
    /** `guilds`, keyed by GuildID. */
    var guildRows: map<Snowflake, StarrGuild>
    /** `starboard_messages`: ReferenceID (the original message) to StarMessageID (its repost). */
    var starRows: map<Snowflake, Snowflake>
    /** `tags`, keyed by (GuildID, TagName). */
    var tagRows: map<TagKey, Tag>
    /** `tag_aliases`, keyed by (GuildID, TagAlias), giving the TagName. */
    var aliasRows: map<TagKey, string>

    ghost predicate Valid()
      reads this
    {
      && (forall k | k in guildRows :: guildRows[k].guildId == k && GuildValid(guildRows[k]))
      && TablesValid(Tables(tagRows, aliasRows))
    }

    function TagTables(): Tables
      reads this
    {
      Tables(tagRows, aliasRows)
    }

    /** The tables the starboard never writes. */
    function NonStarTables(): (map<Snowflake, StarrGuild>, map<TagKey, Tag>, map<TagKey, string>)
      reads this
    {
      (guildRows, tagRows, aliasRows)
    }

    /** The tables the tag commands never write. */
    function NonTagTables(): (map<Snowflake, StarrGuild>, map<Snowflake, Snowflake>)
      reads this
    {
      (guildRows, starRows)
    }

    constructor ()
      ensures Valid()
      ensures guildRows == map[] && starRows == map[] && tagRows == map[] && aliasRows == map[]
    {
      guildRows, starRows, tagRows, aliasRows := map[], map[], map[], map[];
    }

    /**
     * `StarrGuild.from_db` (models.py:236-239): `SELECT * FROM guilds WHERE
     * GuildID = $1`. With no row, `cls(*None)` raises; that is `None` here.
     */
    method FromDb(guildId: Snowflake) returns (g: Option<StarrGuild>)
      ensures g.Some? <==> guildId in guildRows
      ensures g.Some? ==> g.value == guildRows[guildId]
    {
      if guildId in guildRows {
        g := Some(guildRows[guildId]);
      } else {
        g := None;
      }
    }

    /**
     * `StarrGuild.default_with_insert` (models.py:241-251): insert a default
     * row unless one exists, and return the row now stored.
     */
    method DefaultWithInsert(guildId: Snowflake) returns (g: StarrGuild)
      requires Valid()
      modifies this
      ensures Valid()
      ensures g == (if guildId in old(guildRows) then old(guildRows[guildId]) else DefaultRow(guildId))
      ensures guildRows == old(guildRows)[guildId := g]
      ensures starRows == old(starRows) && tagRows == old(tagRows) && aliasRows == old(aliasRows)
    {
      if guildId !in guildRows {
        // INSERT ... ON CONFLICT DO NOTHING RETURNING *: a row came back.
        g := DefaultRow(guildId);
        guildRows := guildRows[guildId := g];
      } else {
        // Nothing was inserted: fall back to `from_db`.
        var row := FromDb(guildId);
        g := row.value;
      }
    }

    /** `UPDATE guilds SET StarChannel = channel WHERE GuildID = guildId` (admin.py:80-84). */
    method SetStarChannel(guildId: Snowflake, channel: Snowflake)
      requires Valid()
      modifies this
      ensures Valid()
      ensures guildRows == if guildId in old(guildRows)
                           then old(guildRows)[guildId := old(guildRows)[guildId].(starChannel := channel)]
                           else old(guildRows)
      ensures starRows == old(starRows) && TagTables() == old(TagTables())
    {
      if guildId in guildRows {
        guildRows := guildRows[guildId := guildRows[guildId].(starChannel := channel)];
      }
    }

    /** `UPDATE guilds SET Threshold = threshold WHERE GuildID = guildId` (admin.py:90-94). */
    method SetThreshold(guildId: Snowflake, threshold: int)
      requires Valid() && threshold >= 1
      modifies this
      ensures Valid()
      ensures guildRows == if guildId in old(guildRows)
                           then old(guildRows)[guildId := old(guildRows)[guildId].(threshold := threshold)]
                           else old(guildRows)
      ensures starRows == old(starRows) && TagTables() == old(TagTables())
    {
      if guildId in guildRows {
        guildRows := guildRows[guildId := guildRows[guildId].(threshold := threshold)];
      }
    }

    /** `UPDATE guilds SET Prefix = prefix WHERE GuildID = guildId` (admin.py:112-114). */
    method SetPrefix(guildId: Snowflake, prefix: string)
      requires Valid()
      modifies this
      ensures Valid()
      ensures guildRows == if guildId in old(guildRows)
                           then old(guildRows)[guildId := old(guildRows)[guildId].(prefix := prefix)]
                           else old(guildRows)
      ensures starRows == old(starRows) && TagTables() == old(TagTables())
    {
      if guildId in guildRows {
        guildRows := guildRows[guildId := guildRows[guildId].(prefix := prefix)];
      }
    }

    /** `SELECT * FROM guilds`: every row once, in an order the database chooses (bot.py:86). */
    method FetchGuildRows() returns (data: seq<StarrGuild>)
      requires Valid()
      ensures Enumerates(data, guildRows)
    {
      data := [];
      var left := guildRows.Keys;
      while left != {}
        invariant left <= guildRows.Keys
        invariant forall i | 0 <= i < |data| :: data[i].guildId in guildRows && guildRows[data[i].guildId] == data[i]
        invariant forall i | 0 <= i < |data| :: data[i].guildId !in left
        invariant forall k | k in guildRows :: k in left || k in IdsOf(data)
        decreases left
      {
        var k :| k in left;
        ghost var before := data;
        data := data + [guildRows[k]];
        assert IdsOf(data) == IdsOf(before) + {k} by {
          assert forall i | 0 <= i < |before| :: data[i] == before[i];
          assert data[|before|].guildId == k;
        }
        left := left - {k};
      }
    }
  }

  /** The guild ids of a list of rows. */
  function IdsOf(data: seq<StarrGuild>): set<Snowflake>
  {
    set i | 0 <= i < |data| :: data[i].guildId
  }

  /** `data` lists exactly the rows of `rows`. */
  ghost predicate Enumerates(data: seq<StarrGuild>, rows: map<Snowflake, StarrGuild>)
  {
    && (forall i | 0 <= i < |data| :: data[i].guildId in rows && rows[data[i].guildId] == data[i])
    && (forall k | k in rows :: k in IdsOf(data))
  }

  /**
   * The messages the bot has posted, keyed by (channel id, message id), and
   * the id Discord will give the next one. Messages never get an id already
   * handed out.
   */
  class Rest {
    var posts: map<(nat, Snowflake), Post>
    var nextId: Snowflake

    constructor ()
      ensures posts == map[] && nextId == 1
    {
      posts, nextId := map[], 1;
    }

    /** `rest.create_message`: the new message gets a fresh id. */
    method CreateMessage(channel: nat, post: Post) returns (id: Snowflake)
      modifies this
      ensures id == old(nextId) && nextId == old(nextId) + 1
      ensures posts == old(posts)[(channel, id) := post]
    {
      id := nextId;
      posts := posts[(channel, id) := post];
      nextId := nextId + 1;
    }

    /** `rest.edit_message` of the text line; `found` is false where it raises NotFoundError. */
    method EditMessage(channel: nat, id: Snowflake, content: string) returns (found: bool)
      modifies this
      ensures found <==> (channel, id) in old(posts)
      ensures nextId == old(nextId)
      ensures posts == if found then old(posts)[(channel, id) := old(posts)[(channel, id)].(content := content)]
                       else old(posts)
    {
      found := (channel, id) in posts;
      if found {
        posts := posts[(channel, id) := posts[(channel, id)].(content := content)];
      }
    }

    /** `rest.delete_message`; `found` is false where it raises NotFoundError. */
    method DeleteMessage(channel: nat, id: Snowflake) returns (found: bool)
      modifies this
      ensures found <==> (channel, id) in old(posts)
      ensures posts == old(posts) - {(channel, id)} && nextId == old(nextId)
    {
      found := (channel, id) in posts;
      posts := posts - {(channel, id)};
    }
  }
}
