/**
 * `StarrBot` (bot.py:45-110): the guild configuration cache `guilds` in front
 * of the `guilds` table, the database and the REST client it owns, and the
 * two events that fill the cache.
 */
module Bot {
  import opened Common
  import opened Models
  import opened Storage
  import opened Starboard

  /** Every cached configuration is the stored row of its guild. */
  ghost predicate Mirrors(cache: map<Snowflake, StarrGuild>, rows: map<Snowflake, StarrGuild>)
  {
    forall g | g in cache :: g in rows && rows[g] == cache[g]
  }

  /**
   * The cache built from a list of rows, later rows winning: what the loop of
   * `on_started` leaves in an empty cache.
   */
  function CacheOf(data: seq<StarrGuild>): map<Snowflake, StarrGuild>
  {
    if data == [] then map[]
    else CacheOf(data[..|data| - 1])[data[|data| - 1].guildId := data[|data| - 1]]
  }

  lemma {:induction false} CacheOfKeys(data: seq<StarrGuild>)
    ensures CacheOf(data).Keys == IdsOf(data)
  {
    if data != [] {
      var init := data[..|data| - 1];
      CacheOfKeys(init);
      assert IdsOf(data) == IdsOf(init) + {data[|data| - 1].guildId} by {
        assert forall i | 0 <= i < |init| :: data[i] == init[i];
      }
    }
  }

  /** Rows that all agree with the table load into entries that agree with the table. */
  lemma {:induction false} CacheOfAgrees(data: seq<StarrGuild>, rows: map<Snowflake, StarrGuild>)
    requires forall i | 0 <= i < |data| :: data[i].guildId in rows && rows[data[i].guildId] == data[i]
    ensures Mirrors(CacheOf(data), rows)
  {
    if data != [] {
      var init := data[..|data| - 1];
      assert forall i | 0 <= i < |init| :: init[i] == data[i];
      CacheOfAgrees(init, rows);
    }
  }

  /** Loading a full listing of the table reproduces the table exactly, whatever the listing's order. */
  lemma CacheOfEnumeration(data: seq<StarrGuild>, rows: map<Snowflake, StarrGuild>)
    requires Enumerates(data, rows)
    ensures CacheOf(data) == rows
  {
    CacheOfKeys(data);
    CacheOfAgrees(data, rows);
    assert CacheOf(data).Keys == rows.Keys;
  }

  /**
   * The configuration the stars handlers use (stars.py:53-56, 135-138): the
   * cached one, else the stored row. `None` is the error `from_db` raises
   * when the guild has no row.
   */
  function LookupGuild(cache: map<Snowflake, StarrGuild>, rows: map<Snowflake, StarrGuild>, guildId: Snowflake): Option<StarrGuild>
  {
    if guildId in cache then Some(cache[guildId])
    else if guildId in rows then Some(rows[guildId])
    else None
  }

  /** While the cache mirrors the table, looking in the cache first is the same as reading the table. */
  lemma LookupGuildReadsTable(cache: map<Snowflake, StarrGuild>, rows: map<Snowflake, StarrGuild>, guildId: Snowflake)
    requires Mirrors(cache, rows)
    ensures LookupGuild(cache, rows, guildId) == if guildId in rows then Some(rows[guildId]) else None
  {
  }

  /** The prefix lookup of bot.py:104-110: the cached guild's prefix, else `./`. */
  function PrefixOf(cache: map<Snowflake, StarrGuild>, guildId: Snowflake): string
  {
    if guildId in cache then cache[guildId].prefix else DEFAULT_PREFIX
  }

  /**
   * A cached guild is answered with its stored prefix; any other guild gets
   * `./`, which is also what a freshly inserted row says.
   */
  lemma PrefixOfStoredRow(cache: map<Snowflake, StarrGuild>, rows: map<Snowflake, StarrGuild>, guildId: Snowflake)
    requires Mirrors(cache, rows)
    ensures guildId in cache ==> PrefixOf(cache, guildId) == rows[guildId].prefix
    ensures guildId !in cache ==> PrefixOf(cache, guildId) == DEFAULT_PREFIX == DefaultRow(guildId).prefix
  {
  }

  class StarrBot {
    var guilds: map<Snowflake, StarrGuild>
    const db: Database
    const rest: Rest

    ghost predicate Valid()
      reads this, db, rest
    {
      && db.Valid()
      && Mirrors(guilds, db.guildRows)
      && Consistent(StoreOf(db, rest))
    }

    constructor ()
      ensures Valid() && fresh(db) && fresh(rest)
      ensures guilds == map[]
      ensures db.guildRows == map[] && db.starRows == map[] && db.tagRows == map[] && db.aliasRows == map[]
      ensures rest.posts == map[]
    {
      guilds := map[];
      db := new Database();
      rest := new Rest();
    }

    /** bot.py:85-89: every stored row is loaded into the cache under its guild id. */
    method OnStarted()
      requires Valid()
      modifies this
      ensures guilds == old(guilds) + db.guildRows
      ensures Valid()
    {
      var data := db.FetchGuildRows();
      for i := 0 to |data|
        invariant guilds == old(guilds) + CacheOf(data[..i])
      {
        assert data[..i + 1][..i] == data[..i];
        guilds := guilds[data[i].guildId := data[i]];
      }
      assert data[..|data|] == data;
      CacheOfEnumeration(data, db.guildRows);
    }

    /**
     * bot.py:97-102: a guild not yet cached gets its stored row, inserting a
     * default row first when it has none. A cached guild is left alone.
     */
    method OnGuildAvailable(guildId: Snowflake)
      requires Valid()
      modifies this, db
      ensures Valid()
      ensures guildId in guilds && guilds[guildId] == db.guildRows[guildId]
      ensures guildId in old(guilds) ==> guilds == old(guilds) && db.guildRows == old(db.guildRows)
      ensures guildId !in old(guilds) ==>
                guilds == old(guilds)[guildId := guilds[guildId]]
                && guilds[guildId] == (if guildId in old(db.guildRows) then old(db.guildRows[guildId]) else DefaultRow(guildId))
                && db.guildRows == old(db.guildRows)[guildId := guilds[guildId]]
      ensures db.starRows == old(db.starRows) && db.TagTables() == old(db.TagTables())
    {
      if guildId !in guilds {
        var g := db.DefaultWithInsert(guildId);
        guilds := guilds[g.guildId := g];
      }
    }

    /**
     * bot.py:104-110: the prefix of a cached guild is its configured prefix;
     * a guild not in the cache uses the default `./`.
     */
    function ResolvePrefix(guildId: Snowflake): (p: string)
      reads this
      ensures guildId in guilds ==> p == guilds[guildId].prefix
      ensures guildId !in guilds ==> p == DEFAULT_PREFIX
    {
      PrefixOf(guilds, guildId)
    }
  }
}
