/**
 * The tag commands of modules/tags.py as they run: each one lower-cases its
 * name, issues its queries one after another against the `tags` and
 * `tag_aliases` tables and stops at the first check that fails. Each command
 * is proved to leave the tables, and to reply, as its rule in `TagRules` says.
 */
module Tags {
  import opened Common
  import opened Text
  import opened TagRules
  import opened Storage

  // ---------------------------------------------------------------- statements

  /** `SELECT tagowner FROM tags WHERE guildid = guild AND tagname = name`. */
  method SelectOwner(db: Database, guild: Snowflake, name: string) returns (owner: Option<Snowflake>)
    ensures owner.Some? <==> (guild, name) in db.tagRows
    ensures owner.Some? ==> owner.value == db.tagRows[(guild, name)].owner
  {
    if (guild, name) in db.tagRows {
      owner := Some(db.tagRows[(guild, name)].owner);
    } else {
      owner := None;
    }
  }

  /**
   * The name-or-alias select (`tags FULL OUTER JOIN tag_aliases ... WHERE
   * t.tagname = name OR a.tagalias = name`): the tag a name stands for.
   */
  method SelectResolved(db: Database, guild: Snowflake, name: string) returns (tag: Option<(string, Tag)>)
    ensures tag.Some? <==> Resolve(db.TagTables(), guild, name).Some?
    ensures tag.Some? ==> tag.value.0 == Resolve(db.TagTables(), guild, name).value
                          && tag.value.1 == db.tagRows[(guild, tag.value.0)]
  {
    if (guild, name) in db.tagRows {
      tag := Some((name, db.tagRows[(guild, name)]));
    } else if (guild, name) in db.aliasRows && (guild, db.aliasRows[(guild, name)]) in db.tagRows {
      var n := db.aliasRows[(guild, name)];
      tag := Some((n, db.tagRows[(guild, n)]));
    } else {
      tag := None;
    }
  }

  /**
   * The use-counting `UPDATE tags SET uses = uses + 1 ... RETURNING` of
   * tags.py:65-71 and 255-261, with the name-or-alias match it evidently
   * intends: one use more for the tag `name` stands for, which it returns.
   */
  method CountUseOf(db: Database, guild: Snowflake, name: string) returns (tag: Option<Tag>)
    modifies db
    ensures tag.Some? <==> Resolve(old(db.TagTables()), guild, name).Some?
    ensures tag.Some? ==>
              var n := Resolve(old(db.TagTables()), guild, name).value;
              tag.value == old(db.tagRows[(guild, n)]) && db.TagTables() == CountUse(old(db.TagTables()), (guild, n))
    ensures tag.None? ==> db.TagTables() == old(db.TagTables())
    ensures db.NonTagTables() == old(db.NonTagTables())
  {
    var found := SelectResolved(db, guild, name);
    if found.None? {
      return None;
    }
    var (n, t) := found.value;
    db.tagRows := db.tagRows[(guild, n) := t.(uses := t.uses + 1)];
    return Some(t);
  }

  /** `INSERT INTO tags (GuildID, TagOwner, TagName, TagContent)`: a tag with no uses yet. */
  method InsertTag(db: Database, guild: Snowflake, owner: Snowflake, name: string, content: string)
    modifies db
    ensures db.tagRows == old(db.tagRows)[(guild, name) := Tag(owner, content, 0)]
    ensures db.aliasRows == old(db.aliasRows) && db.NonTagTables() == old(db.NonTagTables())
  {
    db.tagRows := db.tagRows[(guild, name) := Tag(owner, content, 0)];
  }

  /** `INSERT INTO tag_aliases (tagname, tagalias, guildid)`. */
  method InsertAlias(db: Database, guild: Snowflake, alias: string, name: string)
    modifies db
    ensures db.aliasRows == old(db.aliasRows)[(guild, alias) := name]
    ensures db.tagRows == old(db.tagRows) && db.NonTagTables() == old(db.NonTagTables())
  {
    db.aliasRows := db.aliasRows[(guild, alias) := name];
  }

  /** `UPDATE tags SET TagOwner = owner WHERE GuildID = guild AND TagName = name`. */
  method SetOwner(db: Database, guild: Snowflake, name: string, owner: Snowflake)
    modifies db
    ensures db.tagRows == if (guild, name) in old(db.tagRows)
                          then old(db.tagRows)[(guild, name) := old(db.tagRows)[(guild, name)].(owner := owner)]
                          else old(db.tagRows)
    ensures db.aliasRows == old(db.aliasRows) && db.NonTagTables() == old(db.NonTagTables())
  {
    if (guild, name) in db.tagRows {
      db.tagRows := db.tagRows[(guild, name) := db.tagRows[(guild, name)].(owner := owner)];
    }
  }

  /** `UPDATE tags SET tagcontent = content WHERE tagname = name AND guildid = guild`. */
  method SetContent(db: Database, guild: Snowflake, name: string, content: string)
    modifies db
    ensures db.tagRows == if (guild, name) in old(db.tagRows)
                          then old(db.tagRows)[(guild, name) := old(db.tagRows)[(guild, name)].(content := content)]
                          else old(db.tagRows)
    ensures db.aliasRows == old(db.aliasRows) && db.NonTagTables() == old(db.NonTagTables())
  {
    if (guild, name) in db.tagRows {
      db.tagRows := db.tagRows[(guild, name) := db.tagRows[(guild, name)].(content := content)];
    }
  }

  /** The two deletes of tags.py:443-444, aliases first. */
  method DeleteTagAndAliases(db: Database, guild: Snowflake, name: string)
    modifies db
    ensures db.TagTables() == RemoveTag(old(db.TagTables()), guild, name)
    ensures db.NonTagTables() == old(db.NonTagTables())
  {
    db.aliasRows := map k | k in db.aliasRows && !(k.0 == guild && db.aliasRows[k] == name) :: db.aliasRows[k];
    db.tagRows := db.tagRows - {(guild, name)};
  }

  // ---------------------------------------------------------------- commands

  /** `tag <name>` (tags.py:51-77). */
  method TagGroup(db: Database, guild: Snowflake, given: string) returns (reply: Reply)
    requires db.Valid()
    modifies db
    ensures db.Valid()
    ensures (db.TagTables(), reply) == Lookup(old(db.TagTables()), guild, given)
    ensures db.NonTagTables() == old(db.NonTagTables())
  {
    CommandsPreserveValid(db.TagTables(), guild, guild, given, given, guild, false, NoAnswer);
    var name := Lower(given);
    var tag := CountUseOf(db, guild, name);
    if tag.Some? {
      return Content(tag.value.content);
    }
    return NotATag(given);
  }

  /** `tag info <name>` (tags.py:80-114). */
  method TagInfo(db: Database, guild: Snowflake, given: string) returns (reply: Reply)
    ensures reply == InfoOf(db.TagTables(), guild, given)
  {
    var name := Lower(given);
    var tag := SelectResolved(db, guild, name);
    if tag.None? {
      return NoSuchTag(name);
    }
    var (n, t) := tag.value;
    return Info(name, n, t.owner, t.uses, n != name);
  }

  /** `tag alias <name> <alias>` (tags.py:145-206). */
  method TagAlias(db: Database, guild: Snowflake, author: Snowflake, givenName: string, givenAlias: string)
    returns (reply: Reply)
    requires db.Valid()
    modifies db
    ensures db.Valid()
    ensures (db.TagTables(), reply) == AddAlias(old(db.TagTables()), guild, author, givenName, givenAlias)
    ensures db.NonTagTables() == old(db.NonTagTables())
  {
    CommandsPreserveValid(db.TagTables(), guild, author, givenName, givenAlias, author, false, NoAnswer);
    var name, alias := Lower(givenName), Lower(givenAlias);
    if alias in RESERVED_TAGS {
      return Reserved;
    }
    var owner := SelectOwner(db, guild, name);
    if owner.None? {
      return NoSuchTag(name);
    }
    if author != owner.value {
      return NotOwner(owner.value);
    }
    var inUse := SelectResolved(db, guild, alias);
    if inUse.Some? {
      return AliasInUse(inUse.value.1.owner);
    }
    InsertAlias(db, guild, alias, name);
    return Aliased(name, alias);
  }

  /** `tag claim <name>` (tags.py:209-237); `ownerIsMember` is whether `fetch_member` found the owner. */
  method TagClaim(db: Database, guild: Snowflake, author: Snowflake, given: string, ownerIsMember: bool)
    returns (reply: Reply)
    requires db.Valid()
    modifies db
    ensures db.Valid()
    ensures (db.TagTables(), reply) == Claim(old(db.TagTables()), guild, author, given, ownerIsMember)
    ensures db.NonTagTables() == old(db.NonTagTables())
  {
    CommandsPreserveValid(db.TagTables(), guild, author, given, given, author, ownerIsMember, NoAnswer);
    var name := Lower(given);
    var owner := SelectOwner(db, guild, name);
    if owner.None? {
      return NoSuchTag(name);
    }
    if !ownerIsMember {
      SetOwner(db, guild, name, author);
      return Claimed(name);
    }
    return OwnerStillHere(owner.value);
  }

  /** `tag create <name> <content>` (tags.py:240-286). */
  method TagCreate(db: Database, guild: Snowflake, author: Snowflake, given: string, content: string)
    returns (reply: Reply)
    requires db.Valid()
    modifies db
    ensures db.Valid()
    ensures (db.TagTables(), reply) == Create(old(db.TagTables()), guild, author, given, content)
    ensures db.NonTagTables() == old(db.NonTagTables())
  {
    CommandsPreserveValid(db.TagTables(), guild, author, given, content, author, false, NoAnswer);
    var name := Lower(given);
    if name in RESERVED_TAGS {
      return Reserved;
    }
    var existing := CountUseOf(db, guild, name);
    if existing.Some? {
      return AlreadyCreated(existing.value.owner);
    }
    InsertTag(db, guild, author, name, content);
    return Created(name, author);
  }

  /**
   * `tag edit <name> <content>` (tags.py:289-382). `choice` is the button
   * pressed on the "create it now?" prompt, or none before the timeout.
   */
  method TagEdit(db: Database, guild: Snowflake, author: Snowflake, given: string, content: string, choice: EditChoice)
    returns (reply: Reply)
    requires db.Valid()
    modifies db
    ensures db.Valid()
    ensures (db.TagTables(), reply) == Edit(old(db.TagTables()), guild, author, given, content, choice)
    ensures db.NonTagTables() == old(db.NonTagTables())
  {
    CommandsPreserveValid(db.TagTables(), guild, author, given, content, author, false, choice);
    var name := Lower(given);
    var tag := SelectResolved(db, guild, name);
    if tag.Some? {
      var owner := tag.value.1.owner;
      if owner == author {
        SetContent(db, guild, name, content);
        return Edited(name);
      }
      return NotOwner(owner);
    }
    match choice {
      case Yes =>
        InsertTag(db, guild, author, name, content);
        return Created(name, author);
      case No =>
        return NotCreating(name);
      case NoAnswer =>
        return TimedOut(name);
    }
  }

  /** `tag transfer <name> <user>` (tags.py:385-427). */
  method TagTransfer(db: Database, guild: Snowflake, author: Snowflake, given: string, user: Snowflake)
    returns (reply: Reply)
    requires db.Valid()
    modifies db
    ensures db.Valid()
    ensures (db.TagTables(), reply) == Transfer(old(db.TagTables()), guild, author, given, user)
    ensures db.NonTagTables() == old(db.NonTagTables())
  {
    CommandsPreserveValid(db.TagTables(), guild, author, given, given, user, false, NoAnswer);
    var name := Lower(given);
    var owner := SelectOwner(db, guild, name);
    if owner.None? {
      return NoSuchTag(name);
    }
    if owner.value == author {
      SetOwner(db, guild, name, user);
      return Transferred(name, author, user);
    }
    return NotOwner(owner.value);
  }

  /** `tag delete <name>` (tags.py:430-474); `isAdmin` is whether the author holds ADMINISTRATOR. */
  method TagDelete(db: Database, guild: Snowflake, author: Snowflake, given: string, isAdmin: bool)
    returns (reply: Reply)
    requires db.Valid()
    modifies db
    ensures db.Valid()
    ensures (db.TagTables(), reply) == Delete(old(db.TagTables()), guild, author, given, isAdmin)
    ensures db.NonTagTables() == old(db.NonTagTables())
  {
    CommandsPreserveValid(db.TagTables(), guild, author, given, given, author, isAdmin, NoAnswer);
    var name := Lower(given);
    var owner := SelectOwner(db, guild, name);
    if owner.None? {
      return NoSuchTag(name);
    }
    if author != owner.value {
      if isAdmin {
        DeleteTagAndAliases(db, guild, name);
        return DeletedByAdmin(name, owner.value);
      }
      return NotOwner(owner.value);
    }
    DeleteTagAndAliases(db, guild, name);
    return Deleted(name);
  }
}
