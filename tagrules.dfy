/**
 * The rules of the tag commands (modules/tags.py) over the two tables they
 * use: `tags` (guild, name, owner, content, uses) and `tag_aliases` (guild,
 * alias, tag name). Each command is a function from the tables and the
 * command's inputs to the new tables and the kind of reply it sends.
 */
module TagRules {
  import opened Common
  import opened Text

  /** Names no tag or alias may take: they are the subcommands of `tag` (tags.py:39-48). */
  const RESERVED_TAGS: seq<string> :=
    ["create", "delete", "edit", "info", "list", "transfer", "claim", "alias"]

  /** A row key: the guild id and a lower-cased tag name or alias. */
  type TagKey = (Snowflake, string)

  datatype Tag = Tag(owner: Snowflake, content: string, uses: nat)

  /** `tags` keyed by (guild, name); `tag_aliases` keyed by (guild, alias) to the tag name. */
  datatype Tables = Tables(tags: map<TagKey, Tag>, aliases: map<TagKey, string>)

  /**
   * What the commands keep true: an alias is never also a tag name of its
   * guild, and every alias names a tag of its guild.
   */
  ghost predicate TablesValid(t: Tables)
  {
    forall k | k in t.aliases :: k !in t.tags && (k.0, t.aliases[k]) in t.tags
  }

  /**
   * The tag a name or alias stands for within a guild: the `FULL OUTER JOIN`
   * selects of tags.py:92-98, 186-190 and 306-311 (a tag of that name, or a
   * tag that has that alias).
   */
  function Resolve(t: Tables, guild: Snowflake, name: string): (r: Option<string>)
    ensures r.Some? ==> (guild, r.value) in t.tags
    ensures r.Some? && r.value != name ==> (guild, name) in t.aliases && t.aliases[(guild, name)] == r.value
    ensures (guild, name) in t.tags ==> r == Some(name)
  {
    if (guild, name) in t.tags then Some(name)
    else if (guild, name) in t.aliases && (guild, t.aliases[(guild, name)]) in t.tags
    then Some(t.aliases[(guild, name)])
    else None
  }

  /** In valid tables a name resolves exactly when it is a tag name or an alias of its guild. */
  lemma ResolveValid(t: Tables, guild: Snowflake, name: string)
    requires TablesValid(t)
    ensures Resolve(t, guild, name).Some? <==> (guild, name) in t.tags || (guild, name) in t.aliases
  {
  }

  datatype Reply =
    | Content(text: string)
    | NotATag(given: string)
    | Reserved
    | AlreadyCreated(owner: Snowflake)
    | Created(name: string, owner: Snowflake)
    | NoSuchTag(name: string)
    | NotOwner(owner: Snowflake)
    | AliasInUse(owner: Snowflake)
    | Aliased(name: string, alias: string)
    | Info(requested: string, name: string, owner: Snowflake, uses: nat, isAlias: bool)
    | Edited(name: string)
    | NotCreating(name: string)
    | TimedOut(name: string)
    | Transferred(name: string, from: Snowflake, to: Snowflake)
    | Claimed(name: string)
    | OwnerStillHere(owner: Snowflake)
    | Deleted(name: string)
    | DeletedByAdmin(name: string, owner: Snowflake)

  /** One use more for the tag stored under `k`. */
  function CountUse(t: Tables, k: TagKey): Tables
    requires k in t.tags
  {
    t.(tags := t.tags[k := t.tags[k].(uses := t.tags[k].uses + 1)])
  }

  /** `tag <name>` (tags.py:58-77) as its query evidently intends: count a use of the tag the name resolves to and show it. */
  function Lookup(t: Tables, guild: Snowflake, given: string): (Tables, Reply)
  {
    var name := Lower(given);
    match Resolve(t, guild, name)
    case Some(n) => (CountUse(t, (guild, n)), Content(t.tags[(guild, n)].content))
    case None => (t, NotATag(given))
  }

  /** `tag info <name>` (tags.py:85-114): reads only. */
  function InfoOf(t: Tables, guild: Snowflake, given: string): Reply
  {
    var name := Lower(given);
    match Resolve(t, guild, name)
    case Some(n) =>
      var tag := t.tags[(guild, n)];
      Info(name, n, tag.owner, tag.uses, n != name)
    case None => NoSuchTag(name)
  }

  /** `tag alias <name> <alias>` (tags.py:154-206). */
  function AddAlias(t: Tables, guild: Snowflake, author: Snowflake, givenName: string, givenAlias: string): (Tables, Reply)
  {
    var name, alias := Lower(givenName), Lower(givenAlias);
    if alias in RESERVED_TAGS then (t, Reserved)
    else if (guild, name) !in t.tags then (t, NoSuchTag(name))
    else if t.tags[(guild, name)].owner != author then (t, NotOwner(t.tags[(guild, name)].owner))
    else match Resolve(t, guild, alias)
      case Some(n) => (t, AliasInUse(t.tags[(guild, n)].owner))
      case None => (t.(aliases := t.aliases[(guild, alias) := name]), Aliased(name, alias))
  }

  /** `tag claim <name>` (tags.py:214-237); `ownerIsMember` is whether `fetch_member` found the owner. */
  function Claim(t: Tables, guild: Snowflake, author: Snowflake, given: string, ownerIsMember: bool): (Tables, Reply)
  {
    var name := Lower(given);
    if (guild, name) !in t.tags then (t, NoSuchTag(name))
    else if ownerIsMember then (t, OwnerStillHere(t.tags[(guild, name)].owner))
    else (t.(tags := t.tags[(guild, name) := t.tags[(guild, name)].(owner := author)]), Claimed(name))
  }

  /** `tag create <name> <content>` (tags.py:246-286), with the existence test evidently intended. */
  function Create(t: Tables, guild: Snowflake, author: Snowflake, given: string, content: string): (Tables, Reply)
  {
    var name := Lower(given);
    if name in RESERVED_TAGS then (t, Reserved)
    else match Resolve(t, guild, name)
      case Some(n) => (CountUse(t, (guild, n)), AlreadyCreated(t.tags[(guild, n)].owner))
      case None => (t.(tags := t.tags[(guild, name) := Tag(author, content, 0)]), Created(name, author))
  }

  /** The answer to "create it now?" when `tag edit` finds no tag (tags.py:330-382). */
  datatype EditChoice = Yes | No | NoAnswer

  /**
   * `tag edit <name> <content>` (tags.py:297-382). The owner is looked up by
   * name or alias, but the content is written to the row whose name is
   * exactly `name`.
   */
  function Edit(t: Tables, guild: Snowflake, author: Snowflake, given: string, content: string,
                choice: EditChoice): (Tables, Reply)
  {
    var name := Lower(given);
    match Resolve(t, guild, name)
    case Some(n) =>
      var owner := t.tags[(guild, n)].owner;
      if owner != author then (t, NotOwner(owner))
      else if (guild, name) in t.tags
      then (t.(tags := t.tags[(guild, name) := t.tags[(guild, name)].(content := content)]), Edited(name))
      else (t, Edited(name))
    case None =>
      match choice
      case Yes => (t.(tags := t.tags[(guild, name) := Tag(author, content, 0)]), Created(name, author))
      case No => (t, NotCreating(name))
      case NoAnswer => (t, TimedOut(name))
  }

  /** `tag transfer <name> <user>` (tags.py:391-427). */
  function Transfer(t: Tables, guild: Snowflake, author: Snowflake, given: string, user: Snowflake): (Tables, Reply)
  {
    var name := Lower(given);
    if (guild, name) !in t.tags then (t, NoSuchTag(name))
    else if t.tags[(guild, name)].owner != author then (t, NotOwner(t.tags[(guild, name)].owner))
    else (t.(tags := t.tags[(guild, name) := t.tags[(guild, name)].(owner := user)]), Transferred(name, author, user))
  }

  /** The two `DELETE` statements of tags.py:443-444: the aliases of the tag, then the tag. */
  function RemoveTag(t: Tables, guild: Snowflake, name: string): (r: Tables)
    ensures (guild, name) !in r.tags
  {
    Tables(t.tags - {(guild, name)},
           map k | k in t.aliases && !(k.0 == guild && t.aliases[k] == name) :: t.aliases[k])
  }

  /** `tag delete <name>` (tags.py:435-474); `isAdmin` is whether the author holds ADMINISTRATOR. */
  function Delete(t: Tables, guild: Snowflake, author: Snowflake, given: string, isAdmin: bool): (Tables, Reply)
  {
    var name := Lower(given);
    if (guild, name) !in t.tags then (t, NoSuchTag(name))
    else
      var owner := t.tags[(guild, name)].owner;
      if owner == author then (RemoveTag(t, guild, name), Deleted(name))
      else if isAdmin then (RemoveTag(t, guild, name), DeletedByAdmin(name, owner))
      else (t, NotOwner(owner))
  }

  // ---------------------------------------------------------------------------
  // Properties of the commands.

  /** A name that resolves counts one use of exactly that tag and shows its content; a miss changes nothing. */
  lemma LookupCountsOneUse(t: Tables, guild: Snowflake, given: string)
    ensures var (t', reply) := Lookup(t, guild, given);
      match Resolve(t, guild, Lower(given))
      case Some(n) =>
        && reply == Content(t.tags[(guild, n)].content)
        && t'.aliases == t.aliases && t'.tags.Keys == t.tags.Keys
        && t'.tags[(guild, n)].uses == t.tags[(guild, n)].uses + 1
        && t'.tags[(guild, n)].owner == t.tags[(guild, n)].owner
        && t'.tags[(guild, n)].content == t.tags[(guild, n)].content
        && forall k | k in t.tags && k != (guild, n) :: t'.tags[k] == t.tags[k]
      case None => t' == t && reply == NotATag(given)
  {
  }

  /**
   * Create refuses a reserved name with nothing changed; an existing name or
   * alias is refused too, but counted as one use of the tag it stands for and
   * answered with that tag's owner; otherwise one tag owned by its author is added.
   */
  lemma CreateRules(t: Tables, guild: Snowflake, author: Snowflake, given: string, content: string)
    requires TablesValid(t)
    ensures var name := Lower(given);
      var (t', reply) := Create(t, guild, author, given, content);
      && (name in RESERVED_TAGS ==> t' == t && reply == Reserved)
      && (name !in RESERVED_TAGS && ((guild, name) in t.tags || (guild, name) in t.aliases) ==>
            var n := if (guild, name) in t.tags then name else t.aliases[(guild, name)];
            var tag := t.tags[(guild, n)];
            && t' == t.(tags := t.tags[(guild, n) := tag.(uses := tag.uses + 1)])
            && reply == AlreadyCreated(tag.owner))
      && (name !in RESERVED_TAGS && (guild, name) !in t.tags && (guild, name) !in t.aliases ==>
            t' == t.(tags := t.tags[(guild, name) := Tag(author, content, 0)]) && reply == Created(name, author))
  {
  }

  /** Alias is refused, with nothing changed, unless every check passes; then exactly one alias is added. */
  lemma AliasRules(t: Tables, guild: Snowflake, author: Snowflake, givenName: string, givenAlias: string)
    requires TablesValid(t)
    ensures var name, alias := Lower(givenName), Lower(givenAlias);
      var (t', reply) := AddAlias(t, guild, author, givenName, givenAlias);
      var accepted := && alias !in RESERVED_TAGS
                      && (guild, name) in t.tags && t.tags[(guild, name)].owner == author
                      && (guild, alias) !in t.tags && (guild, alias) !in t.aliases;
      && (accepted ==> t'.tags == t.tags && t'.aliases == t.aliases[(guild, alias) := name]
                       && (guild, alias) !in t.aliases && reply == Aliased(name, alias))
      && (!accepted ==> t' == t && !reply.Aliased?)
  {
  }

  /** Delete by the owner or an administrator removes the tag and all its aliases; anyone else changes nothing. */
  lemma DeleteRules(t: Tables, guild: Snowflake, author: Snowflake, given: string, isAdmin: bool)
    ensures var name := Lower(given);
      var (t', reply) := Delete(t, guild, author, given, isAdmin);
      if (guild, name) in t.tags && (t.tags[(guild, name)].owner == author || isAdmin) then
        && t'.tags == t.tags - {(guild, name)}
        && (forall k | k in t'.aliases :: k in t.aliases && t'.aliases[k] == t.aliases[k])
        && (forall k | k in t.aliases :: k in t'.aliases <==> !(k.0 == guild && t.aliases[k] == name))
      else t' == t
  {
  }

  /** Transfer succeeds only for the owner, and then changes only the owner of the exactly named tag. */
  lemma TransferRules(t: Tables, guild: Snowflake, author: Snowflake, given: string, user: Snowflake)
    ensures var name := Lower(given);
      var (t', reply) := Transfer(t, guild, author, given, user);
      if (guild, name) in t.tags && t.tags[(guild, name)].owner == author
      then t' == t.(tags := t.tags[(guild, name) := t.tags[(guild, name)].(owner := user)])
           && reply == Transferred(name, author, user)
      else t' == t && !reply.Transferred?
  {
  }

  /** Claim hands the exactly named tag to the author only when its owner has left the guild. */
  lemma ClaimRules(t: Tables, guild: Snowflake, author: Snowflake, given: string, ownerIsMember: bool)
    ensures var name := Lower(given);
      var (t', reply) := Claim(t, guild, author, given, ownerIsMember);
      if (guild, name) in t.tags && !ownerIsMember
      then t' == t.(tags := t.tags[(guild, name) := t.tags[(guild, name)].(owner := author)])
           && reply == Claimed(name)
      else t' == t && !reply.Claimed?
  {
  }

  /** Edit by the owner replaces the content of the exactly named tag only; a non-owner changes nothing. */
  lemma EditRules(t: Tables, guild: Snowflake, author: Snowflake, given: string, content: string, choice: EditChoice)
    requires TablesValid(t)
    ensures var name := Lower(given);
      var (t', _) := Edit(t, guild, author, given, content, choice);
      && ((guild, name) in t.tags && t.tags[(guild, name)].owner == author ==>
            t' == t.(tags := t.tags[(guild, name) := t.tags[(guild, name)].(content := content)]))
      && ((guild, name) in t.aliases ==> t' == t)
      && ((guild, name) in t.tags && t.tags[(guild, name)].owner != author ==> t' == t)
  {
  }

  /** An accepted alias names a tag of its guild and no tag of that name exists. */
  lemma AliasKeepsValid(t: Tables, guild: Snowflake, author: Snowflake, given: string, other: string)
    requires TablesValid(t)
    ensures TablesValid(AddAlias(t, guild, author, given, other).0)
  {
    var t1 := AddAlias(t, guild, author, given, other).0;
    if t1 != t {
      var alias := Lower(other);
      forall k | k in t1.aliases ensures k !in t1.tags && (k.0, t1.aliases[k]) in t1.tags {
        if k != (guild, alias) { assert k in t.aliases; }
      }
    }
  }

  /** Deleting a tag takes its aliases with it, so no alias is left dangling. */
  lemma DeleteKeepsValid(t: Tables, guild: Snowflake, author: Snowflake, given: string, flag: bool)
    requires TablesValid(t)
    ensures TablesValid(Delete(t, guild, author, given, flag).0)
  {
    var t2 := Delete(t, guild, author, given, flag).0;
    if t2 != t {
      forall k | k in t2.aliases ensures k !in t2.tags && (k.0, t2.aliases[k]) in t2.tags {
        assert k in t.aliases && t2.aliases[k] == t.aliases[k];
      }
    }
  }

  /** Every command keeps the tables valid. */
  lemma CommandsPreserveValid(t: Tables, guild: Snowflake, author: Snowflake, given: string, other: string,
                              user: Snowflake, flag: bool, choice: EditChoice)
    requires TablesValid(t)
    ensures TablesValid(Lookup(t, guild, given).0)
    ensures TablesValid(AddAlias(t, guild, author, given, other).0)
    ensures TablesValid(Claim(t, guild, author, given, flag).0)
    ensures TablesValid(Create(t, guild, author, given, other).0)
    ensures TablesValid(Edit(t, guild, author, given, other, choice).0)
    ensures TablesValid(Transfer(t, guild, author, given, user).0)
    ensures TablesValid(Delete(t, guild, author, given, flag).0)
  {
    AliasKeepsValid(t, guild, author, given, other);
    DeleteKeepsValid(t, guild, author, given, flag);
  }

  /** The commands that only look a name up lower-case it first, so case does not matter to them. */
  lemma ReadsIgnoreCase(t: Tables, guild: Snowflake, given: string)
    ensures Lookup(t, guild, given).0 == Lookup(t, guild, Lower(given)).0
    ensures InfoOf(t, guild, given) == InfoOf(t, guild, Lower(given))
  {
    LowerIdempotent(given);
  }

  /** Alias lower-cases both the tag name and the alias it is given. */
  lemma AliasIgnoresCase(t: Tables, guild: Snowflake, author: Snowflake, given: string, alias: string)
    ensures AddAlias(t, guild, author, given, alias) == AddAlias(t, guild, author, Lower(given), Lower(alias))
  {
    LowerIdempotent(given);
    LowerIdempotent(alias);
  }

  /** Claim, transfer and delete lower-case the name they are given. */
  lemma OwnerCommandsIgnoreCase(t: Tables, guild: Snowflake, author: Snowflake, given: string,
                                user: Snowflake, flag: bool)
    ensures Claim(t, guild, author, given, flag) == Claim(t, guild, author, Lower(given), flag)
    ensures Transfer(t, guild, author, given, user) == Transfer(t, guild, author, Lower(given), user)
    ensures Delete(t, guild, author, given, flag) == Delete(t, guild, author, Lower(given), flag)
  {
    LowerIdempotent(given);
  }

  /** Create and edit lower-case the name but keep the content as given. */
  lemma CreateEditIgnoreCase(t: Tables, guild: Snowflake, author: Snowflake, given: string, content: string,
                             choice: EditChoice)
    ensures Create(t, guild, author, given, content) == Create(t, guild, author, Lower(given), content)
    ensures Edit(t, guild, author, given, content, choice) == Edit(t, guild, author, Lower(given), content, choice)
  {
    LowerIdempotent(given);
  }

  // ---------------------------------------------------------------------------
  // The use-counting query as written (tags.py:65-71 and 255-261).

  /**
   * The tag rows `UPDATE tags SET uses = uses + 1 FROM tag_aliases a WHERE
   * tags.guildid = $1 AND tags.tagname = $2 OR (a.tagalias = $2 AND
   * tags.tagname = a.tagname)` updates: the rows `tk` of `tags` for which SOME
   * row `ak` of `tag_aliases` satisfies the condition, `AND` binding tighter
   * than `OR`.
   */
  function UpdatedAsWritten(t: Tables, guild: Snowflake, name: string): set<TagKey>
  {
    set tk, ak | tk in t.tags && ak in t.aliases
                 && ((tk.0 == guild && tk.1 == name) || (ak.1 == name && tk.1 == t.aliases[ak]))
      :: tk
  }

  /** When `tag_aliases` is empty the join has no rows: no tag is ever found, though it exists. */
  lemma EmptyAliasTableHidesTags(t: Tables, guild: Snowflake, name: string)
    requires t.aliases == map[] && (guild, name) in t.tags
    ensures UpdatedAsWritten(t, guild, name) == {}
    ensures Resolve(t, guild, name) == Some(name)
  {
  }

  /** A concrete instance: guild 1 has the tag "hi" and nobody has made any alias yet. */
  lemma EmptyAliasTableExample()
    ensures var t := Tables(map[(1, "hi") := Tag(7, "hello", 0)], map[]);
      UpdatedAsWritten(t, 1, "hi") == {} && Lookup(t, 1, "hi").1 == Content("hello")
  {
    var t := Tables(map[(1, "hi") := Tag(7, "hello", 0)], map[]);
    LowerOfLower("hi");
    EmptyAliasTableHidesTags(t, 1, "hi");
  }

  /** The alias branch is not restricted to the guild: an alias of guild 2 counts a use of guild 1's tag from guild 3. */
  lemma AliasBranchCrossesGuilds()
    ensures var t := Tables(map[(1, "hi") := Tag(7, "hello", 0), (2, "hi") := Tag(8, "hey", 0)],
                            map[(2, "greet") := "hi"]);
      (1, "hi") in UpdatedAsWritten(t, 3, "greet") && Resolve(t, 3, "greet") == None
  {
    var t := Tables(map[(1, "hi") := Tag(7, "hello", 0), (2, "hi") := Tag(8, "hey", 0)],
                    map[(2, "greet") := "hi"]);
    assert (2, "greet") in t.aliases && t.aliases[(2, "greet")] == "hi";
  }
}
