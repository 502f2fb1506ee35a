# Starr, modelled in Dafny

Starr is a Discord bot. Its core is the **starboard**. When a message in a guild collects enough star reactions, Starr reposts it in the guild's star channel with a line "You're a ⭐ x{count}!". It keeps at most one record per original message; the record maps the original's id to the repost's id. While reactions come and go, the repost's count is kept up to date, and the repost is removed when the count falls below the guild's threshold or the reactions are cleared.

Around that core the project models:

- the guild configuration (`StarrGuild`);
- the bot's cache of configurations, in front of the `guilds` table;
- the two configuration commands, which write a setting to both the cache and the table;
- the replies of ban, softban and hackban;
- the tag commands: named snippets of text that users create, alias, edit, transfer, claim and delete;
- the embed paginator.

The modules follow the program:

- `Models`: the value types of models.py, the star count and the repost's text.
- `Storage`: the database as a class over four maps: guild rows, starboard rows, tag rows, alias rows. It also holds the REST client's live posts.
- `Starboard`: the store the starboard reads and writes, the three transitions `create_new`, `update` and `delete`, and the `StarboardMessage` class proved equal to them.
- `Stars`: the classifier, the threshold rules and the three event handlers.
- `Bot`: the `StarrBot` class with its `guilds` cache.
- `Admin`: the two configuration commands and the ban replies.
- `TagRules` and `Tags`: the tag commands as pure functions over the two tables, and as check-then-write methods on the database proved equal to them.
- `Pagination`: page cutting, the button row, and navigation.
- `Text` and `Common`: helpers.

Each method that changes state is specified against a pure function of the old state, for example `ensures StoreOf(db, rest) == DeleteStep(old(StoreOf(db, rest)), …)`. The properties are then proved as lemmas about those functions.

The event loop, Discord, SQL and clocks are not modelled; they are inputs:

- What Discord answers becomes an explicit argument: the message `fetch_message` found (`Option`), whether `fetch_member` found the owner, the ban outcome, and the user's answer to the tag-edit prompt.
- The REST client is a map of live posts with a fresh-id counter. "Already gone" is a missing key.

## Model

| member | source | states |
|---|---|---|
| Models.NewGuild | starr/models.py:196-206 | A new configuration carries the given id and prefix; star channel defaults to 0 (off) and threshold to 5; blacklist empty |
| Models.DefaultRowIsDisabled | starr/models.py:196-206 | The default row of a guild has the starboard switched off, threshold 5, a valid threshold and an empty blacklist |
| Models.StarCountAppend | starr/modules/stars.py:75 | The star count of two reaction lists together is the sum of their counts |
| Models.StarCountCoversEntry | starr/modules/stars.py:75 | Every star entry contributes its full count, wherever it sits in the list |
| Models.StarCountTwoEntries | starr/modules/stars.py:75 | With two star entries, the count is at least the sum of both (not just the first) |
| Models.StarCountIgnoresOthers | starr/modules/stars.py:75 | A list with no star entry counts zero |
| Models.CountTextRoundTrip | starr/models.py:367-368 | The count can be read back from the repost's text line |
| Models.CountTextInjective | starr/models.py:314-316 | Different counts give different text lines |
| Models.RenderEmbed | starr/models.py:348-365 | The embed shows the original's content and an "ID: <id>" footer; it has an image exactly when the original has attachments, and the image is the first attachment |
| Models.RenderPost | starr/models.py:364-371 | The repost's text states the count, and its embed is the rendered embed |
| Text.Lower | starr/modules/tags.py:64 | Lower-casing keeps the length, maps each character, and leaves no upper-case letter |
| Text.LowerIdempotent | starr/modules/tags.py:64 | Lower-casing twice is lower-casing once |
| Storage.Database.FromDb | starr/models.py:236-239 | Returns the stored row of the guild, or the error case exactly when there is none |
| Storage.Database.DefaultWithInsert | starr/models.py:241-251 | Returns the existing row unchanged, or inserts and returns the default row; the table then holds that row, and the other tables are untouched |
| Storage.Database.SetStarChannel | starr/modules/admin.py:80-84 | Only the star channel of that guild's row changes, and only if the row exists |
| Storage.Database.SetThreshold | starr/modules/admin.py:90-94 | Only the threshold of that guild's row changes, and only if the row exists |
| Storage.Database.SetPrefix | starr/modules/admin.py:112-114 | Only the prefix of that guild's row changes, and only if the row exists |
| Storage.Database.FetchGuildRows | starr/bot.py:86 | Returns every stored row exactly once, in some order |
| Storage.Rest.CreateMessage | starr/models.py:367-371 | Posts under a fresh id, which it returns |
| Storage.Rest.EditMessage | starr/models.py:313-318 | Reports NotFound exactly when the post is gone; otherwise replaces only its text |
| Storage.Rest.DeleteMessage | starr/models.py:294-299 | Reports NotFound exactly when the post is gone; the post is absent afterwards either way |
| Starboard.CreateNewRules | starr/models.py:339-375 | The new repost gets a fresh id and states the count; the original is recorded. An original that already had a record keeps it (insert-or-ignore). The posts are the old ones plus exactly the new repost |
| Starboard.CreateNewTwice | starr/models.py:275-280 | Creating twice for one original leaves one record, which names the first repost |
| Starboard.UpdateShowsCount | starr/models.py:305-321 | Afterwards the record names a live repost showing the new count. It is either the old repost with only its text changed, or, if that was gone, a new repost whose id the record and the object now hold. No other record and no other post changes |
| Starboard.DeleteRemovesRecord | starr/models.py:289-303 | The repost is gone, whether or not it was there before, and exactly the record naming it is removed. Every other post stays |
| Starboard.DeleteIdempotent | starr/models.py:289-303 | Deleting twice is deleting once |
| Starboard.StepsPreserveConsistent | starr/models.py:275-321 | All three transitions keep repost ids below the id counter and keep any two records naming different reposts |
| Starboard.StarboardMessage.DbInsert | starr/models.py:275-280 | The starboard table becomes the insert-or-ignore of this record; nothing else changes |
| Starboard.StarboardMessage.DbUpdate | starr/models.py:282-287 | Points the record of this reference at this repost id; nothing else changes |
| Starboard.StarboardMessage.Delete | starr/models.py:289-303 | Store after = `DeleteStep` of the store before |
| Starboard.StarboardMessage.Update | starr/models.py:305-321 | Store after and the object's id = `UpdateStep` of the store before |
| Starboard.StarboardMessage.FromReference | starr/models.py:323-337 | No object exactly when the reference has no record; otherwise the object holds the stored repost id and the given reference |
| Starboard.StarboardMessage.CreateNew | starr/models.py:339-375 | Store after and the returned id = `CreateNewStep` of the store before |
| Bot.CacheOfEnumeration | starr/bot.py:85-89 | Loading a full listing of the table into an empty cache reproduces the table, whatever the listing's order |
| Bot.CacheOfKeys | starr/bot.py:86-89 | The loaded cache has one entry per guild id in the listing |
| Bot.LookupGuildReadsTable | starr/modules/stars.py:53-56 | While the cache mirrors the table, cache-then-table lookup is a table lookup |
| Bot.PrefixOfStoredRow | starr/bot.py:104-110 | A cached guild gets its stored prefix; any other guild gets "./", which is also the default row's prefix |
| Bot.StarrBot.OnStarted | starr/bot.py:85-89 | The cache afterwards is the old cache overridden by every stored row, keyed by guild id |
| Bot.StarrBot.OnGuildAvailable | starr/bot.py:97-102 | The guild is cached afterwards. A cached guild leaves cache and table unchanged; otherwise the stored or freshly inserted default row is cached |
| Bot.StarrBot.ResolvePrefix | starr/bot.py:104-110 | A guild in the cache gets its configured prefix; a guild not in the cache gets the default "./" |
| Stars.AsWrittenNeverStars | starr/modules/stars.py:58 | As written, no reaction event ever yields a snapshot; it fails exactly for a star on a configured guild or an unknown guild |
| Stars.AsWrittenExample | starr/modules/stars.py:58-61 | A concrete star event that the corrected classifier takes and the code as written fails on |
| Stars.OtherEmojiIgnored | starr/modules/stars.py:49-51 | A non-star emoji is skipped, and neither reaction handler changes the starboard |
| Stars.ClassifyRules | starr/modules/stars.py:45-77 | Snapshot iff: star emoji, guild found, star channel set, channel not blacklisted, message fetched. The snapshot's count is the star total; failure iff no guild row |
| Stars.IgnoredEventChangesNothing | starr/modules/stars.py:58-72 | Unconfigured guild, blacklisted channel or unfetchable message: no snapshot, and no change to records or reposts |
| Stars.AddRules | starr/modules/stars.py:88-102 | Nothing in the star channel itself or below the threshold. At or above it, the message has a record whose live repost shows the count; other records are untouched, and at most that repost is added or changed |
| Stars.DeleteRules | starr/modules/stars.py:111-124 | Nothing without a record. Below the threshold exactly that record and its repost go. Otherwise the repost shows the count; other records are untouched, and at most that repost changes |
| Stars.ClearRules | starr/modules/stars.py:127-147 | Configured guild and a record: exactly that record and its repost go; otherwise nothing changes. No emoji or fetch is involved |
| Stars.ActionsKeepConsistent | starr/modules/stars.py:88-124 | The add and delete actions keep the starboard consistent |
| Stars.HandlersPreserveConsistent | starr/modules/stars.py:80-147 | Every handler keeps the starboard consistent |
| Stars.AddTwice | starr/modules/stars.py:80-102 | A duplicated add event changes nothing more |
| Stars.DeleteTwice | starr/modules/stars.py:105-124 | A duplicated delete event changes nothing more |
| Stars.ClearTwice | starr/modules/stars.py:127-147 | A duplicated clearing event changes nothing more |
| Stars.GetReactionEventInfo | starr/modules/stars.py:45-77 | Returns the classification of the event against the bot's cache and table; a snapshot is of the event's own message and channel |
| Stars.OnReactionAdd | starr/modules/stars.py:80-102 | Starboard after = `ReactionAddStep` of the one before; guild and tag tables unchanged |
| Stars.OnReactionDelete | starr/modules/stars.py:105-124 | Starboard after = `ReactionDeleteStep` of the one before; guild and tag tables unchanged |
| Stars.HandleGuaranteedDelete | starr/modules/stars.py:127-147 | Starboard after = `ClearStep` of the one before; guild and tag tables unchanged |
| Admin.ConfigureStarboardRules | starr/modules/admin.py:59-100 | The channel is set iff given and the threshold iff non-zero; nothing else changes. The reply is "Nothing happened..." iff neither was given; with both, it is the channel line then the threshold line |
| Admin.ConfigureStarboard | starr/modules/admin.py:66-100 | An uncached guild raises before any write. Otherwise cache and row both become the configured guild, and the reply is the one above |
| Admin.ConfigurePrefix | starr/modules/admin.py:106-119 | The row's prefix is written first. An uncached guild then raises; otherwise the cached prefix, the stored prefix and `resolve_prefix` all equal the value |
| Admin.BanMentionsDaysIffNonzero | starr/modules/admin.py:194-198 | The success reply ends with "<days> days." exactly when the day count is non-zero |
| Admin.BannedReworded | starr/modules/admin.py:251 | Replacing "banned" in a success reply changes only its verb |
| Admin.ForbiddenUnchanged | starr/modules/admin.py:188-191 | The "Unable to ban" reply has no "banned" in it, so rewording leaves it as it is |
| Admin.SoftbanReworded | starr/modules/admin.py:237-251 | Softban replies "Successfully softbanned …" on success and the ban's own text when forbidden |
| Admin.HackbanReworded | starr/modules/admin.py:267-281 | Hackban replies "Successfully hackbanned …" on success, the ban's text when forbidden, and "Hackban failed - invalid user ID" for an unknown user |
| TagRules.Resolve | starr/modules/tags.py:92-98 | A resolved name is a tag of the guild. If it differs from the name, the name is an alias of it; an existing tag name resolves to itself |
| TagRules.ResolveValid | starr/modules/tags.py:92-98 | With valid tables, a name resolves iff it is a tag or an alias in that guild |
| TagRules.LookupCountsOneUse | starr/modules/tags.py:58-77 | A resolving name counts exactly one use of that tag and replies with its content; a miss changes nothing |
| TagRules.CreateRules | starr/modules/tags.py:246-286 | A reserved name is refused with nothing changed; an existing name or alias is refused: it counts one use of the tag it stands for, nothing else changes, and the reply names that tag's owner; otherwise exactly one tag is added, owned by the author, with no uses |
| TagRules.AliasRules | starr/modules/tags.py:154-206 | Nothing changes unless the alias is not reserved, the tag exists, the author owns it and the alias is free; then exactly one alias row is added |
| TagRules.DeleteRules | starr/modules/tags.py:435-474 | Owner or administrator: the tag and every alias of it go, other aliases stay. Anyone else changes nothing |
| TagRules.TransferRules | starr/modules/tags.py:391-427 | Only the owner can transfer, and it changes only the owner of the exactly named tag |
| TagRules.ClaimRules | starr/modules/tags.py:214-237 | A claim succeeds only when the owner is no longer a member, and it changes only the owner |
| TagRules.EditRules | starr/modules/tags.py:297-327 | The owner's edit replaces the content of the exactly named tag. Through an alias, or by a non-owner, nothing changes |
| TagRules.CommandsPreserveValid | starr/modules/tags.py:58-474 | Every command keeps aliases distinct from tag names and pointing at tags of their guild |
| TagRules.ReadsIgnoreCase | starr/modules/tags.py:64 | Lookup and info do the same for a name and its lower-case form |
| TagRules.AliasIgnoresCase | starr/modules/tags.py:161-162 | Alias does the same for names and their lower-case forms |
| TagRules.OwnerCommandsIgnoreCase | starr/modules/tags.py:220 | Claim, transfer and delete do the same for a name and its lower-case form |
| TagRules.CreateEditIgnoreCase | starr/modules/tags.py:253 | Create and edit do the same for a name and its lower-case form |
| TagRules.EmptyAliasTableHidesTags | starr/modules/tags.py:65-71 | As written, with no alias rows the use-counting update matches no tag, though the tag resolves |
| TagRules.EmptyAliasTableExample | starr/modules/tags.py:65-71 | A concrete guild whose only tag is unreachable as written and reachable as intended |
| TagRules.AliasBranchCrossesGuilds | starr/modules/tags.py:65-71 | As written, an alias of one guild counts a use of a tag of another guild |
| TagRules.RemoveTag | starr/modules/tags.py:443-444 | The tag is gone afterwards |
| Tags.CountUseOf | starr/modules/tags.py:65-73 | One use more for the tag the name resolves to, which it returns; nothing changes when it does not resolve |
| Tags.DeleteTagAndAliases | starr/modules/tags.py:443-444 | Tables after = `RemoveTag` of the tables before |
| Tags.TagGroup | starr/modules/tags.py:58-77 | Tables and reply = `Lookup` of the tables before |
| Tags.TagInfo | starr/modules/tags.py:85-114 | Reply = `InfoOf` the tables; nothing changes |
| Tags.TagAlias | starr/modules/tags.py:154-206 | Tables and reply = `AddAlias` of the tables before |
| Tags.TagClaim | starr/modules/tags.py:214-237 | Tables and reply = `Claim` of the tables before |
| Tags.TagCreate | starr/modules/tags.py:246-286 | Tables and reply = `Create` of the tables before |
| Tags.TagEdit | starr/modules/tags.py:297-382 | Tables and reply = `Edit` of the tables before |
| Tags.TagTransfer | starr/modules/tags.py:391-427 | Tables and reply = `Transfer` of the tables before |
| Tags.TagDelete | starr/modules/tags.py:435-474 | Tables and reply = `Delete` of the tables before |
| Pagination.CeilDiv | starr/utils.py:139 | The page count is the least number of pages of `per_page` that holds all fields |
| Pagination.ChunksFlatten | starr/utils.py:162-177 | Reading the pages in order gives back the fields exactly |
| Pagination.ChunksShape | starr/utils.py:166-177 | There is at least one page. Every page but the last has `per_page` fields and the last has fewer; the fields are the full pages plus the last |
| Pagination.NumPagesAndChunks | starr/utils.py:139-177 | The pages are `len // per_page` full ones plus a last one of `len % per_page`. That is `num_pages` pages, plus a trailing empty one exactly when `per_page` divides the length, including zero fields |
| Pagination.ChunksSnoc | starr/utils.py:165-175 | One more field either extends the last page, or fills it and opens a new empty one |
| Pagination.ButtonRowRules | starr/utils.py:185-218 | Buttons first, prev, stop, next, last with ids "{id_hash}-{key}". First and prev are disabled iff on page 0; next and last iff at or past the last page; stop never, and stop alone is danger-styled |
| Pagination.LegacyButtonRowRules | starr/models.py:120-135 | The older row has the same ids and never disables a button; only its stop emoji differs |
| Pagination.GenerateButtons | starr/utils.py:185-218 | The row built equals `ButtonRow` for the page |
| Pagination.NavigateRules | starr/utils.py:254-269 | Next moves forward only below the last page; prev moves back only off page 0; first goes to 0 and last to `num_pages-1`. With at least one page, no press leaves the range |
| Pagination.ListenStaysInRange | starr/models.py:170-185 | With at least one page, no sequence of presses takes the page outside `[0, num_pages-1]` |
| Pagination.StopEndsListening | starr/utils.py:254-255 | Nothing pressed after stop has an effect |
| Pagination.EnabledButtonsKeepPageValid | starr/utils.py:196-269 | Pressing only enabled buttons keeps the page an index of the pages built, even with no fields |
| Pagination.LegacyEmptyFieldsExample | starr/models.py:170-185 | The older paginator with no fields: last then prev moves the page to -2, which is no index of the one page built |
| Pagination.Paginator.Paginate | starr/utils.py:162-177 | Appends exactly `Chunks(fields, per_page)` to the built pages |
| Pagination.Paginator.Listen | starr/utils.py:242-271 | The page afterwards is `ListenFold` of the page before over the presses |
| DbNames.Attribute | starr/db.py:84-132 | A name is found on `Database` exactly when the class defines it |
| DbNames.ReadsFailAsWritten | starr/models.py:238 | Each read name the callers use (`fetch_one`, `fetch_row`, `fetch_rows`) is missing from `Database` |
| DbNames.Intended | starr/db.py:84-132 | Maps each read name the callers use to a defined method: `fetch_one` to `fetch`, `fetch_row` to `row`, `fetch_rows` to `rows`; a defined name to itself |
| DbNames.IntendedReadsResolve | starr/bot.py:86 | With the intended names every read resolves to one of `fetch`, `row`, `rows` |

## Left out

- The Discord gateway and REST transport, embed colours, timestamps, author names, avatars and jump links. A repost is its text and an embed of content, footer and image.
- SQL text and starr/db.py: tables are maps. The starboard table is keyed by `ReferenceID`, so the conflict target of `ON CONFLICT DO NOTHING` is assumed to be the reference. The schema is not part of this model. The defaults of the `guilds` table are assumed to be those of `StarrGuild.__init__` with prefix "./".
- `Database` in starr/db.py (db.py:84-132) defines `fetch`, `row`, `rows`, `column`, `execute`, `executemany` and `scriptexec`. The callers read through `fetch_one`, `fetch_row` and `fetch_rows`, which it does not define, so as written each such call raises AttributeError (see Findings). The model gives those reads the meaning of `fetch` (one value or none), `row` (one row or none) and `rows` (all rows, or none when there are none); a listing with no rows is modelled as empty.
- Interleaving of handlers at `await` points: each handler is one atomic step. Duplicate events are repeated steps (`AddTwice`, `DeleteTwice`, `ClearTwice`).
- `StarrGuild` is a value. The Python object a handler reads out of the cache is shared with the cache, and a setter changes both; the model writes the cache entry instead. No aliasing between objects is modelled.
- `configure_list_cmd` (admin.py:122-150), kick, and the ban and unban REST calls themselves; only the reply text is modelled. An unban that raises in softban gives no reply (`unbanned` false). The hackban `to_snowflake` conversion of a malformed id is not modelled.
- `tag list` (tags.py:118-151) is not modelled. It is the only user of `utils.Paginator`, and it answers "no tags" before paginating an empty list.
- The paginator's embeds, `respond`, the timeout and the interaction filter (same user, same message). The stream of presses is a sequence of custom ids. The id hash is an opaque string. `per_page` of zero, where `math.ceil` would raise, is excluded by a precondition. `math.ceil(len / per_page)` is modelled as exact integer arithmetic; float rounding is ignored.
- The tag-edit yes/no prompt is the input `choice` (yes, no, or timeout).
- Python's `str.lower` is modelled on ASCII letters only.
- `on_started`'s `my_id` lookup, `on_starting` and `on_stopped` (connection pool set-up), logging and configuration.
- The clearing handler (stars.py:127-147) deletes the record without checking whether the message lies in the star channel; the model does the same.
- A reaction removed from a message that has no record does nothing (stars.py:111-116), even when its count is still at or above the threshold; the model does the same.
- Failures other than a missing message: a REST call that raises Forbidden or any other HTTP error, and a storage error, abort the handler midway in the source. For example, a Forbidden from `delete_message` (models.py:294-299) leaves the record in place, and a storage error after `create_message` (models.py:339-375) leaves a repost with no record. The model has only the NotFound outcome. `Starboard.DeleteRemovesRecord`, `Starboard.UpdateShowsCount`, `Stars.AddRules`, `Stars.DeleteRules` and `Stars.ClearRules` promise their results only for runs in which every call succeeds or reports NotFound.
- `Tags.TagEdit`: the "yes, create it" branch inserts the tag without the reserved-name check that `tag create` makes (tags.py:330-382). Editing through an alias changes nothing but still replies "edited". Both are modelled as written.

## Findings

| source | as written | input that shows it | evidently intended | confidence | as-written member | corrected member |
|---|---|---|---|---|---|---|
| starr/modules/stars.py:58 | `guild.star_blacklist` is read, but `StarrGuild.__slots__` (models.py:194) has no such attribute, so every star on a guild with a star channel raises AttributeError and the starboard never posts | guild 1 with star channel 7 and threshold 1; a star reaction on message 3 in channel 2 | skip channels in the guild's blacklist (empty by default) and otherwise classify | high, not executed | Stars.AsWrittenNeverStars | Stars.ClassifyRules |
| starr/modules/tags.py:65-71 | `UPDATE tags … FROM tag_aliases a WHERE … OR (…)` joins every tag row with every alias row, and `AND` binds tighter than `OR`. With no alias rows nothing matches, so `tag <name>` and `tag create` never find an existing tag. The alias branch also ignores the guild | guild 1 has tag "hi" and no alias exists anywhere: `tag hi` replies "not a valid tag" | count one use of the tag the name or alias resolves to within the guild | high, not executed | TagRules.EmptyAliasTableHidesTags | TagRules.LookupCountsOneUse |
| starr/models.py:170-185 | the older paginator never disables its buttons, so with no fields (`num_pages` 0) "last" sets the page to -1 and "prev" then to -2, and `converted[-2]` of the one page built raises IndexError | no fields; press last, then prev | keep the page an index of the pages built, as utils.py's disabled buttons do | medium (this class has no caller), not executed | Pagination.LegacyEmptyFieldsExample | Pagination.EnabledButtonsKeepPageValid |
| starr/models.py:238 | `db.fetch_row`, `db.fetch_one` and `db.fetch_rows` are called (also models.py:243, 330, bot.py:86, admin.py:112 and the tag commands), but `Database` (db.py:84-132) defines only `fetch`, `row`, `rows`, `column`, `execute`, `executemany` and `scriptexec`, so each such call raises AttributeError | `on_started` calls `fetch_rows` on the first start | the single-value, single-row and all-rows reads `fetch`, `row` and `rows` | high, not executed | DbNames.ReadsFailAsWritten | DbNames.IntendedReadsResolve |
