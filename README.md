# Dashboard configuration core of the blimp bot, in Dafny

This project models two parts of the bot. The first is the backend
database schema (`src/db/schema.ts`): the `guild_config` and
`reaction_role` rows, their column types, nullability, defaults and
primary keys. The second is the dashboard API handlers
(`src/api/dash/index.ts`), which read and write those tables and
look guilds up in the gateway's guild cache.

Files:

- `wrappers.dfy`: `Option`, used for nullable values.
- `schema.dfy` (module `Schema`):
  - the rows as datatypes;
  - the insert type and the column defaults;
  - the tables as maps keyed by primary key;
  - pure insert, select and update functions, which act as the storage contract.
- `collections.dfy` (module `Collections`): `find`, `filter`, and the
  "push what you find" loop shape (`FilterMap`), each with its order lemmas.
- `store.dfy` (module `Store`): class `Database`. Its two fields are the
  tables. Its methods run one statement each, and each states the new table
  as a function of the old one.
- `dash.dfy` (module `Dash`):
  - the guild, role and channel lookups (`/guild/:id/channels`,
    `/guild/:id/role/:roleId`, `/guild/:id/roles`, `/guild/:id`);
  - the `/guilds/in` id filter, a loop with an invariant;
  - `/commands/:id`: the config read path and the category grouping, a loop
    building an insertion-ordered record;
  - `/update-commands/:id`: its lookup checks and its one-field update.

Responses are values of `Response<T>`. Each holds the HTTP status, `ok`,
`data` (absent, `null` or a value), `message` and `error`. A zod
validation failure becomes `Invalid(message)`. The guild cache and
the command registry are passed in as sequences. The library helper
`updateDisabledCommands` is passed in as a function too.

Points where the code's behaviour shapes the model:

- `/commands/:id` never inserts a missing config (see Findings).
  `Dash.Commands` models that, and `Dash.CommandsGetOrCreate` models the
  intended get-or-create.
- The schema does not tie `messageId` and `channelId` of a reaction role
  together, so they are independent `Nullable` fields.
- `disabledCommands` and `enabledLogs` are array columns, so they are
  sequences here and keep duplicates and order.
- The `reactions` column is declared `text().notNull().array()`. This
  makes its elements non-null but leaves the column itself nullable, so it
  is `Nullable<seq<string>>`.

## Model

| member | source | states |
|---|---|---|
| `Schema.ApplyDefaults` | src/db/schema.ts:13-26 | An inserted guild_config row carries the given id and the given value of every column. An omitted `disabledCommands` becomes `[]`, an omitted `enabledLogs` becomes `["moderation","memberAdd"]`, an omitted `reactionRoles` becomes false, and an omitted `logsChannelId` stays null |
| `Schema.NewGuildConfig` | src/db/schema.ts:14-25 | A row inserted with only an id is exactly `(id, [], null, ["moderation","memberAdd"], false)` |
| `Schema.InsertRow` | src/db/schema.ts:14 | An insert fails with a duplicate key exactly when the primary key is already present. Then the table is unchanged. Otherwise exactly the new key is added and every existing row is kept |
| `Schema.InsertGuildConfig` | src/db/schema.ts:13-26 | A guild_config insert keeps the table keyed by id, so there is at most one row per guild. It succeeds iff the id is new, and the stored row is the defaulted one |
| `Schema.InsertReactionRole` | src/db/schema.ts:31-40 | A reaction_role insert keeps the table keyed by its `id` primary key. It succeeds iff the id is new. Rows have non-null guildId, uniqueId, message and name by type, and nullable reactions, messageId and channelId |
| `Schema.SelectRows` | src/db/schema.ts:14 | Selecting by primary key yields at most one row. The result is empty iff the key is absent and otherwise holds that key's row |
| `Schema.SelectGuildConfig` | src/api/dash/index.ts:198-201 | The guild_config select yields at most one row, none iff the guild has no config, and every returned row has the requested id |
| `Schema.SetDisabledCommands` | src/api/dash/index.ts:297-302 | The update changes only `disabledCommands` of row `id`. The key set and every other row stay the same, and the table stays keyed |
| `Schema.InsertThenSelect` | src/db/schema.ts:13-26 | After inserting a new id, selecting it reads back the defaulted row |
| `Schema.UpdateThenSelect` | src/api/dash/index.ts:297-302 | After updating a present row, selecting it reads back one row with the new `disabledCommands` |
| `Store.Database.SelectGuildConfig` | src/api/dash/index.ts:213-216 | The client's select returns the rows the table holds for the id. On a keyed table, every returned row is the stored row for that id |
| `Store.Database.InsertGuildConfig` | src/api/dash/index.ts:204-211 | The insert succeeds iff the transport is up and the id is new. The table becomes the insert's result, or stays unchanged on failure, and stays keyed |
| `Store.Database.UpdateDisabledCommands` | src/api/dash/index.ts:297-326 | The update succeeds iff the transport is up. The table becomes the one-field update, or stays unchanged on failure |
| `Collections.Find` | src/api/dash/index.ts:24 | `find` yields nothing iff no element satisfies the predicate. Otherwise it yields an element of the sequence that satisfies it |
| `Collections.FindFirst` | src/api/dash/index.ts:24 | The element `find` yields is the first one satisfying the predicate: every earlier element fails it |
| `Collections.Filter` | src/api/dash/index.ts:162-164 | `filter` keeps exactly the elements satisfying the predicate, and is never longer than its input |
| `Collections.FilterCount` | src/api/dash/index.ts:162-164 | Each kept element appears as often as in the input, and every other element appears zero times |
| `Collections.FilterMapInOrder` | src/api/dash/index.ts:64-79 | In the push-what-you-find loop, the k-th result comes from the idx[k]-th input, and the indices strictly increase |
| `Collections.FilterMapComplete` | src/api/dash/index.ts:64-79 | Every input whose lookup succeeds contributes its result |
| `Dash.FindGuild` | src/api/dash/index.ts:24 | The guild lookup fails iff no cached guild has the id. Otherwise it returns a cached guild with that id |
| `Dash.GuildChannels` | src/api/dash/index.ts:23-46 | The status is always 200. `ok` holds iff the guild is cached. An unknown guild gives `ok:false, data:null`. Otherwise the data is that guild's channels |
| `Dash.GuildRole` | src/api/dash/index.ts:107-144 | The status is always 200. `ok` holds iff the guild is cached and has a role with that id. Every other case gives `ok:false, data:null`. On success the role is the guild's and has the requested id |
| `Dash.AssignableRoles` | src/api/dash/index.ts:162-164 | A role is kept iff it is one of the guild's roles, not managed, and its id differs from the guild id. Kept roles are kept with their multiplicity |
| `Dash.GuildRoles` | src/api/dash/index.ts:145-170 | The status is always 200. An unknown guild gives `ok:false, data:null`. Otherwise the data holds exactly the guild's non-managed roles whose id is not the guild id |
| `Dash.GuildInfo` | src/api/dash/index.ts:171-194 | The status is always 200. An unknown guild gives `ok:false, data:null`. Otherwise the data is a cached guild with that id |
| `Dash.FoundGuilds` | src/api/dash/index.ts:64-79 | The found guilds are never more than the requested ids |
| `Dash.FoundGuildsInRequestOrder` | src/api/dash/index.ts:64-79 | The k-th found guild is the cached guild of the idx[k]-th requested id. That id is non-empty, and the indices strictly increase (request order) |
| `Dash.FoundGuildsSound` | src/api/dash/index.ts:64-79 | Every found guild is cached, and its id is a requested non-empty id |
| `Dash.FoundGuildsComplete` | src/api/dash/index.ts:64-79 | Every non-empty requested id of a cached guild yields that guild in the result |
| `Dash.GuildsIn` | src/api/dash/index.ts:47-106 | A parse failure gives 400 "Failed to check servers." with the error text. An empty id list gives 400 `ok:false`, data `[]`, "No valid guild IDs provided". Otherwise the response is 200 `ok:true` with the found guilds |
| `Dash.Lower` | src/api/dash/index.ts:231 | Lower-casing keeps the length and leaves no upper-case ASCII letter. Letters A-Z become a-z, and every other character is unchanged |
| `Dash.Grouped` | src/api/dash/index.ts:229-245 | The grouping record's keys have no repeats, and each key has exactly one list |
| `Dash.GroupedKeys` | src/api/dash/index.ts:240-244 | The record has a key for exactly the categories occurring in the command list |
| `Dash.GroupedLists` | src/api/dash/index.ts:229-245 | Each category's list is exactly the listed commands of that category, in command-list order |
| `Dash.GroupedOrder` | src/api/dash/index.ts:240-244 | Keys are only appended: the keys of the first m commands are a prefix of the final keys, so keys come in first-appearance order |
| `Dash.ListedOnce` | src/api/dash/index.ts:229-245 | Each command is listed under its own category, as often as it occurs in the registry, and under no other category |
| `Dash.ListedEntries` | src/api/dash/index.ts:230-239 | Every listed entry has `run` null and sits under its own category. It is `disabled` iff its lower-cased name is in the guild's `disabledCommands`, and it comes from a registry command |
| `Dash.GroupCommands` | src/api/dash/index.ts:229-245 | The `forEach` pass with push-or-create builds exactly the grouping record |
| `Dash.Commands` | src/api/dash/index.ts:195-254 | As written, with no config row the response is 500 `ok:false, data:null`, and nothing is written. With a row it is 200 `ok:true` with the grouping for that row's `disabledCommands` |
| `Dash.GetOrCreate` | src/api/dash/index.ts:203-216 | Intended get-or-create. An existing row leaves the table unchanged. A missing row is added with the defaults unless the insert fails, and a failed insert leaves the table unchanged. The table stays keyed |
| `Dash.GetOrCreateIdempotent` | src/api/dash/index.ts:203-216 | Once get-or-create has produced the row, repeating it changes nothing |
| `Dash.CommandsGetOrCreate` | src/api/dash/index.ts:195-254 | Intended `/commands`. The table becomes the get-or-create result. An existing row gives its grouping. A created row gives the all-enabled grouping. A swallowed failed insert gives 500 |
| `Dash.UpdateCommandsOutcome` | src/api/dash/index.ts:255-339 | An unknown guild gives 200 "Guild not found.", and a missing config gives 200 "Guild config not found.". `ok` holds iff the guild is cached, the config exists, the body parses and the write succeeds. Any failure leaves the table unchanged, and only lookup misses and success have status 200. Success changes only `disabledCommands` of row `id`, to `updateDisabledCommands(current, enabled, disabled)` |
| `Dash.UpdateCommands` | src/api/dash/index.ts:255-339 | The handler, run through the database client, yields exactly that response and that table, and keeps the table keyed |

## Left out

- HTTP and Elysia plumbing: `Response` objects, headers and JSON serialisation are reduced to the `Response` datatype. Zod parsing is reduced to `Parsed`/`Invalid(message)`, and the message is opaque.
- The discord.js client and its caches are a read-only `seq<Guild>`. Only the fields the handlers read are kept: guild id, name, channels and roles; role id, name and `managed`; channel id and name.
- Logging (`info`, `err`, `console.*`) is left out: it only has side effects.
- `updateDisabledCommands` from `@/utils/misc` is not part of this model. It is a function parameter, and its possible exceptions are not modelled.
- The `infraction` table (src/db/schema.ts:45-70) is left out: no shown handler uses it.
- Database failures: only a failed INSERT or UPDATE is modelled, as the `unavailable` flag. A failed SELECT (src/api/dash/index.ts:198-201, 213-216, 274-277), which no handler catches, is not modelled, and `Store.Database.SelectGuildConfig` always succeeds.
- Concurrency: each request is modelled on its own. The handlers are `async`, and concurrent requests interleaving at their `await`s (for example two get-or-create requests for the same id, between the select and the insert) are not modelled.
- The `typeof id !== "string"` and `!Array.isArray(data.ids)` tests in `/guilds/in` cannot fire after the zod parse into `string[]`. They are not modelled separately, and ids are strings.
- The `reactions` entries stay JSON-encoded strings. They are not decoded into `{roleId, emoji, label, style}` records, because no shown code decodes them.
- A command keeps only `name`, `category`, `description` and `run`; the other spread fields are not modelled. A command without a category is not modelled.
- `Dash.Lower`: models `toLowerCase` on ASCII letters only. Full Unicode case mapping is out of scope.
- `Dash.GroupedOrder`: states insertion order of keys. In JavaScript, `Object.keys` puts integer-like keys first, in numeric order, and this is not modelled.
- `Dash.AssignableRoles`: states which roles are kept and how often. Their order is the cache's order because the member is defined as `Filter`; no separate clause states the order.
- `Store.Database.InsertGuildConfig`: its result is visible only to the get-or-create variant. The as-written handler cannot reach the insert (see Findings).

## Findings

| source | as written | input that shows it | evidently intended | confidence | as-written member | corrected member |
|---|---|---|---|---|---|---|
| src/api/dash/index.ts:203 | `if (!guildConf)` tests the array the select returns. An array is always truthy, so the insert on lines 204-211 never runs | GET `/commands/g1` with no guild_config row for `g1`: the response is 500 `ok:false, data:null` and no row is created | insert the defaulted row when the select returned no row (`guildConf.length === 0`), then re-read it, so a known guild gets a 200 listing with every command enabled | not executed; high (JavaScript arrays are always truthy) | `Dash.Commands` | `Dash.CommandsGetOrCreate` |
