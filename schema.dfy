/**
 * The `backend` schema: the guild_config and reaction_role tables, their
 * column types, nullability and defaults, and the row-level store contract
 * (insert, select and update keyed by the primary key).
 */
module Schema {
  import opened Wrappers

  /** A column without `.notNull()`: `None` is SQL NULL. */
  type Nullable<T> = Option<T>

  /** A row of backend.guild_config (GuildConfigSelect). */
  datatype GuildConfig = GuildConfig(
    id: string,                      // primary key: the guild id
    disabledCommands: seq<string>,   // not null, default []
    logsChannelId: Nullable<string>, // nullable, no default
    enabledLogs: seq<string>,        // not null, default ["moderation", "memberAdd"]
    reactionRoles: bool)             // not null, default false

  /**
   * The values handed to an insert (GuildConfigInsert): only `id` is
   * required; a column given as `None` takes its default.
   */
  datatype GuildConfigInsert = GuildConfigInsert(
    id: string,
    disabledCommands: Option<seq<string>>,
    logsChannelId: Nullable<string>,
    enabledLogs: Option<seq<string>>,
    reactionRoles: Option<bool>)

  /**
   * A row of backend.reaction_role (ReactionRoleSelect). `reactions` holds
   * JSON-encoded trigger records; the column is declared
   * `text().notNull().array()`, which makes the elements non-null but
   * leaves the array column itself nullable.
   */
  datatype ReactionRole = ReactionRole(
    id: string,                        // primary key
    guildId: string,
    uniqueId: string,
    message: string,                   // message payload, a JSON string
    reactions: Nullable<seq<string>>,
    messageId: Nullable<string>,       // set once bound to a posted message
    channelId: Nullable<string>,
    name: string)

  const DEFAULT_DISABLED_COMMANDS: seq<string> := []
  const DEFAULT_ENABLED_LOGS: seq<string> := ["moderation", "memberAdd"]
  const DEFAULT_REACTION_ROLES: bool := false

  /** The row the database stores for an insert: given values win, absent columns take their defaults. */
  function ApplyDefaults(ins: GuildConfigInsert): (r: GuildConfig)
    ensures r.id == ins.id && r.logsChannelId == ins.logsChannelId
    ensures r.disabledCommands == if ins.disabledCommands.Some? then ins.disabledCommands.value else []
    ensures r.enabledLogs == if ins.enabledLogs.Some? then ins.enabledLogs.value else ["moderation", "memberAdd"]
    ensures r.reactionRoles == (ins.reactionRoles.Some? && ins.reactionRoles.value)
  {
    GuildConfig(
      ins.id,
      ins.disabledCommands.GetOr(DEFAULT_DISABLED_COMMANDS),
      ins.logsChannelId,
      ins.enabledLogs.GetOr(DEFAULT_ENABLED_LOGS),
      ins.reactionRoles.GetOr(DEFAULT_REACTION_ROLES))
  }

  /** `.values({ id })`: an insert that names only the guild id. */
  function OnlyId(id: string): GuildConfigInsert {
    GuildConfigInsert(id, None, None, None, None)
  }

  /** The row created by inserting nothing but a guild id. */
  function NewGuildConfig(id: string): (r: GuildConfig)
    ensures r == GuildConfig(id, [], None, ["moderation", "memberAdd"], false)
  {
    ApplyDefaults(OnlyId(id))
  }

  // ---------------------------------------------------------------------
  // Tables keyed by their primary key

  type GuildConfigTable = map<string, GuildConfig>
  type ReactionRoleTable = map<string, ReactionRole>

  /** Every guild_config row is stored under its own id, so there is at most one row per guild. */
  ghost predicate GuildConfigsKeyed(t: GuildConfigTable) {
    forall id :: id in t ==> t[id].id == id
  }

  /** Every reaction_role row is stored under its own id. */
  ghost predicate ReactionRolesKeyed(t: ReactionRoleTable) {
    forall id :: id in t ==> t[id].id == id
  }

  datatype InsertOutcome = Inserted | DuplicateKey

  datatype Insertion<R> = Insertion(table: map<string, R>, outcome: InsertOutcome)

  /** INSERT of one row under primary key `key`; a key already present violates the constraint. */
  function InsertRow<R>(t: map<string, R>, key: string, row: R): (r: Insertion<R>)
    ensures r.outcome == DuplicateKey <==> key in t
    ensures r.outcome == DuplicateKey ==> r.table == t
    ensures r.table.Keys == t.Keys + {key}
    ensures r.table[key] == if key in t then t[key] else row
    ensures forall k :: k in t ==> r.table[k] == t[k]
  {
    if key in t then Insertion(t, DuplicateKey) else Insertion(t[key := row], Inserted)
  }

  /** `db.insert(guildConfig).values(ins)`. */
  function InsertGuildConfig(t: GuildConfigTable, ins: GuildConfigInsert): (r: Insertion<GuildConfig>)
    ensures GuildConfigsKeyed(t) ==> GuildConfigsKeyed(r.table)
    ensures r.outcome == Inserted <==> ins.id !in t
    ensures r.outcome == Inserted ==> r.table == t[ins.id := ApplyDefaults(ins)]
    ensures r.outcome == DuplicateKey ==> r.table == t
  {
    InsertRow(t, ins.id, ApplyDefaults(ins))
  }

  /** `db.insert(reactionRole).values(row)`: every column but the two message links is required. */
  function InsertReactionRole(t: ReactionRoleTable, row: ReactionRole): (r: Insertion<ReactionRole>)
    ensures ReactionRolesKeyed(t) ==> ReactionRolesKeyed(r.table)
    ensures r.outcome == Inserted <==> row.id !in t
    ensures r.outcome == Inserted ==> r.table == t[row.id := row]
    ensures r.outcome == DuplicateKey ==> r.table == t
  {
    InsertRow(t, row.id, row)
  }

  /** `SELECT * ... WHERE key = k`: the array of matching rows. */
  function SelectRows<R>(t: map<string, R>, key: string): (rows: seq<R>)
    ensures |rows| <= 1
    ensures rows == [] <==> key !in t
    ensures forall row :: row in rows ==> key in t && row == t[key]
  {
    if key in t then [t[key]] else []
  }

  /** `db.select().from(guildConfig).where(eq(guildConfig.id, id))`. */
  function SelectGuildConfig(t: GuildConfigTable, id: string): (rows: seq<GuildConfig>)
    ensures |rows| <= 1
    ensures rows == [] <==> id !in t
    ensures GuildConfigsKeyed(t) ==> forall row :: row in rows ==> row.id == id
  {
    SelectRows(t, id)
  }

  /** `db.update(guildConfig).set({ disabledCommands: v }).where(eq(guildConfig.id, id))`. */
  function SetDisabledCommands(t: GuildConfigTable, id: string, v: seq<string>): (r: GuildConfigTable)
    ensures r.Keys == t.Keys
    ensures forall k :: k in t && k != id ==> r[k] == t[k]
    ensures id in t ==> r[id] == t[id].(disabledCommands := v)
    ensures GuildConfigsKeyed(t) ==> GuildConfigsKeyed(r)
  {
    if id in t then t[id := t[id].(disabledCommands := v)] else t
  }

  /** Inserting a fresh id and selecting it reads back the defaulted row. */
  lemma InsertThenSelect(t: GuildConfigTable, ins: GuildConfigInsert)
    requires ins.id !in t
    ensures SelectGuildConfig(InsertGuildConfig(t, ins).table, ins.id) == [ApplyDefaults(ins)]
  {
  }

  /** Updating the disabled commands of a present row and selecting it reads back the new list. */
  lemma UpdateThenSelect(t: GuildConfigTable, id: string, v: seq<string>)
    requires GuildConfigsKeyed(t) && id in t
    ensures var rows := SelectGuildConfig(SetDisabledCommands(t, id, v), id);
      |rows| == 1 && rows[0].id == id && rows[0].disabledCommands == v
  {
  }
}
