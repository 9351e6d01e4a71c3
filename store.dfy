/**
 * The database client as the dashboard uses it: the backend tables held as
 * keyed maps, read and written one statement at a time. An `unavailable`
 * argument stands for a transport failure of the statement, which rejects
 * the query's promise and leaves the table as it was.
 */
module Store {
  import opened Schema

  class Database {
    var guildConfigs: GuildConfigTable
    var reactionRoles: ReactionRoleTable

    /** The primary-key constraints of both tables. */
    ghost predicate Valid()
      reads this
    {
      GuildConfigsKeyed(guildConfigs) && ReactionRolesKeyed(reactionRoles)
    }

    constructor (guildConfigs: GuildConfigTable, reactionRoles: ReactionRoleTable)
      requires GuildConfigsKeyed(guildConfigs) && ReactionRolesKeyed(reactionRoles)
      ensures Valid()
      ensures this.guildConfigs == guildConfigs && this.reactionRoles == reactionRoles
    {
      this.guildConfigs := guildConfigs;
      this.reactionRoles := reactionRoles;
    }

    /** Select the guild_config rows whose id is `id`. */
    method SelectGuildConfig(id: string) returns (rows: seq<GuildConfig>)
      ensures rows == Schema.SelectGuildConfig(guildConfigs, id)
      ensures Valid() ==> forall row :: row in rows ==> row == guildConfigs[id] && row.id == id
    {
      rows := if id in guildConfigs then [guildConfigs[id]] else [];
    }

    /** Insert a guild_config row; `ok` is false when the promise rejects (duplicate key or transport failure). */
    method InsertGuildConfig(ins: GuildConfigInsert, unavailable: bool) returns (ok: bool)
      requires Valid()
      modifies this`guildConfigs
      ensures Valid()
      ensures ok <==> !unavailable && ins.id !in old(guildConfigs)
      ensures guildConfigs == if unavailable then old(guildConfigs) else Schema.InsertGuildConfig(old(guildConfigs), ins).table
    {
      if unavailable {
        ok := false;
      } else {
        var insertion := Schema.InsertGuildConfig(guildConfigs, ins);
        guildConfigs := insertion.table;
        ok := insertion.outcome == Inserted;
      }
    }

    /** Overwrite the disabled_command column of the row whose id is `id`. */
    method UpdateDisabledCommands(id: string, v: seq<string>, unavailable: bool) returns (ok: bool)
      requires Valid()
      modifies this`guildConfigs
      ensures Valid()
      ensures ok <==> !unavailable
      ensures guildConfigs == if unavailable then old(guildConfigs) else SetDisabledCommands(old(guildConfigs), id, v)
    {
      ok := !unavailable;
      if ok {
        guildConfigs := SetDisabledCommands(guildConfigs, id, v);
      }
    }
  }
}
