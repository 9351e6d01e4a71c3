/**
 * The dashboard API (`/dash`): guild lookups over the gateway's guild cache,
 * the `/guilds/in` filter, the `/commands/:id` read path and category
 * grouping, and the `/update-commands/:id` single-field update. The guild
 * cache and the command registry are passed in as read-only sequences; the
 * request body arrives already parsed or as a parse error.
 */
module Dash {
  import opened Wrappers
  import opened Schema
  import opened Collections
  import opened Store

  // ---------------------------------------------------------------------
  // Gateway data (read-only)

  datatype Role = Role(id: string, name: string, managed: bool)
  datatype Channel = Channel(id: string, name: string)
  datatype Guild = Guild(id: string, name: string, channels: seq<Channel>, roles: seq<Role>)

  /** Stands for a command's `run` function. */
  datatype Runner = Runner(entry: nat)

  /** A command descriptor from the command registry. */
  datatype Command = Command(name: string, category: string, description: string, run: Runner)

  /** An ECommand: a command as the dashboard lists it, with `run` nulled and the `disabled` flag. */
  datatype DashCommand = DashCommand(
    name: string, category: string, description: string, run: Option<Runner>, disabled: bool)

  // ---------------------------------------------------------------------
  // Responses

  /** A JSON property that is left out, `null`, or holds a value. */
  datatype Field<T> = Absent | Null | Present(value: T)

  /** The HTTP status with the JSON body `{ ok, data?, message?, error? }`. */
  datatype Response<T> = Response(status: nat, ok: bool, data: Field<T>, message: Option<string>, error: Option<string>)

  /** The answer of every guild or role lookup that finds nothing: a 200 with `ok: false, data: null`. */
  function NotFound<T>(): Response<T> {
    Response(200, false, Null, None, None)
  }

  function Found<T>(data: T): Response<T> {
    Response(200, true, Present(data), None, None)
  }

  /** A request body after schema validation. */
  datatype Parsed<T> = Parsed(value: T) | Invalid(message: string)

  // ---------------------------------------------------------------------
  // Guild lookups

  ghost predicate InCache(cache: seq<Guild>, id: string) {
    exists g :: g in cache && g.id == id
  }

  /** `app.guilds.cache.find(f => f.id === id)`. */
  function FindGuild(cache: seq<Guild>, id: string): (r: Option<Guild>)
    ensures r.None? <==> !InCache(cache, id)
    ensures r.Some? ==> r.value in cache && r.value.id == id
  {
    Find(cache, (g: Guild) => g.id == id)
  }

  /** GET /guild/:id/channels. */
  function GuildChannels(cache: seq<Guild>, id: string): (r: Response<seq<Channel>>)
    ensures r.status == 200
    ensures r.ok <==> InCache(cache, id)
    ensures !r.ok ==> r == NotFound()
    ensures r.ok ==> exists g :: g in cache && g.id == id && r.data == Present(g.channels)
  {
    match FindGuild(cache, id)
    case None => NotFound()
    case Some(guild) => Found(guild.channels)
  }

  /** GET /guild/:id/role/:roleId. */
  function GuildRole(cache: seq<Guild>, id: string, roleId: string): (r: Response<Role>)
    ensures r.status == 200
    ensures !InCache(cache, id) ==> r == NotFound()
    ensures r.ok <==> InCache(cache, id) && exists x :: x in FindGuild(cache, id).value.roles && x.id == roleId
    ensures !r.ok ==> r == NotFound()
    ensures r.ok ==> r.data.Present? && r.data.value in FindGuild(cache, id).value.roles && r.data.value.id == roleId
  {
    match FindGuild(cache, id)
    case None => NotFound()
    case Some(guild) =>
      match Find(guild.roles, (x: Role) => x.id == roleId)
      case None => NotFound()
      case Some(role) => Found(role)
  }

  /** The roles a dashboard may offer: not managed by an integration, and not the @everyone role (whose id is the guild's). */
  function AssignableRoles(guild: Guild): (r: seq<Role>)
    ensures forall x :: x in r <==> x in guild.roles && !x.managed && x.id != guild.id
    ensures forall x :: multiset(r)[x] == if !x.managed && x.id != guild.id then multiset(guild.roles)[x] else 0
  {
    var assignable := (x: Role) => !x.managed && x.id != guild.id;
    FilterCount(guild.roles, assignable);
    Filter(guild.roles, assignable)
  }

  /** GET /guild/:id/roles. */
  function GuildRoles(cache: seq<Guild>, id: string): (r: Response<seq<Role>>)
    ensures r.status == 200
    ensures r.ok <==> InCache(cache, id)
    ensures !r.ok ==> r == NotFound()
    ensures r.ok ==> r.data.Present? && forall x :: x in r.data.value <==>
      x in FindGuild(cache, id).value.roles && !x.managed && x.id != id
  {
    match FindGuild(cache, id)
    case None => NotFound()
    case Some(guild) => Found(AssignableRoles(guild))
  }

  /** GET /guild/:id. */
  function GuildInfo(cache: seq<Guild>, id: string): (r: Response<Guild>)
    ensures r.status == 200
    ensures r.ok <==> InCache(cache, id)
    ensures !r.ok ==> r == NotFound()
    ensures r.ok ==> r.data.Present? && r.data.value in cache && r.data.value.id == id
  {
    match FindGuild(cache, id)
    case None => NotFound()
    case Some(guild) => Found(guild)
  }

  // ---------------------------------------------------------------------
  // POST /guilds/in

  /** What one requested id contributes: the cached guild, unless the id is empty or unknown. */
  function LookupIn(cache: seq<Guild>): string -> Option<Guild> {
    (id: string) => if id == "" then None else FindGuild(cache, id)
  }

  /** The guilds found for the requested ids. */
  function FoundGuilds(cache: seq<Guild>, ids: seq<string>): (r: seq<Guild>)
    ensures |r| <= |ids|
  {
    FilterMap(ids, LookupIn(cache))
  }

  /**
   * The result lists guilds in request order: the k-th guild is the cached
   * guild of the idx[k]-th requested id, that id is not empty, and the
   * indices strictly increase.
   */
  lemma FoundGuildsInRequestOrder(cache: seq<Guild>, ids: seq<string>) returns (idx: seq<nat>)
    ensures |idx| == |FoundGuilds(cache, ids)|
    ensures forall k :: 0 <= k < |idx| ==>
      idx[k] < |ids| && ids[idx[k]] != "" && FindGuild(cache, ids[idx[k]]) == Some(FoundGuilds(cache, ids)[k])
    ensures forall k, l :: 0 <= k < l < |idx| ==> idx[k] < idx[l]
  {
    idx := FilterMapInOrder(ids, LookupIn(cache));
  }

  /** Every guild in the result is a cached guild whose id was requested. */
  lemma FoundGuildsSound(cache: seq<Guild>, ids: seq<string>)
    ensures forall g :: g in FoundGuilds(cache, ids) ==> g in cache && g.id in ids && g.id != ""
  {
    var idx := FoundGuildsInRequestOrder(cache, ids);
    var r := FoundGuilds(cache, ids);
    forall g | g in r ensures g in cache && g.id in ids && g.id != "" {
      var k :| 0 <= k < |r| && r[k] == g;
      assert ids[idx[k]] in ids;
    }
  }

  /** Every non-empty requested id that names a cached guild contributes that guild. */
  lemma FoundGuildsComplete(cache: seq<Guild>, ids: seq<string>, i: nat)
    requires i < |ids| && ids[i] != "" && InCache(cache, ids[i])
    ensures FindGuild(cache, ids[i]).value in FoundGuilds(cache, ids)
  {
    FilterMapComplete(ids, LookupIn(cache), i);
  }

  /** POST /guilds/in with body `{ ids: string[] }`. */
  method GuildsIn(cache: seq<Guild>, body: Parsed<seq<string>>) returns (resp: Response<seq<Guild>>)
    ensures body.Invalid? ==>
      resp == Response(400, false, Absent, Some("Failed to check servers."), Some(body.message))
    ensures body.Parsed? && body.value == [] ==>
      resp == Response(400, false, Present([]), Some("No valid guild IDs provided"), None)
    ensures body.Parsed? && body.value != [] ==>
      resp == Response(200, true, Present(FoundGuilds(cache, body.value)), None, None)
  {
    if body.Invalid? {
      return Response(400, false, Absent, Some("Failed to check servers."), Some(body.message));
    }
    var ids := body.value;
    if |ids| == 0 {
      return Response(400, false, Present([]), Some("No valid guild IDs provided"), None);
    }
    var r: seq<Guild> := [];
    for i := 0 to |ids|
      invariant r == FoundGuilds(cache, ids[..i])
    {
      var id := ids[i];
      FilterMapAppend(ids[..i], [id], LookupIn(cache));
      assert ids[..i + 1] == ids[..i] + [id];
      assert FilterMap([id], LookupIn(cache)) == ToSeq(LookupIn(cache)(id));
      if id == "" {
        continue;
      }
      var guild := FindGuild(cache, id);
      if guild.Some? {
        r := r + [guild.value];
      }
    }
    assert ids[..|ids|] == ids;
    resp := Response(200, true, Present(r), None, None);
  }

  // ---------------------------------------------------------------------
  // GET /commands/:id: category grouping

  /** ASCII `toLowerCase` of one character. */
  function LowerChar(c: char): char {
    if 'A' <= c <= 'Z' then (c as int + 32) as char else c
  }

  /** `toLowerCase()`, on ASCII letters. */
  function Lower(s: string): (r: string)
    ensures |r| == |s|
    ensures forall i :: 0 <= i < |s| ==> !('A' <= r[i] <= 'Z')
    ensures forall i :: 0 <= i < |s| && !('A' <= s[i] <= 'Z') ==> r[i] == s[i]
    ensures forall i :: 0 <= i < |s| && 'A' <= s[i] <= 'Z' ==> r[i] as int == s[i] as int + 32
  {
    seq(|s|, i requires 0 <= i < |s| => LowerChar(s[i]))
  }

  /** A command as listed for a guild whose config disables `disabled`. */
  function Mark(cmd: Command, disabled: seq<string>): DashCommand {
    DashCommand(cmd.name, cmd.category, cmd.description, None, Lower(cmd.name) in disabled)
  }

  function Marked(cmds: seq<Command>, disabled: seq<string>): (r: seq<DashCommand>)
    ensures |r| == |cmds| && forall i :: 0 <= i < |cmds| ==> r[i] == Mark(cmds[i], disabled)
  {
    seq(|cmds|, i requires 0 <= i < |cmds| => Mark(cmds[i], disabled))
  }

  lemma MarkedSnoc(cmds: seq<Command>, disabled: seq<string>)
    requires cmds != []
    ensures Marked(cmds, disabled) == Marked(cmds[..|cmds| - 1], disabled) + [Mark(cmds[|cmds| - 1], disabled)]
  {
  }

  /** The `commandArray` record: category names in insertion order, and each category's list. */
  datatype Groups = Groups(order: seq<string>, lists: map<string, seq<DashCommand>>)

  /** The key list has no repeats and names exactly the categories that have a list. */
  ghost predicate WellFormed(g: Groups) {
    && (forall i, j :: 0 <= i < j < |g.order| ==> g.order[i] != g.order[j])
    && (forall c :: c in g.lists <==> c in g.order)
  }

  /** Append `e` to its category's list, creating the list on first sight of the category. */
  function Add(g: Groups, e: DashCommand): (r: Groups)
    requires WellFormed(g)
    ensures WellFormed(r)
  {
    if e.category in g.order then Groups(g.order, g.lists[e.category := g.lists[e.category] + [e]])
    else Groups(g.order + [e.category], g.lists[e.category := [e]])
  }

  function Categories(cmds: seq<Command>): set<string> {
    set cmd | cmd in cmds :: cmd.category
  }

  /** The record one `forEach` pass over `cmds` builds. */
  function Grouped(cmds: seq<Command>, disabled: seq<string>): (r: Groups)
    ensures WellFormed(r)
  {
    if cmds == [] then Groups([], map[])
    else Add(Grouped(cmds[..|cmds| - 1], disabled), Mark(cmds[|cmds| - 1], disabled))
  }

  /** The record has a key for exactly the categories that occur in the command list. */
  lemma {:induction false} GroupedKeys(cmds: seq<Command>, disabled: seq<string>)
    ensures Grouped(cmds, disabled).lists.Keys == Categories(cmds)
  {
    if cmds != [] {
      var prefix := cmds[..|cmds| - 1];
      assert cmds == prefix + [cmds[|cmds| - 1]];
      GroupedKeys(prefix, disabled);
    }
  }

  function InCategory(c: string): DashCommand -> bool {
    (e: DashCommand) => e.category == c
  }

  /** No element passes a filter that no element satisfies. */
  lemma FilterNone<T(!new)>(s: seq<T>, p: T -> bool)
    requires forall x :: x in s ==> !p(x)
    ensures Filter(s, p) == []
  {
  }

  /** Each category's list is exactly the listed commands of that category, in command-list order. */
  lemma {:induction false} GroupedLists(cmds: seq<Command>, disabled: seq<string>)
    ensures forall c :: c in Grouped(cmds, disabled).lists ==>
      Grouped(cmds, disabled).lists[c] == Filter(Marked(cmds, disabled), InCategory(c))
  {
    if cmds != [] {
      var prefix := cmds[..|cmds| - 1];
      GroupedLists(prefix, disabled);
      forall c | c in Grouped(cmds, disabled).lists
        ensures Grouped(cmds, disabled).lists[c] == Filter(Marked(cmds, disabled), InCategory(c))
      {
        GroupedListsStep(cmds, disabled, c);
      }
    }
  }

  /** One step of GroupedLists: appending the last command to its category. */
  lemma GroupedListsStep(cmds: seq<Command>, disabled: seq<string>, c: string)
    requires cmds != []
    requires var prefix := cmds[..|cmds| - 1]; c in Grouped(prefix, disabled).lists ==>
      Grouped(prefix, disabled).lists[c] == Filter(Marked(prefix, disabled), InCategory(c))
    requires c in Grouped(cmds, disabled).lists
    ensures Grouped(cmds, disabled).lists[c] == Filter(Marked(cmds, disabled), InCategory(c))
  {
    var prefix, last := cmds[..|cmds| - 1], cmds[|cmds| - 1];
    var g := Grouped(prefix, disabled);
    var mp := Marked(prefix, disabled);
    var e := Mark(last, disabled);
    assert Grouped(cmds, disabled) == Add(g, e);
    MarkedSnoc(cmds, disabled);
    FilterAppend(mp, [e], InCategory(c));
    assert Filter([e], InCategory(c)) == Keep(e, InCategory(c));
    if c !in g.lists {
      GroupedKeys(prefix, disabled);
      NewCategoryHasNoMembers(prefix, disabled, c);
    }
  }

  /** A category the first commands do not have contributes nothing among them. */
  lemma NewCategoryHasNoMembers(cmds: seq<Command>, disabled: seq<string>, c: string)
    requires c !in Categories(cmds)
    ensures Filter(Marked(cmds, disabled), InCategory(c)) == []
  {
    var mk := Marked(cmds, disabled);
    forall x | x in mk ensures !InCategory(c)(x) {
      var i :| 0 <= i < |cmds| && mk[i] == x;
      assert cmds[i] in cmds;
    }
    FilterNone(mk, InCategory(c));
  }

  /**
   * Keys are only ever appended: the key list built from the first m
   * commands is a prefix of the final key list. With the key set of every
   * prefix being its set of categories, the keys come in order of first
   * appearance.
   */
  lemma {:induction false} GroupedOrder(cmds: seq<Command>, disabled: seq<string>, m: nat)
    requires m <= |cmds|
    ensures Grouped(cmds[..m], disabled).order <= Grouped(cmds, disabled).order
  {
    if m == |cmds| {
      assert cmds[..m] == cmds;
    } else {
      var prefix := cmds[..|cmds| - 1];
      assert cmds[..m] == prefix[..m];
      GroupedOrder(prefix, disabled, m);
      var g := Grouped(prefix, disabled);
      assert Grouped(cmds, disabled) == Add(g, Mark(cmds[|cmds| - 1], disabled));
      assert g.order <= Grouped(cmds, disabled).order;
    }
  }

  /**
   * Every command is listed exactly once: under its own category, as many
   * times as it occurs in the command list, and under no other category.
   */
  lemma ListedOnce(cmds: seq<Command>, disabled: seq<string>, k: nat)
    requires k < |cmds|
    ensures var g := Grouped(cmds, disabled); var e := Mark(cmds[k], disabled);
      && cmds[k].category in g.lists
      && multiset(g.lists[cmds[k].category])[e] == multiset(Marked(cmds, disabled))[e]
      && forall c :: c in g.lists && c != cmds[k].category ==> e !in g.lists[c]
  {
    var g := Grouped(cmds, disabled);
    var e := Mark(cmds[k], disabled);
    var mk := Marked(cmds, disabled);
    assert cmds[k] in cmds;
    GroupedKeys(cmds, disabled);
    assert cmds[k].category in g.lists;
    GroupedLists(cmds, disabled);
    FilterCount(mk, InCategory(cmds[k].category));
    assert InCategory(cmds[k].category)(e);
    forall c | c in g.lists && c != cmds[k].category ensures e !in g.lists[c] {
      assert !InCategory(c)(e);
    }
  }

  /** Every listed command has `run: null`, sits under its category, and is disabled iff its lower-cased name is disabled. */
  lemma ListedEntries(cmds: seq<Command>, disabled: seq<string>)
    ensures var g := Grouped(cmds, disabled);
      forall c, e :: c in g.lists && e in g.lists[c] ==>
        && e.category == c && e.run == None
        && (e.disabled <==> Lower(e.name) in disabled)
        && exists k :: 0 <= k < |cmds| && e == Mark(cmds[k], disabled)
  {
    GroupedLists(cmds, disabled);
  }

  /** The `app.commands.forEach` pass of GET /commands/:id. */
  method GroupCommands(cmds: seq<Command>, disabledCommands: seq<string>) returns (g: Groups)
    ensures g == Grouped(cmds, disabledCommands)
  {
    var order: seq<string> := [];
    var lists: map<string, seq<DashCommand>> := map[];
    for i := 0 to |cmds|
      invariant Groups(order, lists) == Grouped(cmds[..i], disabledCommands)
    {
      var cmd := cmds[i];
      assert cmds[..i + 1] == cmds[..i] + [cmd];
      assert cmds[..i + 1][..i] == cmds[..i];
      var d := false;
      if Lower(cmd.name) in disabledCommands {
        d := true;
      }
      var c := DashCommand(cmd.name, cmd.category, cmd.description, None, d);
      if cmd.category in order {
        lists := lists[cmd.category := lists[cmd.category] + [c]];
      } else {
        order := order + [cmd.category];
        lists := lists[cmd.category := [c]];
      }
    }
    assert cmds[..|cmds|] == cmds;
    g := Groups(order, lists);
  }

  // ---------------------------------------------------------------------
  // GET /commands/:id: the config read path

  /**
   * GET /commands/:id as written. The guard before the insert tests the
   * select's result array, which is never falsy, so the insert is never
   * attempted and nothing is written: a guild without a config row gets a
   * 500.
   */
  method Commands(db: Database, commands: seq<Command>, id: string) returns (resp: Response<Groups>)
    ensures id !in db.guildConfigs ==> resp == Response(500, false, Null, None, None)
    ensures id in db.guildConfigs ==>
      resp == Found(Grouped(commands, db.guildConfigs[id].disabledCommands))
  {
    var guildConf := db.SelectGuildConfig(id);
    // `!guildConf` is false for every array, so the insert branch is skipped.
    guildConf := db.SelectGuildConfig(id);
    if guildConf == [] {
      return Response(500, false, Null, None, None);
    }
    var commandArray := GroupCommands(commands, guildConf[0].disabledCommands);
    resp := Found(commandArray);
  }

  /** The table after get-or-create: an insert of the bare id when no row was selected; a failed insert is ignored. */
  function GetOrCreate(t: GuildConfigTable, id: string, unavailable: bool): (r: GuildConfigTable)
    ensures GuildConfigsKeyed(t) ==> GuildConfigsKeyed(r)
    ensures id in r <==> id in t || !unavailable
    ensures id in t ==> r == t
    ensures id !in t && unavailable ==> r == t
    ensures id !in t && !unavailable ==> r == t[id := NewGuildConfig(id)]
  {
    if SelectGuildConfig(t, id) == [] && !unavailable then InsertGuildConfig(t, OnlyId(id)).table else t
  }

  /** Get-or-create converges: once the row exists, a second call changes nothing. */
  lemma GetOrCreateIdempotent(t: GuildConfigTable, id: string, first: bool, second: bool)
    requires id in GetOrCreate(t, id, first)
    ensures GetOrCreate(GetOrCreate(t, id, first), id, second) == GetOrCreate(t, id, first)
  {
  }

  /**
   * GET /commands/:id with the guard the handler evidently intends (insert
   * when the select returned no row). `unavailable` makes the insert fail;
   * the failure is swallowed and the handler re-reads.
   */
  method CommandsGetOrCreate(db: Database, commands: seq<Command>, id: string, unavailable: bool)
    returns (resp: Response<Groups>)
    requires db.Valid()
    modifies db`guildConfigs
    ensures db.Valid()
    ensures db.guildConfigs == GetOrCreate(old(db.guildConfigs), id, unavailable)
    ensures id in old(db.guildConfigs) ==>
      resp == Found(Grouped(commands, old(db.guildConfigs)[id].disabledCommands))
    ensures id !in old(db.guildConfigs) && !unavailable ==> resp == Found(Grouped(commands, []))
    ensures id !in old(db.guildConfigs) && unavailable ==> resp == Response(500, false, Null, None, None)
  {
    var guildConf := db.SelectGuildConfig(id);
    if guildConf == [] {
      var created := db.InsertGuildConfig(OnlyId(id), unavailable);
    }
    guildConf := db.SelectGuildConfig(id);
    if guildConf == [] {
      return Response(500, false, Null, None, None);
    }
    var commandArray := GroupCommands(commands, guildConf[0].disabledCommands);
    resp := Found(commandArray);
  }

  // ---------------------------------------------------------------------
  // POST /update-commands/:id

  /** Body `{ disabled: string[], enabled: string[] }`. */
  datatype CommandsPatch = CommandsPatch(disabled: seq<string>, enabled: seq<string>)

  /** `updateDisabledCommands(current, enabled, disabled)`, supplied by the caller. */
  type DisabledCommandsUpdate = (seq<string>, seq<string>, seq<string>) -> seq<string>

  datatype Outcome = Outcome(response: Response<()>, table: GuildConfigTable)

  /** The response of POST /update-commands/:id and the table after it. */
  function UpdateCommandsOutcome(
    t: GuildConfigTable, cache: seq<Guild>, id: string, body: Parsed<CommandsPatch>,
    updateDisabledCommands: DisabledCommandsUpdate, unavailable: bool): (r: Outcome)
    ensures !InCache(cache, id) ==> r.response == Response(200, false, Absent, Some("Guild not found."), None)
    ensures InCache(cache, id) && id !in t ==>
      r.response == Response(200, false, Absent, Some("Guild config not found."), None)
    ensures r.response.ok <==> InCache(cache, id) && id in t && body.Parsed? && !unavailable
    ensures r.response.status == 200 <==> r.response.ok || !InCache(cache, id) || id !in t
    ensures !r.response.ok ==> r.table == t
    ensures r.response.ok ==>
      && r.table.Keys == t.Keys
      && (forall k :: k in t && k != id ==> r.table[k] == t[k])
      && r.table[id] == t[id].(disabledCommands :=
           updateDisabledCommands(t[id].disabledCommands, body.value.enabled, body.value.disabled))
    ensures GuildConfigsKeyed(t) ==> GuildConfigsKeyed(r.table)
  {
    if FindGuild(cache, id).None? then
      Outcome(Response(200, false, Absent, Some("Guild not found."), None), t)
    else if SelectGuildConfig(t, id) == [] then
      Outcome(Response(200, false, Absent, Some("Guild config not found."), None), t)
    else if body.Invalid? then
      Outcome(Response(500, false, Absent, Some(body.message), None), t)
    else if unavailable then
      Outcome(Response(500, false, Absent, Some("Failed to update commands."), None), t)
    else
      var updated := updateDisabledCommands(t[id].disabledCommands, body.value.enabled, body.value.disabled);
      Outcome(Response(200, true, Absent, Some("Commands updated"), None), SetDisabledCommands(t, id, updated))
  }

  /** POST /update-commands/:id. `unavailable` makes the UPDATE fail. */
  method UpdateCommands(
    db: Database, cache: seq<Guild>, id: string, body: Parsed<CommandsPatch>,
    updateDisabledCommands: DisabledCommandsUpdate, unavailable: bool) returns (resp: Response<()>)
    requires db.Valid()
    modifies db`guildConfigs
    ensures db.Valid()
    ensures Outcome(resp, db.guildConfigs) ==
      UpdateCommandsOutcome(old(db.guildConfigs), cache, id, body, updateDisabledCommands, unavailable)
  {
    var guild := FindGuild(cache, id);
    if guild.None? {
      return Response(200, false, Absent, Some("Guild not found."), None);
    }
    var currentConfig := db.SelectGuildConfig(id);
    if currentConfig == [] {
      return Response(200, false, Absent, Some("Guild config not found."), None);
    }
    if body.Invalid? {
      return Response(500, false, Absent, Some(body.message), None);
    }
    var data := body.value;
    var updatedCommands := updateDisabledCommands(currentConfig[0].disabledCommands, data.enabled, data.disabled);
    var written := db.UpdateDisabledCommands(id, updatedCommands, unavailable);
    if written {
      resp := Response(200, true, Absent, Some("Commands updated"), None);
    } else {
      resp := Response(500, false, Absent, Some("Failed to update commands."), None);
    }
  }
}
