/** Reconciliation of the connection config with the database
    (steampipeconfig/connection_updates.go, connection_state.go, connection_data.go,
    db/db_local/local_db_client_connections.go).

    One refresh compares the required connections with the saved state file and the foreign schemas
    found in the database, builds the queries, runs them, and saves the state.  It is modelled as a
    step `Refresh(w, choice, sys)`; `w` holds what is fixed (config, installed plugins and their
    schemas), `sys` the state file and the database, and `choice` which connection each plugin's schema
    happened to be fetched through, which the program leaves to map iteration order.  */
module Connections {
  import opened Maps
  import opened Options

  const DYNAMIC := "dynamic"
  const STRUCT_VERSION := 20211125
  const COMMAND_SCHEMA := "steampipe_command"
  const RESERVED_NAMES: set<string> := {"public", "internal"}

  datatype Connection = Connection(name: string, plugin: string, config: string, options: Option<string>)

  datatype ConnectionData = ConnectionData(
    structVersion: int, plugin: string, connection: Option<Connection>,
    schemaMode: string, schemaHash: string, modTime: int)

  type ConnectionDataMap = map<string, ConnectionData>

  /** What reading a missing key gives. */
  const NO_DATA := ConnectionData(0, "", None, "", "", 0)

  function Entry(m: ConnectionDataMap, n: string): ConnectionData {
    if n in m then m[n] else NO_DATA
  }

  datatype ConnectionPlugin = ConnectionPlugin(pluginName: string, mode: string, hash: string, compatible: bool)

  /** What a refresh takes as given.  The mode and the protocol version are declared by the plugin;
      the schema, and so its hash, may depend on the connection.  Tables and columns are called items. */
  datatype World = World(
    config: map<string, Connection>,
    modTimes: map<string, int>,         // by installed plugin
    mode: string -> string,             // by plugin
    compatible: string -> bool,         // by plugin
    comments: (string, string) -> seq<string>,  // the items with a description, by plugin and schema hash
    hash: string -> string,             // by connection name
    remoteSchema: string -> string,     // by plugin
    items: (string, string) -> set<string>)     // what an import creates, by remote schema and connection name

  /** The connection each plugin's schema is fetched through, in the two calls of CreateConnectionPlugins. */
  datatype Choice = Choice(first: map<string, string>, second: map<string, string>)

  /** What the users of the database may do with a schema: enter it, read new items, and read some items. */
  datatype Access = Access(usage: bool, defaults: bool, select: set<string>)

  /** What was imported into a schema, the items that it gave, the comment on it, and who may read it. */
  datatype Imported = Imported(remote: string, items: set<string>, comment: string, access: Access)

  const NOTHING := Imported("", {}, "", Access(false, false, {}))

  type Database = map<string, Imported>

  datatype System = System(state: ConnectionDataMap, db: Database)

  ghost predicate WellFormed(w: World) {
    forall n :: n in w.config ==> w.config[n].name == n
  }

  // ---------- Loading ----------

  predicate Equals(a: ConnectionData, b: ConnectionData) {
    && a.connection.Some? && b.connection.Some?
    && a.plugin == b.plugin
    && a.modTime == b.modTime
    && a.connection.value.name == b.connection.value.name
    && a.connection.value.options == b.connection.value.options
    && a.connection.value.config == b.connection.value.config
  }

  predicate AllInstalled(w: World) {
    forall n :: n in w.config ==> w.config[n].plugin in w.modTimes
  }

  function PluginOf(w: World, n: string): string {
    if n in w.config then w.config[n].plugin else ""
  }

  function NewConnectionData(w: World, n: string): ConnectionData {
    if n in w.config && w.config[n].plugin in w.modTimes then
      ConnectionData(STRUCT_VERSION, w.config[n].plugin, Some(w.config[n]), "", "", w.modTimes[w.config[n].plugin])
    else NO_DATA
  }

  ghost function Required(w: World): (r: ConnectionDataMap)
    ensures r.Keys == w.config.Keys && forall n :: n in r ==> r[n] == NewConnectionData(w, n)
  {
    MapOf(w.config.Keys, n => NewConnectionData(w, n))
  }

  function ForeignSchemas(db: Database): set<string> {
    set n | n in db && db[n].items != {} && n != COMMAND_SCHEMA
  }

  /** The saved entries of the current version whose schema exists. */
  ghost function Current(state: ConnectionDataMap, foreign: set<string>): (r: ConnectionDataMap)
    ensures forall n :: n in r <==> n in state && state[n].structVersion >= STRUCT_VERSION && n in foreign
    ensures forall n :: n in r ==> r[n] == state[n]
  {
    MapOf((set n | n in state && state[n].structVersion >= STRUCT_VERSION && n in foreign), n => Entry(state, n))
  }

  // ---------- Creating connection plugins ----------

  ghost predicate ValidRepresentatives(w: World, names: set<string>, rep: map<string, string>) {
    forall n :: n in names && n in w.config ==>
      var p := w.config[n].plugin;
      p in rep && rep[p] in names && rep[p] in w.config && w.config[rep[p]].plugin == p
  }

  function NewConnectionPlugin(w: World, n: string, rep: map<string, string>): ConnectionPlugin {
    var p := PluginOf(w, n);
    ConnectionPlugin(p, w.mode(p), w.hash(if p in rep then rep[p] else n), w.compatible(p))
  }

  ghost function CreatePlugins(w: World, names: set<string>, rep: map<string, string>):
       (r: map<string, ConnectionPlugin>)
    ensures r.Keys == names && forall n :: n in r ==> r[n] == NewConnectionPlugin(w, n, rep)
  {
    MapOf(names, n => NewConnectionPlugin(w, n, rep))
  }

  // ---------- The updates ----------

  datatype Updates = Updates(
    update: ConnectionDataMap, delete: ConnectionDataMap, required: ConnectionDataMap,
    plugins: map<string, ConnectionPlugin>)

  function DynamicNames(req: ConnectionDataMap, cur: ConnectionDataMap): set<string> {
    set n | n in req && n in cur && cur[n].schemaMode == DYNAMIC
  }

  function OutOfDate(req: ConnectionDataMap, cur: ConnectionDataMap): set<string> {
    set n | n in req && (n !in cur || !Equals(cur[n], req[n]))
  }

  function HashChanged(cur: ConnectionDataMap, loaded: map<string, ConnectionPlugin>): set<string> {
    set n | n in loaded && n in cur && cur[n].schemaHash != loaded[n].hash
  }

  /** A connection whose dynamic schema changed is entered with its old saved data. */
  function UpdateEntry(req: ConnectionDataMap, cur: ConnectionDataMap, loaded: map<string, ConnectionPlugin>,
      n: string): ConnectionData {
    if n in HashChanged(cur, loaded) then Entry(cur, n) else Entry(req, n)
  }

  ghost function UpdateMap(req: ConnectionDataMap, cur: ConnectionDataMap, loaded: map<string, ConnectionPlugin>):
       (r: ConnectionDataMap)
    ensures r.Keys == OutOfDate(req, cur) + HashChanged(cur, loaded)
    ensures forall n :: n in r ==> r[n] == UpdateEntry(req, cur, loaded, n)
  {
    MapOf(OutOfDate(req, cur) + HashChanged(cur, loaded), n => UpdateEntry(req, cur, loaded, n))
  }

  ghost function DeleteMap(req: ConnectionDataMap, cur: ConnectionDataMap): (r: ConnectionDataMap)
    ensures r.Keys == cur.Keys - req.Keys && forall n :: n in r ==> r[n] == cur[n]
  {
    MapOf(cur.Keys - req.Keys, n => Entry(cur, n))
  }

  /** The saved form of a required connection: saved mode and hash, overridden by what was loaded. */
  function SavedEntry(n: string, r: ConnectionData, cur: ConnectionDataMap,
                      loaded: map<string, ConnectionPlugin>, plugins: map<string, ConnectionPlugin>): ConnectionData
  {
    var mode0 := if n in cur then cur[n].schemaMode else r.schemaMode;
    var hash0 := if n in cur then cur[n].schemaHash else r.schemaHash;
    var hash1 := if n in loaded then loaded[n].hash else hash0;
    var mode1 := if n in plugins then plugins[n].mode else mode0;
    var hash2 := if n in plugins && mode1 == DYNAMIC && hash1 == "" then plugins[n].hash else hash1;
    r.(schemaMode := mode1, schemaHash := hash2)
  }

  /** A nil connection in an entry put into Update is dereferenced. */
  ghost predicate Panics(cur: ConnectionDataMap, loaded: map<string, ConnectionPlugin>) {
    exists n :: n in HashChanged(cur, loaded) && cur[n].connection.None?
  }

  ghost function SavedState(req: ConnectionDataMap, cur: ConnectionDataMap,
                            loaded: map<string, ConnectionPlugin>, plugins: map<string, ConnectionPlugin>):
                                 (r: ConnectionDataMap)
    ensures r.Keys == req.Keys && forall n :: n in r ==> r[n] == SavedEntry(n, req[n], cur, loaded, plugins)
  {
    MapOf(req.Keys, n => SavedEntry(n, Entry(req, n), cur, loaded, plugins))
  }

  ghost function NewUpdates(w: World, choice: Choice, cur: ConnectionDataMap): Updates {
    var req := Required(w);
    var loaded := CreatePlugins(w, DynamicNames(req, cur), choice.first);
    var update := UpdateMap(req, cur, loaded);
    var plugins := CreatePlugins(w, OutOfDate(req, cur) - loaded.Keys, choice.second) + loaded;
    Updates(update, DeleteMap(req, cur), SavedState(req, cur, loaded, plugins), plugins)
  }

  /** The two CreateConnectionPlugins calls of a refresh each pick a connection of their own list. */
  ghost predicate ValidChoice(w: World, choice: Choice, sys: System)
  {
    ValidFor(w, choice, Current(sys.state, ForeignSchemas(sys.db)))
  }

  ghost predicate ValidFor(w: World, choice: Choice, cur: ConnectionDataMap)
  {
    var dyn := DynamicNames(Required(w), cur);
    && ValidRepresentatives(w, dyn, choice.first)
    && ValidRepresentatives(w, OutOfDate(Required(w), cur) - dyn, choice.second)
  }

  // ---------- Validation, and the effect of the queries ----------

  predicate Valid(n: string, p: ConnectionPlugin) {
    p.compatible && n !in RESERVED_NAMES
  }

  function Validated(u: Updates): set<string> {
    set n | n in u.update && n in u.plugins && Valid(n, u.plugins[n])
  }

  /** Connections of an incompatible plugin lose their schema, if anything is updated at all. */
  function Dropped(u: Updates): set<string> {
    if u.update == map[] then {} else set n | n in u.plugins && !u.plugins[n].compatible
  }

  /** The described items of a loaded schema. */
  function Described(w: World, p: ConnectionPlugin): seq<string> {
    w.comments(p.pluginName, p.hash)
  }

  /** Every described item of a loaded schema is there, so that commenting on them fails nowhere. */
  ghost predicate Describes(w: World, p: ConnectionPlugin, s: Imported) {
    forall x :: x in Described(w, p) ==> x in s.items
  }

  function Commented(w: World, u: Updates): set<string> {
    if u.update == map[] then {}
    else set n | n in u.plugins && Valid(n, u.plugins[n]) && Described(w, u.plugins[n]) != []
  }

  predicate HasQueries(w: World, u: Updates) {
    Validated(u) != {} || Dropped(u) != {} || Commented(w, u) != {} || u.delete != map[]
  }

  function ImportRemote(w: World, remote: string, n: string): Imported {
    Imported(remote, w.items(remote, n), "steampipe plugin: " + remote, Access(true, true, w.items(remote, n)))
  }

  function Import(w: World, plugin: string, n: string): Imported {
    ImportRemote(w, w.remoteSchema(plugin), n)
  }

  function Lookup(db: Database, n: string): Imported {
    if n in db then db[n] else NOTHING
  }

  function SchemaAfter(w: World, u: Updates, db: Database, n: string): Imported {
    if n in Validated(u) then Import(w, Entry(u.update, n).plugin, n) else Lookup(db, n)
  }

  /** The comments, of the loaded schemas, are about what the connections then have. */
  ghost predicate CommentsFit(w: World, u: Updates, db: Database) {
    u.update == map[] || forall n :: n in u.plugins && Valid(n, u.plugins[n]) ==>
      Describes(w, u.plugins[n], SchemaAfter(w, u, db, n))
  }

  /** All imports and drops for failing validation are done, and nothing is deleted yet. */
  ghost function PartialDatabase(w: World, u: Updates, db: Database): (r: Database)
    ensures r.Keys == db.Keys - Dropped(u) + Validated(u)
    ensures forall n :: n in r ==> r[n] == SchemaAfter(w, u, db, n)
  {
    MapOf(db.Keys - Dropped(u) + Validated(u), n => SchemaAfter(w, u, db, n))
  }

  ghost function DatabaseAfter(w: World, u: Updates, db: Database): (r: Database)
    ensures r.Keys == db.Keys - Dropped(u) - u.delete.Keys + Validated(u)
    ensures forall n :: n in r ==> r[n] == SchemaAfter(w, u, db, n)
  {
    MapOf(db.Keys - Dropped(u) - u.delete.Keys + Validated(u), n => SchemaAfter(w, u, db, n))
  }

  /** Failed: before any query.  Stopped: at a comment, with an error and the state file as before. */
  datatype Outcome = Failed | Silent | Stopped(sys: System) | Updated(sys: System)

  ghost function Refresh(w: World, choice: Choice, sys: System): Outcome {
    if !AllInstalled(w) then Failed
    else
      var cur := Current(sys.state, ForeignSchemas(sys.db));
      if Panics(cur, CreatePlugins(w, DynamicNames(Required(w), cur), choice.first)) then Failed
      else
        var u := NewUpdates(w, choice, cur);
        if !HasQueries(w, u) then Silent
        else if CommentsFit(w, u, sys.db) then Updated(System(u.required, DatabaseAfter(w, u, sys.db)))
        else Stopped(System(sys.state, PartialDatabase(w, u, sys.db)))
  }

  ghost function Next(w: World, choice: Choice, sys: System): System {
    match Refresh(w, choice, sys)
    case Updated(s) => s
    case Stopped(s) => s
    case _ => sys
  }
}
