/** When refreshing settles (steampipeconfig/connection_updates.go, connection_plugin.go,
    db/db_local/local_db_client_connections.go).  */
module ConnectionConvergence {
  import opened Connections
  import opened Maps
  import opened Options

  // ---------- Refreshing when everything can be imported ----------

  function LivePlugin(w: World, n: string): ConnectionPlugin {
    var p := PluginOf(w, n);
    ConnectionPlugin(p, w.mode(p), w.hash(n), w.compatible(p))
  }

  /** Every required connection validates, and importing its plugin gives a schema with tables,
      in which all that the plugin describes is found. */
  ghost predicate Importable(w: World) {
    && AllInstalled(w)
    && forall n :: n in w.config ==>
         && w.compatible(w.config[n].plugin)
         && n !in RESERVED_NAMES && n != COMMAND_SCHEMA
         && Import(w, w.config[n].plugin, n).items != {}
         && Describes(w, LivePlugin(w, n), Import(w, w.config[n].plugin, n))
  }

  /** Two connections of one plugin with different schemas. */
  predicate Rivals(w: World, n: string, m: string) {
    n in w.config && m in w.config && w.config[n].plugin == w.config[m].plugin && w.hash(n) != w.hash(m)
  }

  /** Connections of one plugin have one schema. */
  ghost predicate UniformSchemas(w: World) {
    forall n, m :: !Rivals(w, n, m)
  }

  /** No usable entry lacks its connection (only very old state files have such entries). */
  ghost predicate HasConnections(state: ConnectionDataMap) {
    forall n :: n in state && state[n].structVersion >= STRUCT_VERSION ==> state[n].connection.Some?
  }

  predicate SchemaChanged(w: World, cur: ConnectionDataMap, n: string) {
    n in w.config && n in cur && cur[n].schemaMode == DYNAMIC && cur[n].schemaHash != w.hash(n)
  }

  /** No entry is updated for a changed schema that lacks its connection, as very old state files' entries do;
      the program would dereference it. */
  ghost predicate NoNil(w: World, sys: System) {
    var cur := Current(sys.state, ForeignSchemas(sys.db));
    forall n :: SchemaChanged(w, cur, n) ==> cur[n].connection.Some?
  }

  predicate NeedsUpdate(w: World, cur: ConnectionDataMap, n: string) {
    n in w.config && (n !in cur || !Equals(cur[n], NewConnectionData(w, n)) || SchemaChanged(w, cur, n))
  }

  function Saved(w: World, cur: ConnectionDataMap, n: string): ConnectionData {
    var live := w.mode(PluginOf(w, n));
    var wasDynamic := Entry(cur, n).schemaMode == DYNAMIC;
    var hash := if wasDynamic then w.hash(n) else Entry(cur, n).schemaHash;
    if wasDynamic || NeedsUpdate(w, cur, n) then
      NewConnectionData(w, n).(schemaMode := live,
                               schemaHash := if live == DYNAMIC && hash == "" then w.hash(n) else hash)
    else
      NewConnectionData(w, n).(schemaMode := Entry(cur, n).schemaMode, schemaHash := Entry(cur, n).schemaHash)
  }

  function ImportedPlugin(w: World, cur: ConnectionDataMap, n: string): string {
    if SchemaChanged(w, cur, n) then cur[n].plugin else PluginOf(w, n)
  }

  function DirectSchema(w: World, cur: ConnectionDataMap, db: Database, n: string): Imported {
    if NeedsUpdate(w, cur, n) then Import(w, ImportedPlugin(w, cur, n), n) else Lookup(db, n)
  }

  ghost function DirectDb(w: World, cur: ConnectionDataMap, db: Database): (r: Database)
    ensures forall n :: n in r <==> NeedsUpdate(w, cur, n) || (n in db && (n !in cur || n in w.config))
    ensures forall n :: n in r ==> r[n] == DirectSchema(w, cur, db, n)
  {
    MapOf(db.Keys - (cur.Keys - w.config.Keys) + (set n | n in w.config && NeedsUpdate(w, cur, n)),
          n => DirectSchema(w, cur, db, n))
  }

  /** The connections whose plugin a refresh loads. */
  predicate IsLoaded(w: World, cur: ConnectionDataMap, n: string) {
    n in w.config && (NeedsUpdate(w, cur, n) || cur[n].schemaMode == DYNAMIC)
  }

  /** The loaded schema of n describes an item that n's schema lacks after the imports. */
  ghost predicate Misfit(w: World, cur: ConnectionDataMap, db: Database, n: string) {
    IsLoaded(w, cur, n) && !Describes(w, LivePlugin(w, n), DirectSchema(w, cur, db, n))
  }

  /** Something is updated, and a comment fails. */
  ghost predicate Misfits(w: World, sys: System) {
    var cur := Current(sys.state, ForeignSchemas(sys.db));
    (exists n :: NeedsUpdate(w, cur, n)) && exists n :: Misfit(w, cur, sys.db, n)
  }

  /** A refresh stopped at a comment: everything is imported, nothing deleted and nothing saved. */
  ghost function Retry(w: World, sys: System): (r: System)
    ensures r.state == sys.state
    ensures var cur := Current(sys.state, ForeignSchemas(sys.db));
            && (forall n :: n in r.db <==> n in sys.db || NeedsUpdate(w, cur, n))
            && forall n :: n in r.db ==> r.db[n] == DirectSchema(w, cur, sys.db, n)
  {
    var cur := Current(sys.state, ForeignSchemas(sys.db));
    System(sys.state, MapOf(sys.db.Keys + (set n | n in w.config && NeedsUpdate(w, cur, n)),
                            n => DirectSchema(w, cur, sys.db, n)))
  }

  /** The outcome of a refresh, name by name, with no reference to representatives. */
  ghost function DirectRefresh(w: World, sys: System): (r: Outcome)
    ensures !r.Failed?
  {
    var cur := Current(sys.state, ForeignSchemas(sys.db));
    if (forall n :: n in w.config ==> !NeedsUpdate(w, cur, n)) && (forall n :: n in cur ==> n in w.config) then Silent
    else if Misfits(w, sys) then Stopped(Retry(w, sys))
    else Updated(System(MapOf(w.config.Keys, n => Saved(w, cur, n)), DirectDb(w, cur, sys.db)))
  }

  ghost function LivePlugins(w: World, names: set<string>): map<string, ConnectionPlugin> {
    MapOf(names, n => LivePlugin(w, n))
  }

  ghost function LiveLoaded(w: World, cur: ConnectionDataMap): map<string, ConnectionPlugin>
  {
    LivePlugins(w, DynamicNames(Required(w), cur))
  }

  ghost function LiveAll(w: World, cur: ConnectionDataMap): map<string, ConnectionPlugin>
  {
    LivePlugins(w, OutOfDate(Required(w), cur) + DynamicNames(Required(w), cur))
  }

  lemma PluginsLoaded(w: World, names: set<string>, rep: map<string, string>)
    requires UniformSchemas(w) && names <= w.config.Keys && ValidRepresentatives(w, names, rep)
    ensures CreatePlugins(w, names, rep) == LivePlugins(w, names)
  {
    hide MapOf;
    forall n | n in names ensures NewConnectionPlugin(w, n, rep) == LivePlugin(w, n) {
      var p := w.config[n].plugin;
      assert !Rivals(w, n, rep[p]);
    }
  }

  /** The updates computed with live plugins. */
  lemma UpdatesAreLive(w: World, choice: Choice, cur: ConnectionDataMap)
    requires UniformSchemas(w) && ValidFor(w, choice, cur)
    ensures var req := Required(w); var u := NewUpdates(w, choice, cur);
            && CreatePlugins(w, DynamicNames(req, cur), choice.first) == LiveLoaded(w, cur)
            && u.plugins == LiveAll(w, cur)
            && u.update == UpdateMap(req, cur, LiveLoaded(w, cur))
            && u.delete == DeleteMap(req, cur)
            && u.required == SavedState(req, cur, LiveLoaded(w, cur), LiveAll(w, cur))
  {
    hide MapOf, Equals, UniformSchemas, ValidRepresentatives, CreatePlugins, UpdateMap, DeleteMap, SavedState;
    var req := Required(w);
    var dyn := DynamicNames(req, cur);
    PluginsLoaded(w, dyn, choice.first);
    PluginsLoaded(w, OutOfDate(req, cur) - dyn, choice.second);
    LivePluginsUnion(w, OutOfDate(req, cur), dyn);
  }

  lemma LivePluginsUnion(w: World, a: set<string>, b: set<string>)
    ensures LivePlugins(w, a - b) + LivePlugins(w, b) == LivePlugins(w, a + b)
  {
    hide MapOf;
  }

  lemma UpdateByName(w: World, cur: ConnectionDataMap, n: string)
    ensures n in HashChanged(cur, LiveLoaded(w, cur)) <==> SchemaChanged(w, cur, n)
    ensures var m := UpdateMap(Required(w), cur, LiveLoaded(w, cur));
            (n in m <==> NeedsUpdate(w, cur, n)) &&
            (n in m ==> n in w.config && n in LiveAll(w, cur)
                        && (AllInstalled(w) ==> m[n].plugin == ImportedPlugin(w, cur, n)))
  {
    hide MapOf, Equals;
  }

  lemma SavedEntryByName(w: World, cur: ConnectionDataMap, n: string)
    requires n in w.config
    ensures SavedEntry(n, NewConnectionData(w, n), cur, LiveLoaded(w, cur), LiveAll(w, cur)) == Saved(w, cur, n)
  {
    hide MapOf, Equals;
  }

  lemma SavedStateByName(w: World, cur: ConnectionDataMap)
    ensures SavedState(Required(w), cur, LiveLoaded(w, cur), LiveAll(w, cur)) ==
            MapOf(w.config.Keys, n => Saved(w, cur, n))
  {
    hide MapOf, Saved, SavedEntry, LiveLoaded, LiveAll, NewConnectionData;
    forall n | n in w.config
      ensures SavedEntry(n, NewConnectionData(w, n), cur, LiveLoaded(w, cur), LiveAll(w, cur)) == Saved(w, cur, n)
    {
      SavedEntryByName(w, cur, n);
    }
  }

  lemma LoadedByName(w: World, cur: ConnectionDataMap, n: string)
    ensures n in LiveAll(w, cur) <==> IsLoaded(w, cur, n)
    ensures n in LiveAll(w, cur) ==> LiveAll(w, cur)[n] == LivePlugin(w, n)
  {
    hide MapOf, Equals, LivePlugin;
  }

  lemma LiveIsValid(w: World, n: string)
    requires Importable(w) && n in w.config
    ensures Valid(n, LivePlugin(w, n))
  {
    hide Describes, Import;
  }

  /** When everything validates, all updates are carried out and nothing is dropped. */
  lemma AllValidated(w: World, u: Updates, cur: ConnectionDataMap)
    requires Importable(w) && u.plugins == LiveAll(w, cur)
    requires forall n :: n in u.update ==> n in u.plugins
    ensures Validated(u) == u.update.Keys && Dropped(u) == {}
    ensures forall n :: n in u.plugins ==> Valid(n, u.plugins[n])
    ensures HasQueries(w, u) <==> u.update != map[] || u.delete != map[]
  {
    hide MapOf, Equals, Importable, LiveAll, IsLoaded, LivePlugin, Described;
    forall n | n in u.plugins ensures Valid(n, u.plugins[n]) {
      LoadedByName(w, cur, n);
      assert n in w.config by { LoadedInConfig(w, cur, n); }
      LiveIsValid(w, n);
    }
    assert Validated(u) == u.update.Keys;
    if u.update != map[] {
      var n :| n in u.update;
      assert n in Validated(u);
    }
  }

  lemma LoadedInConfig(w: World, cur: ConnectionDataMap, n: string)
    requires IsLoaded(w, cur, n)
    ensures n in w.config
  {
  }

  /** The updates, as far as a description by name needs them. */
  ghost predicate DirectUpdates(w: World, u: Updates, cur: ConnectionDataMap) {
    && Validated(u) == u.update.Keys && Dropped(u) == {}
    && u.plugins == LiveAll(w, cur) && (forall n :: n in u.plugins ==> Valid(n, u.plugins[n]))
    && u.delete == DeleteMap(Required(w), cur)
    && forall n :: (n in u.update <==> NeedsUpdate(w, cur, n))
                   && (n in u.update ==> n in w.config && u.update[n].plugin == ImportedPlugin(w, cur, n))
  }

  lemma SchemaByName(w: World, u: Updates, cur: ConnectionDataMap, db: Database, n: string)
    requires DirectUpdates(w, u, cur)
    ensures SchemaAfter(w, u, db, n) == DirectSchema(w, cur, db, n)
  {
    hide MapOf, Equals, NeedsUpdate, ImportedPlugin, LiveAll, Required, DeleteMap, Validated, Dropped, Import, Valid;
  }

  lemma DirectDatabase(w: World, u: Updates, cur: ConnectionDataMap, db: Database)
    requires DirectUpdates(w, u, cur)
    ensures DatabaseAfter(w, u, db) == DirectDb(w, cur, db)
  {
    hide MapOf, Equals, NeedsUpdate, ImportedPlugin, Validated, Dropped, DatabaseAfter, DirectDb, SchemaAfter,
         DirectSchema, LiveAll, Valid;
    var a, b := DatabaseAfter(w, u, db), DirectDb(w, cur, db);
    assert a.Keys == b.Keys;
    forall n | n in a ensures a[n] == b[n] {
      SchemaByName(w, u, cur, db, n);
    }
  }

  lemma DirectRetry(w: World, u: Updates, sys: System)
    requires DirectUpdates(w, u, Current(sys.state, ForeignSchemas(sys.db)))
    ensures PartialDatabase(w, u, sys.db) == Retry(w, sys).db
  {
    hide MapOf, Equals, NeedsUpdate, ImportedPlugin, Validated, Dropped, PartialDatabase, Retry, SchemaAfter,
         DirectSchema, LiveAll, Valid, Current, ForeignSchemas, Required;
    var a, b := PartialDatabase(w, u, sys.db), Retry(w, sys).db;
    assert a.Keys == b.Keys;
    forall n | n in a ensures a[n] == b[n] {
      SchemaByName(w, u, Current(sys.state, ForeignSchemas(sys.db)), sys.db, n);
    }
  }

  lemma FitsByName(w: World, u: Updates, sys: System)
    requires DirectUpdates(w, u, Current(sys.state, ForeignSchemas(sys.db)))
    ensures CommentsFit(w, u, sys.db) <==> !Misfits(w, sys)
  {
    hide MapOf, Equals, NeedsUpdate, ImportedPlugin, Validated, Dropped, SchemaAfter, Describes, LivePlugin,
         DirectSchema, LiveAll, Valid, Current, ForeignSchemas, IsLoaded, Required;
    var cur := Current(sys.state, ForeignSchemas(sys.db));
    forall n ensures Misfit(w, cur, sys.db, n) <==>
                     n in u.plugins && !Describes(w, u.plugins[n], SchemaAfter(w, u, sys.db, n)) {
      SchemaByName(w, u, cur, sys.db, n);
      LoadedByName(w, cur, n);
    }
    if u.update == map[] {
      forall n ensures !NeedsUpdate(w, cur, n) {
        assert n !in u.update;
      }
    } else {
      var n :| n in u.update;
      assert NeedsUpdate(w, cur, n);
      if !CommentsFit(w, u, sys.db) {
        var m :| m in u.plugins && Valid(m, u.plugins[m]) &&
                 !Describes(w, u.plugins[m], SchemaAfter(w, u, sys.db, m));
        assert Misfit(w, cur, sys.db, m);
      }
    }
  }

  lemma PanicsOnNil(w: World, choice: Choice, sys: System)
    requires UniformSchemas(w) && ValidChoice(w, choice, sys)
    ensures var cur := Current(sys.state, ForeignSchemas(sys.db));
            Panics(cur, CreatePlugins(w, DynamicNames(Required(w), cur), choice.first)) <==> !NoNil(w, sys)
  {
    hide MapOf, ForeignSchemas, LiveLoaded, Current, HashChanged, CreatePlugins, DynamicNames, Required, UniformSchemas,
         ValidFor, NewUpdates, LiveAll;
    var cur := Current(sys.state, ForeignSchemas(sys.db));
    UpdatesAreLive(w, choice, cur);
    forall n ensures n in HashChanged(cur, LiveLoaded(w, cur)) <==> SchemaChanged(w, cur, n) {
      UpdateByName(w, cur, n);
    }
    if !NoNil(w, sys) {
      var n :| SchemaChanged(w, cur, n) && cur[n].connection.None?;
      assert n in HashChanged(cur, LiveLoaded(w, cur));
    }
  }

  lemma ConnectedHasNoNil(w: World, sys: System)
    requires HasConnections(sys.state)
    ensures NoNil(w, sys)
  {
    hide MapOf, ForeignSchemas, Current;
  }

  lemma NothingToDo(w: World, u: Updates, cur: ConnectionDataMap)
    requires u.delete == DeleteMap(Required(w), cur)
    requires forall n :: (n in u.update <==> NeedsUpdate(w, cur, n)) && (n in u.update ==> n in w.config)
    ensures u.update == map[] && u.delete == map[] <==>
            (forall n :: n in w.config ==> !NeedsUpdate(w, cur, n)) && (forall n :: n in cur ==> n in w.config)
  {
    hide MapOf, Equals, NeedsUpdate;
    if u.update == map[] && u.delete == map[] {
      forall n | n in w.config ensures !NeedsUpdate(w, cur, n) {
        assert n !in u.update;
      }
      forall n | n in cur ensures n in w.config {
        assert n !in u.delete;
      }
    } else if u.update != map[] {
      var n :| n in u.update;
    } else {
      var n :| n in u.delete;
    }
  }

  lemma ImportableInstalled(w: World)
    requires Importable(w)
    ensures AllInstalled(w)
  {
  }

  lemma UpdatesAreDirect(w: World, choice: Choice, cur: ConnectionDataMap)
    requires Importable(w) && UniformSchemas(w) && ValidFor(w, choice, cur)
    ensures var u := NewUpdates(w, choice, cur);
            && DirectUpdates(w, u, cur)
            && (HasQueries(w, u) <==> u.update != map[] || u.delete != map[])
            && u.required == MapOf(w.config.Keys, n => Saved(w, cur, n))
  {
    hide MapOf, Equals, UpdateMap, SavedState, Saved, NeedsUpdate, ImportedPlugin, LiveLoaded, Valid,
         LiveAll, CreatePlugins, DynamicNames, OutOfDate, HashChanged, Validated, Dropped, HasQueries, ValidFor,
         UniformSchemas, NewUpdates, DeleteMap, Required, Importable;
    ImportableInstalled(w);
    UpdatesAreLive(w, choice, cur);
    var u := NewUpdates(w, choice, cur);
    forall n ensures (n in u.update <==> NeedsUpdate(w, cur, n))
                     && (n in u.update ==>
                           n in w.config && u.update[n].plugin == ImportedPlugin(w, cur, n) && n in u.plugins)
    {
      UpdateByName(w, cur, n);
    }
    AllValidated(w, u, cur);
    SavedStateByName(w, cur);
  }

  /** When everything can be imported and connections of a plugin share its schema, the map
      iteration order behind the representatives has no influence: a refresh fails exactly if it
      dereferences a missing connection, and stops exactly if it updates something and comments on an
      item that is not there. */
  lemma RefreshIsDirect(w: World, choice: Choice, sys: System)
    requires Importable(w) && UniformSchemas(w) && ValidChoice(w, choice, sys)
    ensures Refresh(w, choice, sys) == if NoNil(w, sys) then DirectRefresh(w, sys) else Failed
  {
    hide MapOf, Equals, ForeignSchemas, Saved, NeedsUpdate, LiveLoaded, LiveAll, CreatePlugins, DynamicNames,
         HasQueries, ValidFor, UniformSchemas, NewUpdates, DatabaseAfter, DirectDb, Required, Panics, Current,
         Importable, NoNil, Retry, PartialDatabase, Misfits, CommentsFit, Validated, Dropped, Valid, ImportedPlugin,
         DeleteMap;
    ImportableInstalled(w);
    var cur := Current(sys.state, ForeignSchemas(sys.db));
    PanicsOnNil(w, choice, sys);
    var u := NewUpdates(w, choice, cur);
    UpdatesAreDirect(w, choice, cur);
    DirectDatabase(w, u, cur, sys.db);
    DirectRetry(w, u, sys);
    FitsByName(w, u, sys);
    NothingToDo(w, u, cur);
  }

  lemma ImportableName(w: World, k: string)
    requires Importable(w) && k in w.config
    ensures w.config[k].plugin in w.modTimes && w.compatible(w.config[k].plugin)
    ensures k !in RESERVED_NAMES && k != COMMAND_SCHEMA && Import(w, PluginOf(w, k), k).items != {}
  {
    hide Describes, LivePlugin, Import;
  }

  lemma DescribesItself(w: World, r: string)
    requires Importable(w) && r in w.config
    ensures Describes(w, LivePlugin(w, r), Import(w, PluginOf(w, r), r))
  {
    hide Describes, Import, LivePlugin;
  }

  // ---------- Convergence ----------

  /** An out-of-date entry saved as non-dynamic with the hash of some other schema, whose plugin now is dynamic. */
  ghost predicate StaleEntry(w: World, sys: System, n: string) {
    var cur := Current(sys.state, ForeignSchemas(sys.db));
    && n in w.config && n in cur
    && !Equals(cur[n], NewConnectionData(w, n))
    && cur[n].schemaMode != DYNAMIC && cur[n].schemaHash != "" && cur[n].schemaHash != w.hash(n)
    && w.mode(w.config[n].plugin) == DYNAMIC
  }

  /** A connection updated from its old entry, whose old plugin imports no table. */
  ghost predicate LostImport(w: World, sys: System, n: string) {
    var cur := Current(sys.state, ForeignSchemas(sys.db));
    SchemaChanged(w, cur, n) && Import(w, cur[n].plugin, n).items == {}
  }

  predicate EntryInStep(w: World, e: ConnectionData, n: string) {
    && e.structVersion == STRUCT_VERSION
    && Equals(e, NewConnectionData(w, n))
    && (e.schemaMode == DYNAMIC ==> w.mode(PluginOf(w, n)) == DYNAMIC)
  }

  /** What every refresh that runs queries leaves in the state file. */
  ghost predicate InStep(w: World, state: ConnectionDataMap) {
    state.Keys == w.config.Keys && forall n :: n in w.config ==> EntryInStep(w, state[n], n)
  }

  predicate WrongHash(w: World, e: ConnectionData, n: string) {
    e.schemaMode == DYNAMIC && e.schemaHash != w.hash(n)
  }

  lemma SavedInStep(w: World, sys: System, n: string)
    requires Importable(w) && n in w.config
    ensures var cur := Current(sys.state, ForeignSchemas(sys.db)); var e := Saved(w, cur, n);
            && EntryInStep(w, e, n) && e.connection.Some?
            && (WrongHash(w, e, n) <==> StaleEntry(w, sys, n))
  {
    hide MapOf, ForeignSchemas;
  }

  lemma ImportedUnlessLost(w: World, sys: System, n: string)
    requires Importable(w) && n in w.config
    ensures var cur := Current(sys.state, ForeignSchemas(sys.db));
            n in ForeignSchemas(DirectDb(w, cur, sys.db)) <==> !LostImport(w, sys, n)
  {
    hide MapOf, Equals;
  }

  /** What needs an update after a refresh that saved its state needed one before, and no comment fails
      then that did not fail before. */
  lemma AfterUpdate(w: World, sys: System, sys': System, n: string)
    requires Importable(w) && n in w.config
    requires var cur := Current(sys.state, ForeignSchemas(sys.db));
             sys' == System(MapOf(w.config.Keys, k => Saved(w, cur, k)), DirectDb(w, cur, sys.db))
    ensures var cur, cur' := Current(sys.state, ForeignSchemas(sys.db)), Current(sys'.state, ForeignSchemas(sys'.db));
            && (NeedsUpdate(w, cur', n) ==> NeedsUpdate(w, cur, n))
            && (Misfit(w, cur', sys'.db, n) ==> Misfit(w, cur, sys.db, n))
  {
    hide MapOf, ForeignSchemas, Importable, Import, Describes, LivePlugin, Equals;
    var cur, cur' := Current(sys.state, ForeignSchemas(sys.db)), Current(sys'.state, ForeignSchemas(sys'.db));
    assert sys'.state[n] == Saved(w, cur, n);
    SavedInStep(w, sys, n);
    ImportedUnlessLost(w, sys, n);
    DescribesItself(w, n);
    EqualsPlugin(w, sys'.state[n], n);
  }

  lemma EqualsPlugin(w: World, e: ConnectionData, n: string)
    requires Importable(w) && n in w.config && Equals(e, NewConnectionData(w, n))
    ensures e.plugin == PluginOf(w, n)
  {
    hide Importable;
    ImportableName(w, n);
  }

  /** After a refresh that saved its state, the state is in step; a schema is missing exactly when its
      import was lost, a saved dynamic hash is wrong exactly when the entry was stale, and the next
      refresh is not stopped. */
  lemma UpdateBringsInStep(w: World, sys: System)
    requires Importable(w) && DirectRefresh(w, sys).Updated?
    ensures var sys' := DirectRefresh(w, sys).sys;
            && InStep(w, sys'.state) && HasConnections(sys'.state) && !Misfits(w, sys')
            && forall n :: n in w.config ==>
                 && (n in ForeignSchemas(sys'.db) <==> !LostImport(w, sys, n))
                 && (WrongHash(w, sys'.state[n], n) <==> StaleEntry(w, sys, n))
  {
    hide MapOf, Equals, ForeignSchemas, Saved, DirectDb, StaleEntry, LostImport, Importable, Current, NeedsUpdate,
         EntryInStep, WrongHash, Misfit, Retry;
    var sys' := DirectRefresh(w, sys).sys;
    var cur, cur' := Current(sys.state, ForeignSchemas(sys.db)), Current(sys'.state, ForeignSchemas(sys'.db));
    forall n | n in w.config
      ensures EntryInStep(w, sys'.state[n], n) && sys'.state[n].connection.Some?
      ensures n in ForeignSchemas(sys'.db) <==> !LostImport(w, sys, n)
      ensures WrongHash(w, sys'.state[n], n) <==> StaleEntry(w, sys, n)
      ensures NeedsUpdate(w, cur', n) ==> NeedsUpdate(w, cur, n)
      ensures Misfit(w, cur', sys'.db, n) ==> Misfit(w, cur, sys.db, n)
    {
      assert sys'.state[n] == Saved(w, cur, n);
      SavedInStep(w, sys, n);
      ImportedUnlessLost(w, sys, n);
      AfterUpdate(w, sys, sys', n);
    }
    OnlyRequired(w, cur', sys'.db);
  }

  lemma OnlyRequired(w: World, cur: ConnectionDataMap, db: Database)
    ensures forall n :: NeedsUpdate(w, cur, n) || Misfit(w, cur, db, n) ==> n in w.config
  {
    hide Equals, Describes, SchemaChanged;
  }

  lemma NameInStep(w: World, sys: System, n: string)
    requires Importable(w) && InStep(w, sys.state) && n in w.config
    ensures var cur := Current(sys.state, ForeignSchemas(sys.db));
            && (NeedsUpdate(w, cur, n) <==> n !in ForeignSchemas(sys.db) || WrongHash(w, sys.state[n], n))
            && !StaleEntry(w, sys, n) && !LostImport(w, sys, n)
            && sys.state[n].plugin == w.config[n].plugin
  {
    hide MapOf, ForeignSchemas;
    assert EntryInStep(w, sys.state[n], n);
  }

  /** In step, and not stopped: the next refresh is silent exactly when no schema is missing and no hash is wrong. */
  lemma SilentWhenInStep(w: World, sys: System)
    requires Importable(w) && InStep(w, sys.state)
    ensures DirectRefresh(w, sys) == Silent <==>
            forall n :: n in w.config ==> n in ForeignSchemas(sys.db) && !WrongHash(w, sys.state[n], n)
    ensures forall n :: n in w.config ==> !StaleEntry(w, sys, n) && !LostImport(w, sys, n)
  {
    hide MapOf, Equals, ForeignSchemas, StaleEntry, LostImport, NeedsUpdate, WrongHash, EntryInStep, Importable,
         Misfits, Retry;
    forall n | n in w.config
      ensures NeedsUpdate(w, Current(sys.state, ForeignSchemas(sys.db)), n) <==>
              n !in ForeignSchemas(sys.db) || WrongHash(w, sys.state[n], n)
      ensures !StaleEntry(w, sys, n) && !LostImport(w, sys, n)
    {
      NameInStep(w, sys, n);
    }
  }

  // ---------- Refreshes that stop at a comment ----------

  lemma RetryForeign(w: World, sys: System, n: string)
    requires Importable(w) && n in w.config
    ensures n in ForeignSchemas(Retry(w, sys).db) <==> !LostImport(w, sys, n)
  {
    hide MapOf, Equals, Importable, Describes, Import;
    ImportableName(w, n);
  }

  /** What needs an update when a refresh is repeated still does when it is repeated once more. */
  lemma NeedsUpdateAgain(w: World, sys: System, n: string)
    requires Importable(w)
    ensures var sys1 := Retry(w, sys); var sys2 := Retry(w, sys1);
            NeedsUpdate(w, Current(sys1.state, ForeignSchemas(sys1.db)), n) ==>
              NeedsUpdate(w, Current(sys2.state, ForeignSchemas(sys2.db)), n)
  {
    hide MapOf, Equals, ForeignSchemas, Importable, Import, Retry;
    if n in w.config {
      RetryForeign(w, sys, n);
      RetryForeign(w, Retry(w, sys), n);
    }
  }

  /** A comment that fails fails again two refreshes later, if those stop too. */
  lemma MisfitAgain(w: World, sys: System, n: string)
    requires Importable(w) && Misfit(w, Current(sys.state, ForeignSchemas(sys.db)), sys.db, n)
    ensures var sys2 := Retry(w, Retry(w, sys)); Misfit(w, Current(sys2.state, ForeignSchemas(sys2.db)), sys2.db, n)
  {
    hide MapOf, Equals, ForeignSchemas, Importable, Describes, Import, LivePlugin;
    RetryForeign(w, sys, n);
    RetryForeign(w, Retry(w, sys), n);
    DescribesItself(w, n);
  }

  /** Two refreshes stopped in a row: the next one is stopped too. */
  lemma StoppedAgain(w: World, sys: System)
    requires Importable(w) && Misfits(w, sys) && Misfits(w, Retry(w, sys))
    ensures Misfits(w, Retry(w, Retry(w, sys)))
  {
    hide ForeignSchemas, Importable, Retry, NeedsUpdate, Misfit, Current;
    var sys1 := Retry(w, sys);
    var n :| NeedsUpdate(w, Current(sys1.state, ForeignSchemas(sys1.db)), n);
    var m :| Misfit(w, Current(sys.state, ForeignSchemas(sys.db)), sys.db, m);
    NeedsUpdateAgain(w, sys, n);
    MisfitAgain(w, sys, m);
  }

  /** The refresh ends with an error: it dereferences a missing connection, or a comment fails. */
  ghost predicate Obstructed(w: World, sys: System) {
    !NoNil(w, sys) || Misfits(w, sys)
  }

  /** The system after a first refresh that may be stopped. */
  ghost function Start(w: World, sys: System): System {
    if Misfits(w, sys) then Retry(w, sys) else sys
  }

  /** The first refresh or the second ends without an error. */
  ghost predicate Settles(w: World, sys: System) {
    NoNil(w, sys) && !Obstructed(w, Start(w, sys))
  }

  /** One refresh brings everything in place. */
  ghost predicate OneUpdate(w: World, sys: System) {
    forall n :: n in w.config ==> !StaleEntry(w, sys, n) && !LostImport(w, sys, n)
  }

  /** Nothing is left to do after two refreshes. */
  ghost predicate Quiet(w: World, sys: System) {
    Settles(w, sys) && (Misfits(w, sys) ==> OneUpdate(w, Retry(w, sys)))
  }

  // What is left to do after a stopped refresh, read off the state file and the database before it.

  predicate Usable(state: ConnectionDataMap, n: string) {
    n in state && state[n].structVersion >= STRUCT_VERSION
  }

  /** The saved hash of a dynamic schema is wrong, whether or not the schema is there. */
  predicate HashOutdated(w: World, state: ConnectionDataMap, n: string) {
    n in w.config && Usable(state, n) && state[n].schemaMode == DYNAMIC && state[n].schemaHash != w.hash(n)
  }

  /** n's saved entry does not stand for the required connection. */
  predicate Overdue(w: World, state: ConnectionDataMap, n: string) {
    n in w.config
    && (!Usable(state, n) || !Equals(state[n], NewConnectionData(w, n)) || HashOutdated(w, state, n))
  }

  /** A comment on n's schema fails again in the next refresh, or fails then when n's schema is back. */
  ghost predicate FailsAgain(w: World, sys: System, n: string) {
    var cur := Current(sys.state, ForeignSchemas(sys.db));
    if n in cur then Misfit(w, cur, sys.db, n) && !LostImport(w, sys, n)
    else HashOutdated(w, sys.state, n) && !Describes(w, LivePlugin(w, n), Import(w, sys.state[n].plugin, n))
  }

  lemma RetryByName(w: World, sys: System, n: string)
    requires Importable(w)
    ensures var sys1 := Retry(w, sys); var cur1 := Current(sys1.state, ForeignSchemas(sys1.db));
            && (NeedsUpdate(w, cur1, n) <==> Overdue(w, sys.state, n))
            && (Misfit(w, cur1, sys1.db, n) <==> FailsAgain(w, sys, n))
            && (SchemaChanged(w, cur1, n) <==> HashOutdated(w, sys.state, n) && !LostImport(w, sys, n))
            && (n in cur1 ==> n in sys.state && cur1[n] == sys.state[n])
  {
    hide MapOf, Equals, ForeignSchemas, Importable, Describes, Import, LivePlugin;
    if n in w.config {
      RetryForeign(w, sys, n);
      DescribesItself(w, n);
    }
  }

  /** The exact condition for refreshing to settle: no missing connection is dereferenced; and if a comment
      fails, either no saved entry is overdue, or no comment fails again. */
  lemma SettlesExactly(w: World, sys: System)
    requires Importable(w)
    ensures Settles(w, sys) <==>
            && NoNil(w, sys)
            && (Misfits(w, sys) ==>
                  && (forall n :: HashOutdated(w, sys.state, n) ==> sys.state[n].connection.Some?)
                  && ((forall n :: !Overdue(w, sys.state, n)) || forall n :: !FailsAgain(w, sys, n)))
  {
    hide MapOf, Equals, ForeignSchemas, Importable, NeedsUpdate, Misfit, Retry, Current, FailsAgain, Overdue,
         SchemaChanged;
    if NoNil(w, sys) && Misfits(w, sys) {
      var sys1 := Retry(w, sys);
      var cur, cur1 := Current(sys.state, ForeignSchemas(sys.db)), Current(sys1.state, ForeignSchemas(sys1.db));
      forall n
        ensures NeedsUpdate(w, cur1, n) <==> Overdue(w, sys.state, n)
        ensures Misfit(w, cur1, sys1.db, n) <==> FailsAgain(w, sys, n)
        ensures SchemaChanged(w, cur1, n) <==> HashOutdated(w, sys.state, n) && !LostImport(w, sys, n)
        ensures n in cur1 ==> n in sys.state && cur1[n] == sys.state[n]
      {
        RetryByName(w, sys, n);
      }
      NoNilAgain(w, sys, cur1);
    }
  }

  lemma NoNilAgain(w: World, sys: System, cur1: ConnectionDataMap)
    requires cur1 == Current(sys.state, ForeignSchemas(Retry(w, sys).db)) && NoNil(w, sys)
    requires forall n :: SchemaChanged(w, cur1, n) <==> HashOutdated(w, sys.state, n) && !LostImport(w, sys, n)
    ensures NoNil(w, Retry(w, sys)) <==>
            forall n :: HashOutdated(w, sys.state, n) ==> sys.state[n].connection.Some?
  {
    hide MapOf, Equals, ForeignSchemas, Import, Retry;
  }

  lemma ObstructedStep(w: World, choice: Choice, sys: System)
    requires Importable(w) && UniformSchemas(w) && ValidChoice(w, choice, sys) && Obstructed(w, sys)
    ensures Refresh(w, choice, sys) == if NoNil(w, sys) then Stopped(Retry(w, sys)) else Failed
  {
    hide ForeignSchemas, Importable, Retry, NeedsUpdate, Misfit, Current, NoNil, Refresh, ValidChoice, UniformSchemas;
    RefreshIsDirect(w, choice, sys);
    OnlyRequired(w, Current(sys.state, ForeignSchemas(sys.db)), sys.db);
  }

  lemma StaysObstructed(w: World, c1: Choice, c2: Choice, sys: System)
    requires Importable(w) && UniformSchemas(w) && ValidChoice(w, c1, sys) && ValidChoice(w, c2, Next(w, c1, sys))
    requires Obstructed(w, sys) && Obstructed(w, Next(w, c1, sys))
    ensures Obstructed(w, Next(w, c2, Next(w, c1, sys)))
  {
    hide Refresh, ValidChoice, Importable, UniformSchemas, NoNil, Misfits, Retry;
    ObstructedStep(w, c1, sys);
    ObstructedStep(w, c2, Next(w, c1, sys));
    if Misfits(w, sys) && NoNil(w, sys) && Misfits(w, Retry(w, sys)) {
      StoppedAgain(w, sys);
    }
  }

  /** A refresh that cannot be stopped: two later the state is in place. */
  lemma SettledInTwo(w: World, c1: Choice, c2: Choice, sys: System)
    requires Importable(w) && UniformSchemas(w) && !Obstructed(w, sys)
    requires ValidChoice(w, c1, sys) && ValidChoice(w, c2, Next(w, c1, sys))
    ensures var sys1 := Next(w, c1, sys); var sys2 := Next(w, c2, sys1);
            && (Refresh(w, c1, sys) == Silent || Refresh(w, c1, sys).Updated?)
            && !Obstructed(w, sys1) && !Obstructed(w, sys2) && DirectRefresh(w, sys2) == Silent
            && (DirectRefresh(w, sys1) == Silent <==> Refresh(w, c1, sys) == Silent || OneUpdate(w, sys))
  {
    hide Refresh, DirectRefresh, StaleEntry, LostImport, ValidChoice, Importable, UniformSchemas, HasConnections,
         InStep, WrongHash, ForeignSchemas, NoNil, Misfits, Retry;
    RefreshIsDirect(w, c1, sys);
    NotStopped(w, sys);
    var sys1 := Next(w, c1, sys);
    RefreshIsDirect(w, c2, sys1);
    if DirectRefresh(w, sys).Updated? {
      UpdateBringsInStep(w, sys);
      ConnectedHasNoNil(w, sys1);
      SilentWhenInStep(w, sys1);
      NotStopped(w, sys1);
      var sys2 := Next(w, c2, sys1);
      if DirectRefresh(w, sys1).Updated? {
        UpdateBringsInStep(w, sys1);
        ConnectedHasNoNil(w, sys2);
        SilentWhenInStep(w, sys2);
      }
    }
  }

  lemma NotStopped(w: World, sys: System)
    requires !Misfits(w, sys)
    ensures !DirectRefresh(w, sys).Stopped?
  {
    hide Misfits, Current, ForeignSchemas;
  }

  /** From any saved state and any database, for any map iteration order: the third refresh issues no
      query, exactly if the first two end in time without an error; and after one that saved its state, the
      next issues none exactly when no entry was stale and no import lost. */
  lemma RefreshConverges(w: World, c1: Choice, c2: Choice, c3: Choice, sys: System)
    requires Importable(w) && UniformSchemas(w)
    requires ThreeRefreshes(w, c1, c2, c3, sys)
    ensures Refresh(w, c1, sys).Updated? ==> (Refresh(w, c2, Next(w, c1, sys)) == Silent <==> OneUpdate(w, sys))
    ensures Refresh(w, c3, Next(w, c2, Next(w, c1, sys))) == Silent <==> Quiet(w, sys)
  {
    hide Refresh, DirectRefresh, OneUpdate, ValidChoice, Importable, UniformSchemas, NoNil, Misfits, Retry;
    var sys1 := Next(w, c1, sys);
    var sys2 := Next(w, c2, sys1);
    if !Obstructed(w, sys) {
      SettledInTwo(w, c1, c2, sys);
      RefreshIsDirect(w, c2, sys1);
      RefreshIsDirect(w, c3, sys2);
    } else {
      ObstructedStep(w, c1, sys);
      if Obstructed(w, sys1) {
        StaysObstructed(w, c1, c2, sys);
        ObstructedStep(w, c3, sys2);
      } else {
        SettledInTwo(w, c2, c3, sys1);
        RefreshIsDirect(w, c3, sys2);
        RefreshIsDirect(w, c2, sys1);
        if Refresh(w, c2, sys1) == Silent {
          SilentIsOneUpdate(w, sys1);
        }
      }
    }
  }

  lemma SilentIsOneUpdate(w: World, sys: System)
    requires DirectRefresh(w, sys) == Silent
    ensures OneUpdate(w, sys)
  {
    hide Equals, ForeignSchemas, Current, Misfits, Retry;
  }

  // ---------- Runs of any length ----------

  /** The system before refresh number k of a run. */
  ghost function After(w: World, choices: nat -> Choice, sys: System, k: nat): System {
    if k == 0 then sys else Next(w, choices(k - 1), After(w, choices, sys, k - 1))
  }

  ghost predicate ValidRun(w: World, choices: nat -> Choice, sys: System) {
    forall k: nat :: ValidChoice(w, choices(k), After(w, choices, sys, k))
  }

  lemma AfterStep(w: World, choices: nat -> Choice, sys: System, k: nat)
    ensures After(w, choices, sys, k + 1) == Next(w, choices(k), After(w, choices, sys, k))
  {
    hide Next;
  }

  lemma AfterNone(w: World, choices: nat -> Choice, sys: System)
    ensures After(w, choices, sys, 0) == sys
  {
  }

  lemma RunStep(w: World, choices: nat -> Choice, sys: System, k: nat)
    requires ValidRun(w, choices, sys)
    ensures ValidChoice(w, choices(k), After(w, choices, sys, k))
    ensures After(w, choices, sys, k + 1) == Next(w, choices(k), After(w, choices, sys, k))
    ensures After(w, choices, sys, 0) == sys
  {
    hide ValidChoice, Next;
  }

  lemma {:induction false} ObstructedForEver(w: World, choices: nat -> Choice, sys: System, k: nat)
    requires Importable(w) && UniformSchemas(w) && ValidRun(w, choices, sys) && !Settles(w, sys)
    ensures Obstructed(w, After(w, choices, sys, k)) && Obstructed(w, After(w, choices, sys, k + 1))
  {
    hide Refresh, Next, ValidChoice, Importable, UniformSchemas, NoNil, Misfits, Retry, Obstructed, Settles, After,
         ValidRun;
    RunStep(w, choices, sys, k);
    if k == 0 {
      ObstructedAtFirst(w, choices(0), sys);
    } else {
      RunStep(w, choices, sys, k - 1);
      ObstructedForEver(w, choices, sys, k - 1);
      StaysObstructed(w, choices(k - 1), choices(k), After(w, choices, sys, k - 1));
    }
  }

  lemma ObstructedAtFirst(w: World, choice: Choice, sys: System)
    requires Importable(w) && UniformSchemas(w) && ValidChoice(w, choice, sys) && !Settles(w, sys)
    ensures Obstructed(w, sys) && Obstructed(w, Next(w, choice, sys))
  {
    hide Refresh, ValidChoice, Importable, UniformSchemas, NoNil, Misfits, Retry;
    if Obstructed(w, sys) {
      ObstructedStep(w, choice, sys);
    }
  }

  /** In every run, however long: the fourth refresh and all later ones issue no query, exactly if the first
      or the second refresh ends without an error.  Otherwise every refresh ends with one. */
  lemma {:induction false} RefreshSettles(w: World, choices: nat -> Choice, sys: System, k: nat)
    requires Importable(w) && UniformSchemas(w) && ValidRun(w, choices, sys)
    ensures Settles(w, sys) && k >= 3 ==> Refresh(w, choices(k), After(w, choices, sys, k)) == Silent
    ensures !Settles(w, sys) ==>
              var out := Refresh(w, choices(k), After(w, choices, sys, k)); out.Failed? || out.Stopped?
  {
    hide Refresh, DirectRefresh, ValidChoice, Importable, UniformSchemas, NoNil, Misfits, Retry, OneUpdate, After,
         ValidRun, Settles, Obstructed;
    var here := After(w, choices, sys, k);
    RunStep(w, choices, sys, k);
    if !Settles(w, sys) {
      ObstructedForEver(w, choices, sys, k);
      ObstructedStep(w, choices(k), here);
    } else if k > 3 {
      RefreshSettles(w, choices, sys, k - 1);
      RunStep(w, choices, sys, k - 1);
      RefreshIsDirect(w, choices(k - 1), After(w, choices, sys, k - 1));
      RefreshIsDirect(w, choices(k), here);
    } else if k == 3 {
      RunStep(w, choices, sys, 0);
      RunStep(w, choices, sys, 1);
      RunStep(w, choices, sys, 2);
      FourthIsSilent(w, choices(0), choices(1), choices(2), sys, After(w, choices, sys, 1), After(w, choices, sys, 2));
      RefreshIsDirect(w, choices(3), here);
    }
  }

  lemma FourthIsSilent(w: World, c1: Choice, c2: Choice, c3: Choice, sys: System, sys1: System, sys2: System)
    requires Importable(w) && UniformSchemas(w) && Settles(w, sys)
    requires ValidChoice(w, c1, sys) && ValidChoice(w, c2, sys1) && ValidChoice(w, c3, sys2)
    requires sys1 == Next(w, c1, sys) && sys2 == Next(w, c2, sys1)
    ensures var sys3 := Next(w, c3, sys2); NoNil(w, sys3) && DirectRefresh(w, sys3) == Silent
  {
    hide Refresh, DirectRefresh, ValidChoice, Importable, UniformSchemas, NoNil, Misfits, Retry, OneUpdate;
    if Misfits(w, sys) {
      ObstructedStep(w, c1, sys);
      SettledInTwo(w, c2, c3, sys1);
    } else {
      SettledInTwo(w, c1, c2, sys);
      RefreshIsDirect(w, c3, sys2);
    }
  }

  /** A run of three refreshes, each with some map iteration order. */
  ghost predicate ThreeRefreshes(w: World, c1: Choice, c2: Choice, c3: Choice, sys: System)
  {
    && ValidChoice(w, c1, sys)
    && ValidChoice(w, c2, Next(w, c1, sys))
    && ValidChoice(w, c3, Next(w, c2, Next(w, c1, sys)))
  }
}
