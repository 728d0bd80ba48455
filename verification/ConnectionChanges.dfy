/** What a refresh takes for a change, in terms of the config, the state file and the database
    (steampipeconfig/connection_updates.go, connection_data.go, modconfig/connection.go).  */
module ConnectionChanges {
  import opened Connections
  import opened Maps
  import opened Options

  /** The schema of n is there, and its saved entry is about the connection as it is configured: the same plugin,
      installed at the same time, the same name, options and config text. */
  ghost predicate Configured(w: World, sys: System, n: string)
    requires n in w.config
  {
    var c := w.config[n];
    && c.plugin in w.modTimes
    && n in sys.db && sys.db[n].items != {} && n != COMMAND_SCHEMA
    && n in sys.state && sys.state[n].structVersion >= 20211125
    && var e := sys.state[n];
       && e.plugin == c.plugin && e.modTime == w.modTimes[c.plugin]
       && e.connection.Some?
       && e.connection.value.name == c.name
       && e.connection.value.options == c.options
       && e.connection.value.config == c.config
  }

  /** The saved hash of a dynamic schema is that of the schema fetched for its plugin. */
  ghost predicate HashCurrent(w: World, choice: Choice, sys: System, n: string)
    requires n in w.config
  {
    var p := w.config[n].plugin;
    n in sys.state && sys.state[n].schemaMode == "dynamic" ==>
      sys.state[n].schemaHash == w.hash(if p in choice.first then choice.first[p] else n)
  }

  /** A connection is entered for update exactly if its schema is missing, or anything of it changed. */
  lemma OutOfDateExactly(w: World, sys: System, n: string)
    requires AllInstalled(w) && n in w.config
    ensures n in OutOfDate(Required(w), Current(sys.state, ForeignSchemas(sys.db))) <==> !Configured(w, sys, n)
  {
    hide MapOf;
  }

  lemma HashChangedExactly(w: World, choice: Choice, sys: System, n: string)
    requires AllInstalled(w) && n in w.config && Configured(w, sys, n)
    ensures var cur := Current(sys.state, ForeignSchemas(sys.db));
            n in HashChanged(cur, CreatePlugins(w, DynamicNames(Required(w), cur), choice.first))
            <==> !HashCurrent(w, choice, sys, n)
  {
    hide MapOf, Equals;
  }

  /** What is updated, and that the plugins of all updates are loaded. */
  lemma UpdateHas(w: World, choice: Choice, sys: System, n: string)
    requires AllInstalled(w)
    ensures var u := NewUpdates(w, choice, Current(sys.state, ForeignSchemas(sys.db)));
            && (n in u.update <==> n in w.config && (!Configured(w, sys, n) || !HashCurrent(w, choice, sys, n)))
            && (n in u.update ==> n in u.plugins && u.plugins[n].compatible == w.compatible(w.config[n].plugin))
            && (n in u.delete <==> n in Current(sys.state, ForeignSchemas(sys.db)) && n !in w.config)
  {
    hide MapOf, Equals, Current, ForeignSchemas, Configured, HashCurrent, SavedState;
    if n in w.config {
      OutOfDateExactly(w, sys, n);
      if Configured(w, sys, n) {
        HashChangedExactly(w, choice, sys, n);
      }
    }
  }

  lemma UpdateRuns(w: World, u: Updates, n: string)
    requires n in u.update && n in u.plugins && n !in RESERVED_NAMES
    ensures HasQueries(w, u)
  {
    hide Described;
    if u.plugins[n].compatible {
      assert n in Validated(u);
    } else {
      assert n in Dropped(u);
    }
  }

  /** A refresh without queries means that every connection, unless its name is reserved, is in place as it
      is configured, and that no other schema has a saved entry. */
  lemma SilentMeansConfigured(w: World, choice: Choice, sys: System)
    requires Refresh(w, choice, sys) == Silent
    ensures forall n :: n in w.config && n !in {"public", "internal"} ==>
              Configured(w, sys, n) && HashCurrent(w, choice, sys, n)
    ensures forall n :: n in Current(sys.state, ForeignSchemas(sys.db)) ==> n in w.config
  {
    hide MapOf, Current, ForeignSchemas, Configured, HashCurrent, NewUpdates, HasQueries, Panics;
    var u := NewUpdates(w, choice, Current(sys.state, ForeignSchemas(sys.db)));
    forall n | n in w.config && n !in {"public", "internal"}
      ensures Configured(w, sys, n) && HashCurrent(w, choice, sys, n)
    {
      UpdateHas(w, choice, sys, n);
      if n in u.update {
        UpdateRuns(w, u, n);
      }
    }
    forall n | n in Current(sys.state, ForeignSchemas(sys.db)) ensures n in w.config {
      UpdateHas(w, choice, sys, n);
      if n in u.delete {
        DeleteRuns(w, u, n);
      }
    }
  }

  lemma DeleteRuns(w: World, u: Updates, n: string)
    requires n in u.delete
    ensures HasQueries(w, u)
  {
    hide Validated, Dropped, Commented;
  }

  lemma NothingRuns(w: World, u: Updates)
    requires u.update == map[] && u.delete == map[]
    ensures !HasQueries(w, u)
  {
    hide Described;
  }

  /** And when everything is in place as configured, and nothing else has a saved entry, there are none. */
  lemma ConfiguredMeansSilent(w: World, choice: Choice, sys: System)
    requires forall n :: n in w.config ==> Configured(w, sys, n) && HashCurrent(w, choice, sys, n)
    requires forall n :: n in Current(sys.state, ForeignSchemas(sys.db)) ==> n in w.config
    ensures Refresh(w, choice, sys) == Silent
  {
    assert AllInstalled(w);
    hide MapOf, Current, ForeignSchemas, Configured, HashCurrent, NewUpdates, HasQueries, AllInstalled;
    var u := NewUpdates(w, choice, Current(sys.state, ForeignSchemas(sys.db)));
    forall n ensures n !in u.update && n !in u.delete {
      UpdateHas(w, choice, sys, n);
    }
    assert u.update == map[] && u.delete == map[];
    NothingRuns(w, u);
    NothingPanics(w, choice, sys);
  }

  lemma NothingPanics(w: World, choice: Choice, sys: System)
    requires AllInstalled(w)
    requires forall n :: n in w.config ==> Configured(w, sys, n) && HashCurrent(w, choice, sys, n)
    ensures var cur := Current(sys.state, ForeignSchemas(sys.db));
            !Panics(cur, CreatePlugins(w, DynamicNames(Required(w), cur), choice.first))
  {
    var cur := Current(sys.state, ForeignSchemas(sys.db));
    var loaded := CreatePlugins(w, DynamicNames(Required(w), cur), choice.first);
    hide MapOf, Equals, CreatePlugins, Current, ForeignSchemas, HashCurrent, Configured;
    forall n ensures n !in HashChanged(cur, loaded) {
      if n in w.config {
        HashChangedExactly(w, choice, sys, n);
      }
    }
  }

  /** After a refresh that saved its state, the state file has exactly the configured connections, as they are. */
  lemma UpdatedSavesConfig(w: World, choice: Choice, sys: System, n: string)
    requires Refresh(w, choice, sys).Updated?
    ensures var state := Refresh(w, choice, sys).sys.state;
            && (n in state <==> n in w.config)
            && (n in w.config ==>
                  && w.config[n].plugin in w.modTimes
                  && state[n].structVersion == 20211125 && state[n].plugin == w.config[n].plugin
                  && state[n].connection == Some(w.config[n]) && state[n].modTime == w.modTimes[w.config[n].plugin])
  {
    hide MapOf, Equals, Current, ForeignSchemas, HasQueries, DatabaseAfter, CommentsFit, Panics, CreatePlugins,
         UpdateMap, DeleteMap;
  }

  // ---------- What a refresh does to each schema and each entry ----------

  /** A usable entry is saved for n, and its schema is there. */
  predicate SavedAndThere(sys: System, n: string) {
    && n in sys.state && sys.state[n].structVersion >= 20211125
    && n in sys.db && sys.db[n].items != {} && n != COMMAND_SCHEMA
  }

  predicate SavedDynamic(sys: System, n: string) {
    SavedAndThere(sys, n) && sys.state[n].schemaMode == "dynamic"
  }

  ghost predicate ToImport(w: World, choice: Choice, sys: System, n: string) {
    n in w.config && (!Configured(w, sys, n) || !HashCurrent(w, choice, sys, n))
  }

  /** The connections whose plugin is loaded: those to import, and those saved as dynamic. */
  ghost predicate ToLoad(w: World, choice: Choice, sys: System, n: string) {
    n in w.config && (ToImport(w, choice, sys, n) || SavedDynamic(sys, n))
  }

  /** The hash of the schema loaded for n. */
  function LoadedHash(w: World, choice: Choice, sys: System, n: string): string
    requires n in w.config
  {
    var p, rep := w.config[n].plugin, if SavedDynamic(sys, n) then choice.first else choice.second;
    w.hash(if p in rep then rep[p] else n)
  }

  /** n was saved as dynamic, with another hash than that of the schema loaded for it. */
  predicate DynamicChanged(w: World, choice: Choice, sys: System, n: string) {
    n in w.config && SavedDynamic(sys, n) && sys.state[n].schemaHash != LoadedHash(w, choice, sys, n)
  }

  /** The plugin that n is imported from: the saved one if its dynamic schema changed, else the configured one. */
  function Source(w: World, choice: Choice, sys: System, n: string): string
    requires n in w.config
  {
    if DynamicChanged(w, choice, sys, n) then sys.state[n].plugin else w.config[n].plugin
  }

  predicate Allowed(w: World, n: string)
    requires n in w.config
  {
    w.compatible(w.config[n].plugin) && n !in {"public", "internal"}
  }

  lemma CurrentIs(sys: System, n: string)
    ensures n in Current(sys.state, ForeignSchemas(sys.db)) <==> SavedAndThere(sys, n)
  {
    hide MapOf;
  }

  /** The schemas loaded at first are those of the connections saved as dynamic. */
  lemma FirstLoaded(w: World, choice: Choice, sys: System, n: string)
    ensures var cur := Current(sys.state, ForeignSchemas(sys.db));
            var loaded := CreatePlugins(w, DynamicNames(Required(w), cur), choice.first);
            && (n in loaded <==> n in w.config && SavedDynamic(sys, n))
            && (n in loaded ==>
                  var p := w.config[n].plugin;
                  loaded[n] == ConnectionPlugin(p, w.mode(p), LoadedHash(w, choice, sys, n), w.compatible(p)))
            && (n in HashChanged(cur, loaded) <==> DynamicChanged(w, choice, sys, n))
            && (n in cur ==> cur[n] == sys.state[n])
  {
    hide MapOf, ForeignSchemas, SavedAndThere;
    CurrentIs(sys, n);
    assert n in Current(sys.state, ForeignSchemas(sys.db)) ==> SavedAndThere(sys, n) && n in sys.state by {
      ThereIsSaved(sys, n);
    }
  }

  lemma ThereIsSaved(sys: System, n: string)
    ensures SavedAndThere(sys, n) ==> n in sys.state
  {
  }

  /** The plugins that are loaded. */
  lemma PluginsAre(w: World, choice: Choice, sys: System, n: string)
    requires AllInstalled(w)
    ensures var u := NewUpdates(w, choice, Current(sys.state, ForeignSchemas(sys.db)));
            && (n in u.plugins <==> ToLoad(w, choice, sys, n))
            && (n in u.plugins ==>
                  var p := w.config[n].plugin;
                  u.plugins[n] == ConnectionPlugin(p, w.mode(p), LoadedHash(w, choice, sys, n), w.compatible(p)))
  {
    var cur := Current(sys.state, ForeignSchemas(sys.db));
    var loaded := CreatePlugins(w, DynamicNames(Required(w), cur), choice.first);
    var rest := CreatePlugins(w, OutOfDate(Required(w), cur) - loaded.Keys, choice.second);
    FirstLoaded(w, choice, sys, n);
    OnlyRequired(Required(w), cur, n);
    if n in w.config {
      OutOfDateExactly(w, sys, n);
      if !SavedDynamic(sys, n) {
        SecondHash(w, choice, sys, n);
      }
    }
    hide Configured, HashCurrent, SavedDynamic, LoadedHash, Current, ForeignSchemas, OutOfDate, HashChanged,
         DynamicNames, CreatePlugins, SavedState, UpdateMap, DeleteMap;
    assert NewUpdates(w, choice, cur).plugins == rest + loaded;
  }

  lemma OnlyRequired(req: ConnectionDataMap, cur: ConnectionDataMap, n: string)
    ensures n in OutOfDate(req, cur) ==> n in req
  {
    hide Equals;
  }

  lemma SecondHash(w: World, choice: Choice, sys: System, n: string)
    requires n in w.config && !SavedDynamic(sys, n)
    ensures var p := w.config[n].plugin;
            NewConnectionPlugin(w, n, choice.second) ==
            ConnectionPlugin(p, w.mode(p), LoadedHash(w, choice, sys, n), w.compatible(p))
  {
    hide SavedAndThere;
  }

  /** The updates, in these terms. */
  lemma UpdatesAre(w: World, choice: Choice, sys: System, n: string)
    requires AllInstalled(w)
    ensures var u := NewUpdates(w, choice, Current(sys.state, ForeignSchemas(sys.db)));
            && (n in u.update <==> ToImport(w, choice, sys, n))
            && (n in u.delete <==> SavedAndThere(sys, n) && n !in w.config)
            && (n in u.update ==> u.update[n].plugin == Source(w, choice, sys, n))
  {
    UpdateHas(w, choice, sys, n);
    CurrentIs(sys, n);
    FirstLoaded(w, choice, sys, n);
    hide MapOf, Configured, HashCurrent, SavedState, Current, ForeignSchemas, SavedDynamic, LoadedHash, HashChanged,
         OutOfDate, DynamicNames, CreatePlugins, SavedAndThere;
  }

  ghost predicate SomeImport(w: World, choice: Choice, sys: System) {
    exists n :: ToImport(w, choice, sys, n)
  }

  lemma NothingUpdated(w: World, choice: Choice, sys: System)
    requires AllInstalled(w)
    ensures NewUpdates(w, choice, Current(sys.state, ForeignSchemas(sys.db))).update == map[] <==>
            !SomeImport(w, choice, sys)
  {
    hide NewUpdates, Current, ForeignSchemas, ToImport, ToLoad, SavedAndThere, Source, LoadedHash;
    var u := NewUpdates(w, choice, Current(sys.state, ForeignSchemas(sys.db)));
    forall n ensures n in u.update <==> ToImport(w, choice, sys, n) {
      UpdatesAre(w, choice, sys, n);
    }
    if u.update != map[] {
      var n :| n in u.update;
      assert ToImport(w, choice, sys, n);
    }
  }

  /** What becomes of the schema of n, unless the refresh fails or is silent: it is imported anew; or it is
      dropped, as no longer configured or as of an incompatible plugin that was loaded; or it is as before.
      A refresh that stops has not dropped what is no longer configured. */
  lemma SchemaExactly(w: World, choice: Choice, sys: System, n: string)
    requires var out := Refresh(w, choice, sys); out.Updated? || out.Stopped?
    ensures var out := Refresh(w, choice, sys); var db := out.sys.db;
            if n in w.config && ToImport(w, choice, sys, n) && Allowed(w, n) then
              n in db && db[n] == Import(w, Source(w, choice, sys, n), n)
            else if SavedAndThere(sys, n) && n !in w.config && out.Updated? then n !in db
            else if ToLoad(w, choice, sys, n) && !w.compatible(w.config[n].plugin) && SomeImport(w, choice, sys) then
              n !in db
            else (n in db <==> n in sys.db) && (n in db ==> db[n] == sys.db[n])
  {
    hide MapOf, NewUpdates, Current, ForeignSchemas, ToImport, ToLoad, SavedAndThere, Source, LoadedHash, HasQueries,
         CommentsFit, Panics, CreatePlugins, DynamicNames, Required, Import, Described, AllInstalled, SomeImport;
    NothingUpdated(w, choice, sys);
    UpdatesAre(w, choice, sys, n);
    PluginsAre(w, choice, sys, n);
    LoadIfImport(w, choice, sys, n);
  }

  lemma LoadIfImport(w: World, choice: Choice, sys: System, n: string)
    ensures ToImport(w, choice, sys, n) ==> ToLoad(w, choice, sys, n)
    ensures ToLoad(w, choice, sys, n) ==> n in w.config
  {
    hide Configured, HashCurrent, SavedDynamic;
  }

  /** The items of n's schema when the comments are made. */
  ghost function ItemsThen(w: World, choice: Choice, sys: System, n: string): set<string>
    requires n in w.config
  {
    if ToImport(w, choice, sys, n) then Import(w, Source(w, choice, sys, n), n).items
    else if n in sys.db then sys.db[n].items else {}
  }

  /** The schema loaded for n describes an item that n's schema then lacks. */
  ghost predicate Undescribable(w: World, choice: Choice, sys: System, n: string) {
    && ToLoad(w, choice, sys, n) && Allowed(w, n)
    && exists x :: x in w.comments(w.config[n].plugin, LoadedHash(w, choice, sys, n)) &&
                   x !in ItemsThen(w, choice, sys, n)
  }

  lemma UndescribableIs(w: World, choice: Choice, sys: System, n: string)
    requires AllInstalled(w)
    ensures var u := NewUpdates(w, choice, Current(sys.state, ForeignSchemas(sys.db)));
            Undescribable(w, choice, sys, n) <==>
            n in u.plugins && Valid(n, u.plugins[n]) && !Describes(w, u.plugins[n], SchemaAfter(w, u, sys.db, n))
  {
    hide MapOf, NewUpdates, Current, ForeignSchemas, ToImport, ToLoad, SavedAndThere, Source, LoadedHash, Import,
         AllInstalled;
    UpdatesAre(w, choice, sys, n);
    PluginsAre(w, choice, sys, n);
    LoadIfImport(w, choice, sys, n);
  }

  /** A refresh stops exactly if something is imported and some comment is on an item that is not there. */
  lemma StopsExactly(w: World, choice: Choice, sys: System)
    requires Refresh(w, choice, sys) != Failed
    ensures Refresh(w, choice, sys).Stopped? <==>
            SomeImport(w, choice, sys) && exists n :: Undescribable(w, choice, sys, n)
  {
    hide MapOf, NewUpdates, Current, ForeignSchemas, Undescribable, SomeImport, Panics, CreatePlugins, DynamicNames,
         Required, Describes, Valid, SchemaAfter, AllInstalled;
    var u := NewUpdates(w, choice, Current(sys.state, ForeignSchemas(sys.db)));
    NothingUpdated(w, choice, sys);
    forall n
      ensures Undescribable(w, choice, sys, n) <==>
              n in u.plugins && Valid(n, u.plugins[n]) && !Describes(w, u.plugins[n], SchemaAfter(w, u, sys.db, n))
    {
      UndescribableIs(w, choice, sys, n);
    }
    if u.update != map[] && exists n :: Undescribable(w, choice, sys, n) {
      var n :| Undescribable(w, choice, sys, n);
      CommentNeeded(w, u, n, SchemaAfter(w, u, sys.db, n));
    }
  }

  lemma CommentNeeded(w: World, u: Updates, n: string, s: Imported)
    requires u.update != map[] && n in u.plugins && Valid(n, u.plugins[n]) && !Describes(w, u.plugins[n], s)
    ensures HasQueries(w, u)
  {
    hide Valid, Validated, Dropped;
    assert n in Commented(w, u);
  }

  lemma PanicsExactly(w: World, choice: Choice, sys: System)
    ensures var cur := Current(sys.state, ForeignSchemas(sys.db));
            Panics(cur, CreatePlugins(w, DynamicNames(Required(w), cur), choice.first)) <==>
            exists n :: DynamicChanged(w, choice, sys, n) && sys.state[n].connection.None?
  {
    var cur := Current(sys.state, ForeignSchemas(sys.db));
    var loaded := CreatePlugins(w, DynamicNames(Required(w), cur), choice.first);
    assert forall n :: DynamicChanged(w, choice, sys, n) ==> n in sys.state;
    hide MapOf, ForeignSchemas, Current, DynamicChanged, HashChanged, CreatePlugins, DynamicNames, Required;
    forall n
      ensures n in HashChanged(cur, loaded) <==> DynamicChanged(w, choice, sys, n)
      ensures n in HashChanged(cur, loaded) ==> n in cur && cur[n] == sys.state[n]
    {
      FirstLoaded(w, choice, sys, n);
      ChangedIsSaved(cur, loaded, n);
    }
    if exists n :: DynamicChanged(w, choice, sys, n) && sys.state[n].connection.None? {
      var n :| DynamicChanged(w, choice, sys, n) && sys.state[n].connection.None?;
      assert n in HashChanged(cur, loaded);
    }
  }

  /** A refresh fails before any query exactly if a configured plugin is not installed, or a changed dynamic
      schema's entry lacks its connection. */
  lemma FailsExactly(w: World, choice: Choice, sys: System)
    ensures Refresh(w, choice, sys) == Failed <==>
            || (exists n :: n in w.config && w.config[n].plugin !in w.modTimes)
            || exists n :: DynamicChanged(w, choice, sys, n) && sys.state[n].connection.None?
  {
    hide MapOf, ForeignSchemas, HasQueries, CommentsFit, Current, CreatePlugins, NewUpdates, DynamicNames, Required,
         Panics, DynamicChanged, DatabaseAfter, PartialDatabase;
    PanicsExactly(w, choice, sys);
  }

  lemma ChangedIsSaved(cur: ConnectionDataMap, loaded: map<string, ConnectionPlugin>, n: string)
    ensures n in HashChanged(cur, loaded) ==> n in cur
  {
  }

  /** The hash of n's schema known from before or fetched because it was dynamic. */
  function KnownHash(w: World, choice: Choice, sys: System, n: string): string
    requires n in w.config
  {
    if SavedDynamic(sys, n) then LoadedHash(w, choice, sys, n)
    else if SavedAndThere(sys, n) then sys.state[n].schemaHash else ""
  }

  /** The saved mode is that of the loaded plugin, or the old one if none was loaded.  The saved hash is the
      fetched one where the old mode was dynamic, and else the old one, unless the schema is now dynamic and
      there is none. */
  lemma SavedModeAndHash(w: World, choice: Choice, sys: System, sys': System, n: string)
    requires Refresh(w, choice, sys) == Updated(sys') && n in w.config
    ensures var p, known, loaded := w.config[n].plugin, KnownHash(w, choice, sys, n), LoadedHash(w, choice, sys, n);
            n in sys'.state &&
            var e := sys'.state[n];
            if ToLoad(w, choice, sys, n) then
              && e.schemaMode == w.mode(p)
              && e.schemaHash == if w.mode(p) == "dynamic" && known == "" then loaded else known
            else n in sys.state && e.schemaMode == sys.state[n].schemaMode && e.schemaHash == known
  {
    var cur := Current(sys.state, ForeignSchemas(sys.db));
    var loaded := CreatePlugins(w, DynamicNames(Required(w), cur), choice.first);
    var plugins := NewUpdates(w, choice, cur).plugins;
    hide MapOf, ForeignSchemas, ToLoad, Current, HashChanged, LoadedHash, CreatePlugins, DynamicNames, SavedAndThere,
         Required, SavedEntry, NewConnectionData, NewUpdates, Refresh, DynamicChanged, AllInstalled;
    SavedFrom(w, choice, sys, sys', n);
    PluginsAre(w, choice, sys, n);
    CurrentIs(sys, n);
    FirstLoaded(w, choice, sys, n);
    MissingIsLoaded(w, choice, sys, n);
    ThereIsSaved(sys, n);
    SavedIs(n, NewConnectionData(w, n), cur, loaded, plugins);
    NothingSavedYet(w, n);
  }

  lemma NothingSavedYet(w: World, n: string)
    ensures NewConnectionData(w, n).schemaHash == ""
  {
  }

  lemma SavedFrom(w: World, choice: Choice, sys: System, sys': System, n: string)
    requires Refresh(w, choice, sys) == Updated(sys') && n in w.config
    ensures var cur := Current(sys.state, ForeignSchemas(sys.db));
            && AllInstalled(w) && n in sys'.state
            && sys'.state[n] == SavedEntry(n, NewConnectionData(w, n), cur,
                CreatePlugins(w, DynamicNames(Required(w), cur), choice.first), NewUpdates(w, choice, cur).plugins)
  {
    hide MapOf, ForeignSchemas, Current, UpdateMap, DeleteMap, OutOfDate, CreatePlugins, DynamicNames, Panics,
         HasQueries, CommentsFit, DatabaseAfter, AllInstalled, SavedEntry, NewConnectionData;
  }

  lemma SavedIs(n: string, r: ConnectionData, cur: ConnectionDataMap,
                loaded: map<string, ConnectionPlugin>, plugins: map<string, ConnectionPlugin>)
    ensures var e := SavedEntry(n, r, cur, loaded, plugins);
            var known := if n in loaded then loaded[n].hash else if n in cur then cur[n].schemaHash else r.schemaHash;
            && (n in plugins ==>
                  && e.schemaMode == plugins[n].mode
                  && e.schemaHash == if plugins[n].mode == DYNAMIC && known == "" then plugins[n].hash else known)
            && (n !in plugins && n in cur ==> e.schemaMode == cur[n].schemaMode && e.schemaHash == known)
  {
  }

  lemma MissingIsLoaded(w: World, choice: Choice, sys: System, n: string)
    requires n in w.config
    ensures !SavedAndThere(sys, n) ==> ToLoad(w, choice, sys, n)
  {
  }
}
