/** Connections of one plugin with different schemas: why one schema per plugin is necessary
    (steampipeconfig/connection_updates.go, steampipeconfig/connection_plugin.go).  */
module ConnectionRivals {
  import opened Connections
  import opened ConnectionConvergence
  import opened Maps
  import opened Options

  function FlipEntry(w: World, n: string, m: string, h: string, k: string): ConnectionData {
    if k == n || k == m then NewConnectionData(w, k).(schemaMode := DYNAMIC, schemaHash := h)
        else NewConnectionData(w, k)
  }

  /** All entries up to date, n and m saved as dynamic with hash h, all schemas in place. */
  ghost function Flip(w: World, n: string, m: string, h: string): (sys: System)
    ensures sys.state.Keys == w.config.Keys && sys.db.Keys == w.config.Keys
    ensures forall k :: k in w.config ==>
      sys.state[k] == FlipEntry(w, n, m, h, k) && sys.db[k] == Import(w, PluginOf(w, k), k)
  {
    System(MapOf(w.config.Keys, k => FlipEntry(w, n, m, h, k)),
           MapOf(w.config.Keys, k => Import(w, PluginOf(w, k), k)))
  }

  /** Fetching the schema of r's plugin through r. */
  function Through(w: World, r: string): Choice {
    Choice(map[PluginOf(w, r) := r], map[])
  }

  lemma FlipCurrent(w: World, n: string, m: string, h: string)
    requires Importable(w)
    ensures var sys := Flip(w, n, m, h);
            Current(sys.state, ForeignSchemas(sys.db)) == sys.state && HasConnections(sys.state)
  {
    hide Flip, Equals, Current, Importable, Import;
    var sys := Flip(w, n, m, h);
    forall k | k in w.config
      ensures k in ForeignSchemas(sys.db) && sys.state[k].structVersion == STRUCT_VERSION
      ensures sys.state[k].connection.Some?
    {
      ImportableName(w, k);
      assert sys.state[k] == FlipEntry(w, n, m, h, k);
    }
  }

  lemma FlipEntryFacts(w: World, n: string, m: string, h: string, k: string)
    requires Importable(w) && k in w.config
    ensures var e := Flip(w, n, m, h).state[k];
            && Equals(e, NewConnectionData(w, k))
            && (e.schemaMode == DYNAMIC <==> k == n || k == m)
            && (k == n || k == m ==> e.schemaHash == h)
  {
    hide Flip, Importable;
    ImportableName(w, k);
    assert Flip(w, n, m, h).state[k] == FlipEntry(w, n, m, h, k);
  }

  lemma FlipNames(w: World, n: string, m: string, h: string)
    requires Importable(w) && Rivals(w, n, m)
    ensures var cur := Flip(w, n, m, h).state;
            && DynamicNames(Required(w), cur) == {n, m}
            && OutOfDate(Required(w), cur) == {}
            && DeleteMap(Required(w), cur) == map[]
  {
    hide MapOf, Flip, Required, Equals, NewConnectionData, Importable;
    var cur := Flip(w, n, m, h).state;
    forall k | k in w.config ensures Equals(cur[k], NewConnectionData(w, k)) &&
        (cur[k].schemaMode == DYNAMIC <==> k == n || k == m) {
      FlipEntryFacts(w, n, m, h, k);
    }
    assert DynamicNames(Required(w), cur) == {n, m};
  }

  ghost function LoadedThrough(w: World, n: string, m: string, r: string): map<string, ConnectionPlugin> {
    CreatePlugins(w, {n, m}, Through(w, r).first)
  }

  lemma FlipChanged(w: World, n: string, m: string, h: string, r: string)
    requires Importable(w) && Rivals(w, n, m) && (r == n || r == m)
    ensures HashChanged(Flip(w, n, m, h).state, LoadedThrough(w, n, m, r)) == if w.hash(r) == h then {} else {n, m}
  {
    hide MapOf, Flip, CreatePlugins, Equals, NewConnectionData, Importable;
    var cur, loaded := Flip(w, n, m, h).state, LoadedThrough(w, n, m, r);
    FlipEntryFacts(w, n, m, h, n);
    FlipEntryFacts(w, n, m, h, m);
    assert loaded[n].hash == w.hash(r) && loaded[m].hash == w.hash(r);
    assert loaded.Keys == {n, m};
  }

  lemma NoneCreated(w: World, loaded: map<string, ConnectionPlugin>)
    ensures CreatePlugins(w, {} - loaded.Keys, map[]) + loaded == loaded
  {
    hide CreatePlugins;
    assert CreatePlugins(w, {} - loaded.Keys, map[]) == map[];
  }

  /** The entries of n and m are brought up to date exactly when the fetched hash is not the saved one. */
  lemma FlipUpdates(w: World, n: string, m: string, h: string, r: string)
    requires Importable(w) && Rivals(w, n, m) && (r == n || r == m)
    ensures var cur := Flip(w, n, m, h).state; var loaded := LoadedThrough(w, n, m, r);
            && ValidFor(w, Through(w, r), cur)
            && CreatePlugins(w, DynamicNames(Required(w), cur), Through(w, r).first) == loaded
            && NewUpdates(w, Through(w, r), cur)
               == Updates(UpdateMap(Required(w), cur, loaded), map[], SavedState(Required(w), cur, loaded, loaded),
                   loaded)
  {
    hide MapOf, Flip, Equals, CreatePlugins, Required, DynamicNames, OutOfDate, DeleteMap, UpdateMap, SavedState,
         Importable;
    FlipNames(w, n, m, h);
    var cur, loaded := Flip(w, n, m, h).state, LoadedThrough(w, n, m, r);
    NoneCreated(w, loaded);
  }

  lemma FlipSaved(w: World, n: string, m: string, h: string, r: string)
    requires Importable(w) && Rivals(w, n, m) && (r == n || r == m) && w.mode(w.config[n].plugin) == DYNAMIC
    ensures var loaded := LoadedThrough(w, n, m, r);
            SavedState(Required(w), Flip(w, n, m, h).state, loaded, loaded) == Flip(w, n, m, w.hash(r)).state
  {
    hide MapOf, Flip, FlipEntry, Equals, CreatePlugins, Required, LoadedThrough, SavedEntry, SavedState, Importable,
         NewConnectionData;
    var cur, loaded := Flip(w, n, m, h).state, LoadedThrough(w, n, m, r);
    var a, b := SavedState(Required(w), cur, loaded, loaded), Flip(w, n, m, w.hash(r)).state;
    forall k | k in w.config ensures a[k] == b[k] {
      FlipSavedEntry(w, n, m, h, r, k);
      assert Required(w)[k] == NewConnectionData(w, k);
    }
  }

  lemma FlipSavedEntry(w: World, n: string, m: string, h: string, r: string, k: string)
    requires Importable(w) && Rivals(w, n, m) && (r == n || r == m) && w.mode(w.config[n].plugin) == DYNAMIC
    requires k in w.config
    ensures var loaded := LoadedThrough(w, n, m, r);
            SavedEntry(k, NewConnectionData(w, k), Flip(w, n, m, h).state, loaded, loaded) ==
                FlipEntry(w, n, m, w.hash(r), k)
  {
    hide MapOf, Flip, Equals, CreatePlugins, Required, Importable;
    ImportableName(w, k);
    assert Flip(w, n, m, h).state[k] == FlipEntry(w, n, m, h, k);
  }

  /** Importing again what is already there changes nothing. */
  lemma DatabaseUnchanged(w: World, u: Updates, db: Database)
    requires Validated(u) <= db.Keys && Dropped(u) == {} && u.delete == map[]
    requires forall k :: k in Validated(u) ==> db[k] == Import(w, Entry(u.update, k).plugin, k)
    ensures DatabaseAfter(w, u, db) == db && PartialDatabase(w, u, db) == db
  {
    hide DatabaseAfter, PartialDatabase, Validated, Dropped, Entry, Import;
    var a, b := DatabaseAfter(w, u, db), PartialDatabase(w, u, db);
    assert a.Keys == db.Keys && b.Keys == db.Keys;
    forall k | k in db ensures a[k] == db[k] && b[k] == db[k] {
      assert a[k] == SchemaAfter(w, u, db, k) && b[k] == SchemaAfter(w, u, db, k);
    }
  }

  lemma FlipDatabases(w: World, n: string, m: string, h: string, h': string)
    ensures Flip(w, n, m, h).db == Flip(w, n, m, h').db
  {
    hide Flip, FlipEntry;
  }

  lemma FlipUpdateKeys(w: World, n: string, m: string, h: string, r: string, u: Updates)
    requires Importable(w) && Rivals(w, n, m) && (r == n || r == m)
    requires u == NewUpdates(w, Through(w, r), Flip(w, n, m, h).state)
    ensures u.delete == map[] && u.plugins == LoadedThrough(w, n, m, r)
    ensures u.update.Keys == if w.hash(r) == h then {} else {n, m}
    ensures forall k :: k in u.update ==> u.update[k].plugin == PluginOf(w, k)
  {
    hide MapOf, Flip, Equals, Required, DynamicNames, OutOfDate, NewUpdates, HashChanged, SavedState, Through,
         Importable, UpdateMap, LoadedThrough, DeleteMap, ValidFor, FlipEntry, UpdateEntry, Rivals, PluginOf,
         CreatePlugins;
    FlipNames(w, n, m, h);
    FlipUpdates(w, n, m, h, r);
    FlipChanged(w, n, m, h, r);
    var cur, loaded := Flip(w, n, m, h).state, LoadedThrough(w, n, m, r);
    forall k | k in u.update ensures u.update[k].plugin == PluginOf(w, k) {
      FlipUpdateEntry(w, n, m, h, loaded, k);
    }
  }

  lemma FlipNoPanic(w: World, n: string, m: string, h: string, loaded: map<string, ConnectionPlugin>)
    requires Importable(w)
    ensures !Panics(Flip(w, n, m, h).state, loaded)
  {
    hide Flip, Importable;
    var cur := Flip(w, n, m, h).state;
    forall k | k in HashChanged(cur, loaded) ensures cur[k].connection.Some? {
      ImportableName(w, k);
      assert cur[k] == FlipEntry(w, n, m, h, k);
    }
  }

  lemma FlipUpdateEntry(w: World, n: string, m: string, h: string, loaded: map<string, ConnectionPlugin>, k: string)
    requires Importable(w)
    ensures UpdateEntry(Required(w), Flip(w, n, m, h).state, loaded, k).plugin == PluginOf(w, k)
  {
    hide Flip, Required, Importable;
    if k in w.config {
      ImportableName(w, k);
      assert Flip(w, n, m, h).state[k] == FlipEntry(w, n, m, h, k);
      assert Required(w)[k] == NewConnectionData(w, k);
    }
  }

  lemma ValidUpdates(w: World, u: Updates)
    requires u.update.Keys <= u.plugins.Keys && u.delete == map[]
    requires forall k :: k in u.plugins ==> Valid(k, u.plugins[k])
    ensures Validated(u) == u.update.Keys && Dropped(u) == {}
    ensures HasQueries(w, u) <==> u.update != map[]
  {
    assert Validated(u) == u.update.Keys;
    if u.update != map[] {
      var n :| n in u.update;
      assert n in Validated(u);
    }
  }

  lemma FlipValidated(w: World, n: string, m: string, h: string, r: string, u: Updates)
    requires Importable(w) && Rivals(w, n, m) && (r == n || r == m)
    requires u == NewUpdates(w, Through(w, r), Flip(w, n, m, h).state)
    ensures HasQueries(w, u) <==> w.hash(r) != h
    ensures Validated(u) == u.update.Keys && Dropped(u) == {} && u.delete == map[]
    ensures forall k :: k in u.plugins ==> Valid(k, u.plugins[k])
    ensures var db := Flip(w, n, m, h).db;
            && DatabaseAfter(w, u, db) == Flip(w, n, m, w.hash(r)).db
            && PartialDatabase(w, u, db) == db
  {
    hide MapOf, Flip, Equals, CreatePlugins, NewUpdates, Through, DatabaseAfter, PartialDatabase, Importable,
         LoadedThrough, PluginOf, Rivals, Valid, Validated, Dropped, HasQueries, Import;
    FlipUpdateKeys(w, n, m, h, r, u);
    FlipUpdateSubset(w, n, m, h, r, u);
    forall k | k in u.plugins ensures Valid(k, u.plugins[k]) {
      ValidPlugin(w, n, m, r, k);
    }
    ValidUpdates(w, u);
    assert u.update == map[] <==> u.update.Keys == {};
    DatabaseUnchanged(w, u, Flip(w, n, m, h).db);
    FlipDatabases(w, n, m, h, w.hash(r));
  }

  lemma FlipUpdateSubset(w: World, n: string, m: string, h: string, r: string, u: Updates)
    requires Rivals(w, n, m) && u.update.Keys <= {n, m} && u.plugins == LoadedThrough(w, n, m, r)
    ensures u.update.Keys <= w.config.Keys && u.update.Keys <= u.plugins.Keys && u.plugins.Keys == {n, m}
  {
    hide CreatePlugins;
  }

  lemma ValidPlugin(w: World, n: string, m: string, r: string, k: string)
    requires Importable(w) && Rivals(w, n, m) && k in {n, m}
    ensures k in LoadedThrough(w, n, m, r) && Valid(k, LoadedThrough(w, n, m, r)[k])
  {
    hide CreatePlugins, Importable;
    ImportableName(w, k);
    assert LoadedThrough(w, n, m, r)[k] == NewConnectionPlugin(w, k, Through(w, r).first);
  }

  /** Everything that r's schema describes is in the other's schema. */
  ghost predicate Covers(w: World, r: string, other: string) {
    forall x :: x in w.comments(PluginOf(w, r), w.hash(r)) ==> x in Import(w, PluginOf(w, r), other).items
  }

  lemma TwoFit(w: World, u: Updates, db: Database, r: string, other: string)
    requires u.update != map[] && u.plugins.Keys == {r, other} && forall k :: k in u.plugins ==> Valid(k, u.plugins[k])
    requires Describes(w, u.plugins[r], SchemaAfter(w, u, db, r))
    ensures CommentsFit(w, u, db) <==> Describes(w, u.plugins[other], SchemaAfter(w, u, db, other))
  {
    hide Valid, Describes, SchemaAfter;
  }

  lemma FlipFits(w: World, n: string, m: string, h: string, r: string, other: string, u: Updates)
    requires Importable(w) && Rivals(w, n, m) && {r, other} == {n, m}
    requires u == NewUpdates(w, Through(w, r), Flip(w, n, m, h).state) && w.hash(r) != h
    ensures CommentsFit(w, u, Flip(w, n, m, h).db) <==> Covers(w, r, other)
  {
    hide MapOf, Flip, Equals, CreatePlugins, NewUpdates, Importable, LoadedThrough, Valid, Validated, Import, Described,
         HasQueries, Dropped, CommentsFit, DatabaseAfter, PartialDatabase, LivePlugin;
    var db := Flip(w, n, m, h).db;
    FlipUpdateKeys(w, n, m, h, r, u);
    FlipValidated(w, n, m, h, r, u);
    assert u.update.Keys == {n, m} && n in u.update;
    FlipPlugin(w, n, m, r);
    DescribesItself(w, r);
    TwoFit(w, u, db, r, other);
  }

  lemma FlipPlugin(w: World, n: string, m: string, r: string)
    requires Importable(w) && Rivals(w, n, m) && (r == n || r == m)
    ensures var p := LoadedThrough(w, n, m, r);
            && p.Keys == {n, m}
            && forall k :: k in {n, m} ==>
                 p[k] == LivePlugin(w, r) && Described(w, p[k]) == w.comments(PluginOf(w, r), w.hash(r))
  {
    hide CreatePlugins, Importable;
  }

  /** Fetching through r is silent exactly when the saved hash is r's.  Otherwise it saves r's hash if all
      that r's schema describes is found in the other's, and else stops and changes nothing. */
  lemma FlipStep(w: World, n: string, m: string, h: string, r: string, other: string)
    requires Importable(w) && Rivals(w, n, m) && {r, other} == {n, m}
    ensures var sys := Flip(w, n, m, h); var out := Refresh(w, Through(w, r), sys);
            && ValidChoice(w, Through(w, r), sys) && HasConnections(sys.state)
            && (out == Silent <==> w.hash(r) == h)
            && (out.Updated? <==> w.hash(r) != h && Covers(w, r, other))
            && (w.hash(r) != h && !Covers(w, r, other) ==> out == Stopped(sys))
            && (out.Updated? && w.mode(w.config[n].plugin) == DYNAMIC ==> out == Updated(Flip(w, n, m, w.hash(r))))
  {
    hide MapOf, Flip, Equals, ForeignSchemas, Current, SavedEntry, SavedState, NewUpdates, ValidFor, HashChanged,
         OutOfDate, DynamicNames, Importable, CreatePlugins, HasQueries, Validated, Dropped, DatabaseAfter, Through,
         UpdateMap, Required, Panics, LoadedThrough, PartialDatabase, CommentsFit, Covers;
    ImportableInstalled(w);
    FlipCurrent(w, n, m, h);
    FlipUpdates(w, n, m, h, r);
    var sys := Flip(w, n, m, h);
    var u := NewUpdates(w, Through(w, r), sys.state);
    FlipValidated(w, n, m, h, r, u);
    FlipNoPanic(w, n, m, h, LoadedThrough(w, n, m, r));
    if w.hash(r) != h {
      FlipFits(w, n, m, h, r, other, u);
      if w.mode(w.config[n].plugin) == DYNAMIC {
        FlipSaved(w, n, m, h, r);
      }
    }
  }

  lemma FlipQuiet(w: World, n: string, m: string)
    requires Importable(w) && Rivals(w, n, m)
    ensures Quiet(w, Flip(w, n, m, w.hash(n)))
  {
    hide MapOf, Equals, ForeignSchemas, Current, Importable, OneUpdate, Retry, Flip, HasConnections, Describes, Import,
         LivePlugin;
    var sys := Flip(w, n, m, w.hash(n));
    FlipCurrent(w, n, m, w.hash(n));
    ConnectedHasNoNil(w, sys);
    forall k ensures !Misfit(w, sys.state, sys.db, k) {
      if k in w.config {
        FlipEntryFacts(w, n, m, w.hash(n), k);
        EqualsPlugin(w, sys.state[k], k);
        DescribesItself(w, k);
      }
    }
  }

  /** The third refresh is silent exactly from the state files and databases where it can be, if and only if
      connections of one plugin have one schema. */
  lemma ConvergesIffUniform(w: World)
    requires Importable(w)
    ensures UniformSchemas(w) <==>
            forall c1, c2, c3, sys :: ThreeRefreshes(w, c1, c2, c3, sys)
              ==> (Refresh(w, c3, Next(w, c2, Next(w, c1, sys))) == Silent <==> Quiet(w, sys))
  {
    hide MapOf, Refresh, ValidChoice, Importable, HasConnections, Flip, Quiet, Covers;
    ImportableInstalled(w);
    if UniformSchemas(w) {
      forall c1, c2, c3, sys | ThreeRefreshes(w, c1, c2, c3, sys)
        ensures Refresh(w, c3, Next(w, c2, Next(w, c1, sys))) == Silent <==> Quiet(w, sys)
      {
        RefreshConverges(w, c1, c2, c3, sys);
      }
    } else {
      var n, m :| Rivals(w, n, m);
      var sys := Flip(w, n, m, w.hash(n));
      FlipStep(w, n, m, w.hash(n), n, m);
      FlipStep(w, n, m, w.hash(n), m, n);
      FlipQuiet(w, n, m);
      assert ThreeRefreshes(w, Through(w, n), Through(w, n), Through(w, m), sys);
    }
  }

  function Other(n: string, m: string, k: string): string {
    if k == n then m else n
  }

  /** The rival whose hash is saved before refresh number k, when the schema is always fetched through the
      other one: they change places if the other's descriptions can be put on both schemas. */
  ghost function Holder(w: World, n: string, m: string, k: nat): (h: string)
    ensures h == n || h == m
  {
    if k == 0 then n
    else
      var h := Holder(w, n, m, k - 1);
      if Covers(w, Other(n, m, h), h) then Other(n, m, h) else h
  }

  ghost function RivalChoices(w: World, n: string, m: string): nat -> Choice {
    (k: nat) => Through(w, Other(n, m, Holder(w, n, m, k)))
  }

  lemma RivalStep(w: World, n: string, m: string, h: string)
    requires Importable(w) && Rivals(w, n, m) && w.mode(w.config[n].plugin) == DYNAMIC && (h == n || h == m)
    ensures var sys, other := Flip(w, n, m, w.hash(h)), Other(n, m, h);
            && ValidChoice(w, Through(w, other), sys)
            && Refresh(w, Through(w, other), sys)
               == if Covers(w, other, h) then Updated(Flip(w, n, m, w.hash(other))) else Stopped(sys)
  {
    hide MapOf, Refresh, ValidChoice, Importable, HasConnections, Flip, Covers, Through;
    FlipStep(w, n, m, w.hash(h), Other(n, m, h), h);
  }

  lemma RivalChoice(w: World, n: string, m: string, k: nat)
    ensures RivalChoices(w, n, m)(k) == Through(w, Other(n, m, Holder(w, n, m, k)))
  {
    hide Holder, Through, Other;
  }

  lemma {:induction false} RivalsAfter(w: World, n: string, m: string, k: nat)
    requires Importable(w) && Rivals(w, n, m) && w.mode(w.config[n].plugin) == DYNAMIC
    ensures After(w, RivalChoices(w, n, m), Flip(w, n, m, w.hash(n)), k) == Flip(w, n, m, w.hash(Holder(w, n, m, k)))
  {
    hide MapOf, Refresh, ValidChoice, Importable, HasConnections, Flip, Covers, Through, After, Rivals, RivalChoices;
    var sys, choices := Flip(w, n, m, w.hash(n)), RivalChoices(w, n, m);
    if k > 0 {
      RivalsAfter(w, n, m, k - 1);
      RivalChoice(w, n, m, k - 1);
      RivalStep(w, n, m, Holder(w, n, m, k - 1));
      AfterStep(w, choices, sys, k - 1);
    } else {
      AfterNone(w, choices, sys);
    }
  }

  /** Two connections of a dynamic plugin with different schemas can keep refreshing busy for ever: in this
      run every refresh issues queries, and either saves the other's hash or stops with an error. */
  lemma RivalsNeverSettle(w: World, n: string, m: string)
    requires Importable(w) && Rivals(w, n, m) && w.mode(w.config[n].plugin) == DYNAMIC
    ensures var choices := RivalChoices(w, n, m); var sys := Flip(w, n, m, w.hash(n));
            && ValidRun(w, choices, sys)
            && forall k: nat :: var out := Refresh(w, choices(k), After(w, choices, sys, k));
                 if Covers(w, Other(n, m, Holder(w, n, m, k)), Holder(w, n, m, k)) then out.Updated? else out.Stopped?
  {
    hide MapOf, Refresh, ValidChoice, Importable, HasConnections, Flip, Covers, RivalChoices, After, Holder, Other,
         Through, Rivals;
    var choices := RivalChoices(w, n, m);
    var sys := Flip(w, n, m, w.hash(n));
    forall k: nat
      ensures ValidChoice(w, choices(k), After(w, choices, sys, k))
      ensures var out := Refresh(w, choices(k), After(w, choices, sys, k));
              if Covers(w, Other(n, m, Holder(w, n, m, k)), Holder(w, n, m, k)) then out.Updated? else out.Stopped?
    {
      RivalsAfter(w, n, m, k);
      RivalChoice(w, n, m, k);
      RivalStep(w, n, m, Holder(w, n, m, k));
    }
  }
}
