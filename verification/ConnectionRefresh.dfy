/** The refresh as the program carries it out, map entry by map entry in whatever order
    (steampipeconfig/connection_updates.go, connection_state.go, connection_data_map.go,
    connection_plugin.go, connection_validation.go, db/db_local/local_db_client_connections.go).  */
module ConnectionRefresh {
  import opened Connections
  import opened ConnectionQueries
  import opened ConnectionSchemas
  import Maps
  import opened Options

  // ---------- The state file ----------

  /** Removes the entries written by an older version. */
  method FilterVersions(file: ConnectionDataMap) returns (state: ConnectionDataMap)
    ensures forall n :: n in state <==> n in file && file[n].structVersion >= STRUCT_VERSION
    ensures forall n :: n in state ==> state[n] == file[n]
  {
    state := file;
    var keys := file.Keys;
    while keys != {}
      invariant keys <= file.Keys
      invariant forall n :: n in state <==> n in file && (n in keys || file[n].structVersion >= STRUCT_VERSION)
      invariant forall n :: n in state ==> state[n] == file[n]
      decreases keys
    {
      var n :| n in keys;
      keys := keys - {n};
      if file[n].structVersion < STRUCT_VERSION {
        state := state - {n};
      }
    }
  }

  method GetConnectionState(file: ConnectionDataMap, schemaNames: seq<string>) returns (state: ConnectionDataMap)
    ensures state == Current(file, set n | n in schemaNames)
  {
    hide Current;
    var loaded := FilterVersions(file);
    state := map[];
    for i := 0 to |schemaNames|
      invariant forall n :: n in state <==> n in loaded && n in schemaNames[..i]
      invariant forall n :: n in state ==> state[n] == loaded[n]
    {
      if schemaNames[i] in loaded {
        state := state[schemaNames[i] := loaded[schemaNames[i]]];
      }
      assert schemaNames[..i + 1] == schemaNames[..i] + [schemaNames[i]];
    }
    assert schemaNames[..|schemaNames|] == schemaNames;
    SameMap(state, Current(file, set n | n in schemaNames));
  }

  lemma SameMap<V>(a: map<string, V>, b: map<string, V>)
    requires a.Keys == b.Keys && forall n :: n in a ==> a[n] == b[n]
    ensures a == b
  {
  }

  // ---------- The required connections ----------

  /** The required connections, and the plugins that are not installed. */
  method NewConnectionDataMap(w: World) returns (required: ConnectionDataMap, missingPlugins: seq<string>)
    ensures missingPlugins == [] <==> AllInstalled(w)
    ensures forall p :: p in missingPlugins <==>
              p !in w.modTimes && exists n :: n in w.config && w.config[n].plugin == p
    ensures missingPlugins == [] ==> required == Required(w)
  {
    hide Required, Maps.MapOf;
    required, missingPlugins := map[], [];
    var names := w.config.Keys;
    ghost var seen := {};
    while names != {}
      invariant names + seen == w.config.Keys
      invariant forall p :: p in missingPlugins <==>
                  p !in w.modTimes && exists n :: n in seen && w.config[n].plugin == p
      invariant forall n :: n in required <==> n in seen && w.config[n].plugin in w.modTimes
      invariant forall n :: n in required ==> required[n] == NewConnectionData(w, n)
      decreases names
    {
      var n :| n in names;
      names, seen := names - {n}, seen + {n};
      var p := w.config[n].plugin;
      if p !in w.modTimes {
        if p !in missingPlugins {
          missingPlugins := missingPlugins + [p];
        }
      } else {
        required := required[n := ConnectionData(STRUCT_VERSION, p, Some(w.config[n]), "", "", w.modTimes[p])];
      }
    }
    assert seen == w.config.Keys;
    if missingPlugins == [] {
      forall n | n in w.config ensures w.config[n].plugin in w.modTimes {
        assert w.config[n].plugin !in missingPlugins;
      }
      SameMap(required, Required(w));
    } else {
      assert missingPlugins[0] in missingPlugins;
    }
  }

  /** The connections of a map, in some order. */
  method ConnectionsOf(w: World, names: set<string>) returns (cs: seq<Connection>)
    requires WellFormed(w) && names <= w.config.Keys
    ensures DistinctNames(cs)
    ensures forall i :: 0 <= i < |cs| ==> cs[i].name in names && w.config[cs[i].name] == cs[i]
    ensures forall n :: n in names ==> exists i :: 0 <= i < |cs| && cs[i].name == n
  {
    cs := [];
    var todo := names;
    while todo != {}
      invariant todo <= names && DistinctNames(cs)
      invariant forall i :: 0 <= i < |cs| ==>
                  cs[i].name in names && cs[i].name !in todo && w.config[cs[i].name] == cs[i]
      invariant forall n :: n in names ==> n in todo || exists i :: 0 <= i < |cs| && cs[i].name == n
      decreases todo
    {
      var n :| n in todo;
      ghost var before := cs;
      todo, cs := todo - {n}, cs + [w.config[n]];
      forall m | m in names && m !in todo ensures exists i :: 0 <= i < |cs| && cs[i].name == m {
        if m == n {
          assert cs[|cs| - 1].name == n;
        } else {
          var i :| 0 <= i < |before| && before[i].name == m;
          assert cs[i].name == m;
        }
      }
    }
  }

  // ---------- Connection plugins ----------

  lemma AllLoadedServed(w: World, cs: seq<Connection>, names: set<string>, rep: map<string, string>, i: nat)
    requires i < |cs| && ValidRepresentatives(w, names, rep) && cs[i].name in w.config && w.config[cs[i].name] == cs[i]
    requires forall j :: 0 <= j < |cs| ==> cs[j].name in names
    ensures PopulatedSchema(w, cs, names, rep, i) == Some(Fetch(w, rep[cs[i].plugin]))
    ensures cs[i].plugin in rep && !SharesWithUnloaded(w, cs, names)
  {
    hide Head, LoadedModes, Fetch;
  }

  lemma PluginByName(w: World, cs: seq<Connection>, names: set<string>, rep: map<string, string>, i: nat)
    requires i < |cs| && cs[i].name in names && ValidRepresentatives(w, names, rep) && cs[i].name in w.config &&
             w.config[cs[i].name] == cs[i]
    ensures var p := cs[i].plugin;
            p in rep && NewConnectionPlugin(w, cs[i].name, rep)
                        == ConnectionPlugin(p, Fetch(w, rep[p]).mode, Fetch(w, rep[p]).hash, w.compatible(p))
  {
  }

  /** Starts a plugin for each of the connections. */
  method StartPlugins(w: World, connections: seq<Connection>) returns (plugins: map<string, LoadedPlugin>)
    requires DistinctNames(connections)
    requires forall i :: 0 <= i < |connections| ==>
             connections[i].name in w.config && w.config[connections[i].name] == connections[i]
    ensures PluginsOf(w, connections, plugins)
    ensures forall n :: n in plugins ==> fresh(plugins[n]) && plugins[n].schema == None
    ensures forall i :: 0 <= i < |connections| ==> connections[i].name in plugins
  {
    plugins := map[];
    for i := 0 to |connections|
      invariant PluginsOf(w, connections, plugins)
      invariant forall n :: n in plugins ==> fresh(plugins[n]) && plugins[n].schema == None
      invariant forall j :: 0 <= j < i ==> connections[j].name in plugins
    {
      var c := connections[i];
      var p := new LoadedPlugin(c.name, c.plugin);
      plugins := plugins[c.name := p];
    }
  }

  /** Connection i has the schema that its plugin's representative gave. */
  ghost predicate Served(w: World, cs: seq<Connection>, plugins: map<string, LoadedPlugin>, rep: map<string, string>,
                         i: nat)
    requires i < |cs|
    reads plugins.Values
  {
    && cs[i].name in plugins && plugins[cs[i].name].schema.Some?
    && var s := plugins[cs[i].name].schema.value;
       ConnectionPlugin(cs[i].plugin, s.mode, s.hash, w.compatible(cs[i].plugin))
       == NewConnectionPlugin(w, cs[i].name, rep)
  }

  /** All plugins are loaded, so that no connection is left without a schema. */
  lemma AllServedPlugins(w: World, cs: seq<Connection>, plugins: map<string, LoadedPlugin>, rep: map<string, string>,
                         panicked: bool)
    requires ValidRepresentatives(w, plugins.Keys, rep)
    requires forall i :: 0 <= i < |cs| ==>
               cs[i].name in plugins && cs[i].name in w.config && w.config[cs[i].name] == cs[i]
    requires panicked <==> SharesWithUnloaded(w, cs, plugins.Keys)
    requires !panicked ==> forall i :: 0 <= i < |cs| ==>
               plugins[cs[i].name].schema == PopulatedSchema(w, cs, plugins.Keys, rep, i)
    ensures forall i :: 0 <= i < |cs| ==> Served(w, cs, plugins, rep, i)
  {
    hide SharesWithUnloaded, PopulatedSchema, Fetch, NewConnectionPlugin, ValidRepresentatives;
    forall i | 0 <= i < |cs| ensures Served(w, cs, plugins, rep, i) {
      AllLoadedServed(w, cs, plugins.Keys, rep, i);
      PluginByName(w, cs, plugins.Keys, rep, i);
    }
  }

  method ConnectionPluginsOf(w: World, cs: seq<Connection>, plugins: map<string, LoadedPlugin>,
                             ghost rep: map<string, string>)
    returns (res: map<string, ConnectionPlugin>)
    requires forall i :: 0 <= i < |cs| ==> Served(w, cs, plugins, rep, i)
    ensures forall i :: 0 <= i < |cs| ==> cs[i].name in res
    ensures forall n :: n in res ==>
              (exists i :: 0 <= i < |cs| && cs[i].name == n) && res[n] == NewConnectionPlugin(w, n, rep)
  {
    hide NewConnectionPlugin;
    res := map[];
    for i := 0 to |cs|
      invariant forall j :: 0 <= j < i ==> cs[j].name in res
      invariant forall n :: n in res ==>
                  (exists j :: 0 <= j < |cs| && cs[j].name == n) && res[n] == NewConnectionPlugin(w, n, rep)
    {
      assert Served(w, cs, plugins, rep, i);
      var n := cs[i].name;
      var schema := plugins[n].schema.value;
      res := res[n := ConnectionPlugin(cs[i].plugin, schema.mode, schema.hash, w.compatible(cs[i].plugin))];
    }
  }

  /** The connection plugins of some required connections, with their schemas. */
  method CreateConnectionPlugins(w: World, names: set<string>)
    returns (res: map<string, ConnectionPlugin>, ghost rep: map<string, string>)
    requires WellFormed(w) && names <= w.config.Keys
    ensures ValidRepresentatives(w, names, rep) && res == CreatePlugins(w, names, rep)
  {
    hide DistinctNames, CreatePlugins, ValidRepresentatives, SharesWithUnloaded, PopulatedSchema, Fetch,
         NewConnectionPlugin, WellFormed, PluginsOf, Served;
    var cs := ConnectionsOf(w, names);
    var plugins := StartPlugins(w, cs);
    AllStarted(w, cs, plugins, names);
    var panicked;
    panicked, rep := PopulateConnectionPluginSchemas(w, cs, plugins);
    AllServedPlugins(w, cs, plugins, rep, panicked);
    res := ConnectionPluginsOf(w, cs, plugins, rep);
    SameMap(res, CreatePlugins(w, names, rep));
  }

  lemma AllStarted(w: World, cs: seq<Connection>, plugins: map<string, LoadedPlugin>, names: set<string>)
    requires PluginsOf(w, cs, plugins) && forall i :: 0 <= i < |cs| ==> cs[i].name in plugins && cs[i].name in names
    requires forall n :: n in names ==> exists i :: 0 <= i < |cs| && cs[i].name == n
    ensures plugins.Keys == names
  {
  }

  // ---------- The updates ----------

  /** Reloads the schema of every required connection that was saved as dynamic. */
  method GetSchemaHashesForDynamicSchemas(w: World, required: ConnectionDataMap, current: ConnectionDataMap)
    returns (hashes: map<string, string>, loaded: map<string, ConnectionPlugin>, ghost rep: map<string, string>)
    requires WellFormed(w) && required.Keys == w.config.Keys
    ensures ValidRepresentatives(w, DynamicNames(required, current), rep)
    ensures loaded == CreatePlugins(w, DynamicNames(required, current), rep)
    ensures HashesOf(loaded, hashes)
  {
    hide CreatePlugins, ValidRepresentatives, WellFormed;
    var dynamicNames := {};
    var names := required.Keys;
    while names != {}
      invariant names <= required.Keys
      invariant forall n :: n in dynamicNames <==>
                  n in required && n !in names && n in current && current[n].schemaMode == DYNAMIC
      decreases names
    {
      var n :| n in names;
      names := names - {n};
      if n in current && current[n].schemaMode == DYNAMIC {
        dynamicNames := dynamicNames + {n};
      }
    }
    assert dynamicNames == DynamicNames(required, current);
    loaded, rep := CreateConnectionPlugins(w, dynamicNames);
    hashes := HashMap(loaded);
  }

  ghost predicate HashesOf(loaded: map<string, ConnectionPlugin>, hashes: map<string, string>) {
    hashes.Keys == loaded.Keys && forall n :: n in hashes ==> hashes[n] == loaded[n].hash
  }

  method HashMap(loaded: map<string, ConnectionPlugin>) returns (hashes: map<string, string>)
    ensures HashesOf(loaded, hashes)
  {
    hashes := map[];
    var names := loaded.Keys;
    while names != {}
      invariant names <= loaded.Keys
      invariant forall n :: n in hashes <==> n in loaded && n !in names
      invariant forall n :: n in hashes ==> hashes[n] == loaded[n].hash
      decreases names
    {
      var n :| n in names;
      names, hashes := names - {n}, hashes[n := loaded[n].hash];
    }
  }

  lemma UpdatesToCreate(w: World, required: ConnectionDataMap, current: ConnectionDataMap,
      loaded: map<string, ConnectionPlugin>)
    requires required == Required(w) && AllInstalled(w)
    ensures var update := UpdateMap(required, current, loaded);
            && update.Keys - loaded.Keys == OutOfDate(required, current) - loaded.Keys
            && OutOfDate(required, current) <= w.config.Keys
            && (Panics(current, loaded) <==> exists n :: n in update && update[n].connection.None?)
  {
    hide UpdateMap, Required, Equals;
    var update := UpdateMap(required, current, loaded);
    if Panics(current, loaded) {
      var n :| n in HashChanged(current, loaded) && current[n].connection.None?;
      assert n in update && update[n].connection.None?;
    }
    forall n | n in update && update[n].connection.None? ensures Panics(current, loaded) {
      assert n in HashChanged(current, loaded);
    }
  }

  class ConnectionUpdates {
    var update: ConnectionDataMap
    var delete: ConnectionDataMap
    var required: ConnectionDataMap
    var plugins: map<string, ConnectionPlugin>
    const current: ConnectionDataMap

    ghost function Value(): Updates
      reads this
    {
      Updates(update, delete, required, plugins)
    }

    constructor (required: ConnectionDataMap, current: ConnectionDataMap)
      ensures this.required == required && this.current == current
      ensures update == map[] && delete == map[] && plugins == map[]
    {
      this.required, this.current := required, current;
      update, delete, plugins := map[], map[], map[];
    }

    /** Connections to create or update: missing or changed. */
    method AddOutOfDate()
      requires update == map[]
      modifies this`update
      ensures update.Keys == OutOfDate(required, current)
      ensures forall n :: n in update ==> update[n] == required[n]
    {
      hide Equals;
      var names := required.Keys;
      while names != {}
        invariant names <= required.Keys
        invariant forall n :: n in update <==>
                  n in required && n !in names && (n !in current || !Equals(current[n], required[n]))
        invariant forall n :: n in update ==> update[n] == required[n]
        decreases names
      {
        var n :| n in names;
        names := names - {n};
        if n !in current || !Equals(current[n], required[n]) {
          update := update[n := required[n]];
        }
      }
    }

    /** Connections to delete: saved but no longer required. */
    method AddDeletes()
      requires delete == map[]
      modifies this`delete
      ensures delete == DeleteMap(required, current)
    {
      hide DeleteMap;
      var names := current.Keys;
      while names != {}
        invariant names <= current.Keys
        invariant forall n :: n in delete <==> n in current && n !in names && n !in required
        invariant forall n :: n in delete ==> delete[n] == current[n]
        decreases names
      {
        var n :| n in names;
        names := names - {n};
        if n !in required {
          delete := delete[n := current[n]];
        }
      }
      SameMap(delete, DeleteMap(required, current));
    }

    /** Connections whose dynamic schema changed: their saved data is entered. */
    method AddChangedSchemas(hashes: map<string, string>, ghost loaded: map<string, ConnectionPlugin>)
      requires HashesOf(loaded, hashes)
      requires update.Keys == OutOfDate(required, current) && forall n :: n in update ==> update[n] == required[n]
      modifies this`update
      ensures update == UpdateMap(required, current, loaded)
    {
      assert OutOfDate(required, current) <= required.Keys;
      hide OutOfDate, UpdateMap;
      var names := hashes.Keys;
      while names != {}
        invariant names <= hashes.Keys
        invariant forall n :: n in update <==>
                    n in OutOfDate(required, current) || (n in HashChanged(current, loaded) && n !in names)
        invariant forall n :: n in update ==>
                    update[n] == if n in HashChanged(current, loaded) && n !in names then current[n]
                        else Entry(required, n)
        decreases names
      {
        var n :| n in names;
        names := names - {n};
        if n in current && current[n].schemaHash != hashes[n] {
          update := update[n := current[n]];
        }
      }
      SameMap(update, UpdateMap(required, current, loaded));
    }

    /** The updates whose plugin is not loaded yet; a nil connection among the updates is dereferenced. */
    method RemoveConnectionsFromList(loaded: map<string, ConnectionPlugin>)
        returns (panicked: bool, toCreate: set<string>)
      ensures panicked <==> exists n :: n in update && update[n].connection.None?
      ensures !panicked ==> toCreate == update.Keys - loaded.Keys
    {
      toCreate := {};
      var names := update.Keys;
      while names != {}
        invariant names <= update.Keys
        invariant forall n :: n in update && n !in names ==> update[n].connection.Some?
        invariant forall n :: n in toCreate <==> n in update && n !in names && n !in loaded
        decreases names
      {
        var n :| n in names;
        names := names - {n};
        if update[n].connection.None? {
          return true, toCreate;
        }
        if n !in loaded {
          toCreate := toCreate + {n};
        }
      }
      panicked := false;
    }

    /** Starts the plugins of all updates. */
    method PopulateConnectionPlugins(w: World, loaded: map<string, ConnectionPlugin>)
      returns (panicked: bool, ghost rep: map<string, string>)
      requires WellFormed(w) && required == Required(w) && AllInstalled(w)
      requires update == UpdateMap(required, current, loaded)
      modifies this`plugins
      ensures panicked <==> Panics(current, loaded)
      ensures !panicked ==> ValidRepresentatives(w, OutOfDate(required, current) - loaded.Keys, rep)
      ensures !panicked ==> plugins == CreatePlugins(w, OutOfDate(required, current) - loaded.Keys, rep) + loaded
    {
      hide CreatePlugins, ValidRepresentatives, UpdateMap, Required, Equals, Panics, OutOfDate, HashChanged,
           AllInstalled;
      rep := map[];
      var toCreate;
      panicked, toCreate := RemoveConnectionsFromList(loaded);
      UpdatesToCreate(w, required, current, loaded);
      if !panicked {
        var created;
        created, rep := CreateConnectionPlugins(w, toCreate);
        plugins := created + loaded;
      }
    }

    /** Sets the schema mode and hash of every required connection. */
    method UpdateRequiredStateWithSchemaProperties(hashes: map<string, string>,
        ghost loaded: map<string, ConnectionPlugin>)
      requires HashesOf(loaded, hashes)
      modifies this`required
      ensures required == SavedState(old(required), current, loaded, plugins)
    {
      hide SavedState;
      var names := required.Keys;
      ghost var before := required;
      while names != {}
        invariant required.Keys == before.Keys && names <= before.Keys
        invariant forall n :: n in before ==>
                    required[n] == if n in names then before[n] else SavedEntry(n, before[n], current, loaded, plugins)
        decreases names
      {
        var k :| k in names;
        names := names - {k};
        var v := required[k];
        if k in current {
          v := v.(schemaHash := current[k].schemaHash);
          v := v.(schemaMode := current[k].schemaMode);
        }
        if k in hashes {
          v := v.(schemaHash := hashes[k]);
        }
        if k in plugins {
          v := v.(schemaMode := plugins[k].mode);
          if v.schemaMode == DYNAMIC && v.schemaHash == "" {
            v := v.(schemaHash := plugins[k].hash);
          }
        }
        required := required[k := v];
      }
      SameMap(required, SavedState(before, current, loaded, plugins));
    }
  }

  datatype UpdatesResult = Missing(plugins: seq<string>) | Panicked | Updatable(updates: ConnectionUpdates)

  /** The updates that bring the database in sync with the config. */
  method NewConnectionUpdates(w: World, file: ConnectionDataMap, schemaNames: seq<string>)
    returns (r: UpdatesResult, ghost choice: Choice)
    requires WellFormed(w)
    ensures r.Missing? <==> !AllInstalled(w)
    ensures var cur := Current(file, set n | n in schemaNames);
            && (!r.Missing? ==> ValidFor(w, choice, cur))
            && (r.Panicked? <==>
                  AllInstalled(w) && Panics(cur, CreatePlugins(w, DynamicNames(Required(w), cur), choice.first)))
            && (r.Updatable? ==> fresh(r.updates) && r.updates.Value() == NewUpdates(w, choice, cur))
  {
    hide CreatePlugins, ValidRepresentatives, UpdateMap, DeleteMap, SavedState, Required, Current, Panics,
         OutOfDate, DynamicNames, HashChanged, AllInstalled, WellFormed;
    choice := Choice(map[], map[]);
    var required, missingPlugins := NewConnectionDataMap(w);
    if missingPlugins != [] {
      return Missing(missingPlugins), choice;
    }
    var current := GetConnectionState(file, schemaNames);
    var hashes, loaded;
    ghost var first, second;
    hashes, loaded, first := GetSchemaHashesForDynamicSchemas(w, required, current);
    var u := new ConnectionUpdates(required, current);
    u.AddOutOfDate();
    u.AddDeletes();
    u.AddChangedSchemas(hashes, loaded);
    var panicked;
    panicked, second := u.PopulateConnectionPlugins(w, loaded);
    if panicked {
      second := SomeRepresentatives(w, OutOfDate(required, current) - DynamicNames(required, current));
      return Panicked, Choice(first, second);
    }
    u.UpdateRequiredStateWithSchemaProperties(hashes, loaded);
    r, choice := Updatable(u), Choice(first, second);
  }

  lemma {:induction false} SomeRepresentatives(w: World, names: set<string>) returns (rep: map<string, string>)
    ensures ValidRepresentatives(w, names, rep)
    decreases names
  {
    if names == {} {
      rep := map[];
    } else {
      var n :| n in names;
      rep := SomeRepresentatives(w, names - {n});
      if n in w.config {
        rep := rep[w.config[n].plugin := n];
      }
    }
  }

  // ---------- The queries ----------

  datatype ValidationFailure = ValidationFailure(connectionName: string, shouldDropIfExists: bool)

  /** Sorts the loaded plugins into failures and validated ones, with the updates of the latter. */
  method ValidatePlugins(u: Updates)
    returns (failures: seq<ValidationFailure>, updates: ConnectionDataMap, plugins: seq<string>)
    ensures forall f :: f in failures ==>
            f.connectionName in Failures(u) && f.shouldDropIfExists == !u.plugins[f.connectionName].compatible
    ensures forall n :: n in Failures(u) ==> exists f :: f in failures && f.connectionName == n
    ensures updates.Keys == Validated(u) && forall n :: n in updates ==> updates[n] == u.update[n]
    ensures Enumerates(plugins, u.plugins.Keys - Failures(u))
  {
    hide Valid;
    failures, updates, plugins := [], map[], [];
    var names := u.plugins.Keys;
    while names != {}
      invariant names <= u.plugins.Keys
      invariant forall f :: f in failures ==>
                  f.connectionName in Failures(u) && f.shouldDropIfExists == !u.plugins[f.connectionName].compatible
      invariant forall n :: n in Failures(u) && n !in names ==> exists f :: f in failures && f.connectionName == n
      invariant forall n :: n in updates <==> n in Validated(u) && n !in names
      invariant forall n :: n in updates ==> updates[n] == u.update[n]
      invariant forall n :: n in plugins <==> n in u.plugins.Keys - Failures(u) && n !in names
      decreases names
    {
      var n :| n in names;
      names := names - {n};
      ValidParts(n, u.plugins[n]);
      var failure := if !u.plugins[n].compatible then Some(ValidationFailure(n, true))
                     else if n in RESERVED_NAMES then Some(ValidationFailure(n, false)) else None;
      if failure.Some? {
        ghost var before := failures;
        failures := failures + [failure.value];
        assert failures[|failures| - 1].connectionName == n;
        forall m | m in Failures(u) && m !in names ensures exists f :: f in failures && f.connectionName == m {
          if m != n {
            var f :| f in before && f.connectionName == m;
            assert f in failures;
          }
        }
      } else {
        plugins := plugins + [n];
        if n in u.update {
          updates := updates[n := u.update[n]];
        }
      }
    }
  }

  lemma ValidParts(n: string, p: ConnectionPlugin)
    ensures Valid(n, p) <==> p.compatible && n !in RESERVED_NAMES
  {
  }

  lemma GroupSnoc(w: World, u: Updates, group: nat, order: seq<string>, n: string)
    ensures GroupQueries(w, u, group, order + [n]) == GroupQueries(w, u, group, order) + GroupQuery(w, u, group, n)
  {
    assert (order + [n])[..|order|] == order;
  }

  method GetSchemaQueries(w: World, u: Updates, updates: ConnectionDataMap, failures: seq<ValidationFailure>)
    returns (queries: seq<Statement>, ghost order: seq<string>, ghost failed: seq<string>)
    requires forall n :: n in updates ==> n in u.update && updates[n] == u.update[n]
    requires forall f :: f in failures ==>
             f.connectionName in u.plugins && f.shouldDropIfExists == !u.plugins[f.connectionName].compatible
    ensures Enumerates(order, updates.Keys)
    ensures |failed| == |failures| && forall i :: 0 <= i < |failed| ==> failed[i] == failures[i].connectionName
    ensures queries == GroupQueries(w, u, 0, order) + GroupQueries(w, u, 1, failed)
  {
    hide GroupQueries;
    queries, order, failed := [], [], [];
    var names := updates.Keys;
    GroupNone(w, u);
    while names != {}
      invariant names <= updates.Keys
      invariant forall n :: n in order <==> n in updates && n !in names
      invariant queries == GroupQueries(w, u, 0, order)
      decreases names
    {
      var n :| n in names;
      names := names - {n};
      GroupSnoc(w, u, 0, order, n);
      queries, order := queries + UpdateConnectionQuery(n, w.remoteSchema(updates[n].plugin)), order + [n];
    }
    for i := 0 to |failures|
      invariant |failed| == i && forall j :: 0 <= j < i ==> failed[j] == failures[j].connectionName
      invariant queries == GroupQueries(w, u, 0, order) + GroupQueries(w, u, 1, failed)
    {
      var f := failures[i];
      GroupSnoc(w, u, 1, failed, f.connectionName);
      ghost var before := GroupQueries(w, u, 1, failed);
      failed := failed + [f.connectionName];
      if f.shouldDropIfExists {
        queries := queries + DeleteConnectionQuery(f.connectionName);
      } else {
        assert before + [] == before;
      }
      assert GroupQueries(w, u, 0, order) + (before + GroupQuery(w, u, 1, f.connectionName))
          == (GroupQueries(w, u, 0, order) + before) + GroupQuery(w, u, 1, f.connectionName);
    }
  }

  lemma GroupNone(w: World, u: Updates)
    ensures forall g: nat :: GroupQueries(w, u, g, []) == []
  {
  }

  method GetCommentQueries(w: World, u: Updates, plugins: seq<string>) returns (queries: seq<Statement>)
    requires forall n :: n in plugins ==> n in u.plugins
    ensures queries == GroupQueries(w, u, 2, plugins)
  {
    hide GroupQueries, Comments, Described;
    queries := [];
    GroupNone(w, u);
    for i := 0 to |plugins|
      invariant queries == GroupQueries(w, u, 2, plugins[..i])
    {
      var n := plugins[i];
      GroupSnoc(w, u, 2, plugins[..i], n);
      assert plugins[..i + 1] == plugins[..i] + [n];
      queries := queries + Comments(n, Described(w, u.plugins[n]));
    }
    assert plugins[..|plugins|] == plugins;
  }

  ghost function SomeOrder(names: set<string>): (order: seq<string>)
    ensures Enumerates(order, names)
  {
    if names == {} then [] else var n :| n in names; SomeOrder(names - {n}) + [n]
  }

  method BuildConnectionUpdateQueries(w: World, u: Updates) returns (queries: seq<Statement>, ghost o: Orders)
    ensures ValidOrders(u, o) && queries == Queries(w, u, o)
  {
    assert Failures(u) <= u.plugins.Keys && Validated(u) <= u.update.Keys;
    hide GroupQueries, Failures, Validated, Valid;
    queries := [];
    ghost var order, failed, commented;
    if u.update != map[] {
      var failures, validated, plugins := ValidatePlugins(u);
      queries, order, failed := GetSchemaQueries(w, u, validated, failures);
      FailuresInOrder(u, failures, failed);
      var comments := GetCommentQueries(w, u, plugins);
      queries, commented := queries + comments, plugins;
    } else {
      order, failed, commented := SomeOrder(Validated(u)), SomeOrder(Failures(u)),
          SomeOrder(u.plugins.Keys - Failures(u));
    }
    ghost var deletes: seq<string> := [];
    o := Orders(order, failed, commented, deletes);
    GroupNone(w, u);
    assert queries == UpdateQueries(w, u, o) + GroupQueries(w, u, 3, deletes);
    var names := u.delete.Keys;
    while names != {}
      invariant names <= u.delete.Keys
      invariant forall n :: n in deletes <==> n in u.delete && n !in names
      invariant queries == UpdateQueries(w, u, o) + GroupQueries(w, u, 3, deletes)
      decreases names
    {
      var n :| n in names;
      names := names - {n};
      GroupSnoc(w, u, 3, deletes, n);
      assert UpdateQueries(w, u, o) + (GroupQueries(w, u, 3, deletes) + DeleteConnectionQuery(n))
          == (UpdateQueries(w, u, o) + GroupQueries(w, u, 3, deletes)) + DeleteConnectionQuery(n);
      queries, deletes := queries + DeleteConnectionQuery(n), deletes + [n];
    }
    o := o.(deletes := deletes);
  }

  lemma FailuresInOrder(u: Updates, failures: seq<ValidationFailure>, failed: seq<string>)
    requires |failed| == |failures| && forall i :: 0 <= i < |failed| ==> failed[i] == failures[i].connectionName
    requires forall f :: f in failures ==> f.connectionName in Failures(u)
    requires forall n :: n in Failures(u) ==> exists f :: f in failures && f.connectionName == n
    ensures Enumerates(failed, Failures(u))
  {
    hide Failures;
    forall n ensures n in failed <==> n in Failures(u) {
      if n in failed {
        var i :| 0 <= i < |failed| && failed[i] == n;
        assert failures[i] in failures;
      }
      if n in Failures(u) {
        var f :| f in failures && f.connectionName == n;
        var i :| 0 <= i < |failures| && failures[i] == f;
        assert failed[i] == n;
      }
    }
  }

  // ---------- The client ----------

  class LocalDbClient {
    const w: World
    var file: ConnectionDataMap
    var db: Database
    var foreignSchemas: seq<string>

    /** The client knows the foreign schemas of the database. */
    ghost predicate Valid()
      reads this
    {
      WellFormed(w) && Enumerates(foreignSchemas, ForeignSchemas(db))
    }

    ghost function System(): System
      reads this
    {
      Connections.System.System(file, db)
    }

    constructor (w: World, file: ConnectionDataMap, db: Database)
      requires WellFormed(w)
      ensures Valid() && this.w == w && System() == Connections.System.System(file, db)
    {
      this.w, this.file, this.db := w, file, db;
      this.foreignSchemas := [];
      new;
      LoadForeignSchemaNames();
    }

    method LoadForeignSchemaNames()
      requires WellFormed(w)
      modifies this`foreignSchemas
      ensures Valid()
    {
      hide ForeignSchemas, WellFormed;
      foreignSchemas := [];
      var names := ForeignSchemas(db);
      while names != {}
        invariant names <= ForeignSchemas(db)
        invariant forall n :: n in foreignSchemas <==> n in ForeignSchemas(db) && n !in names
        decreases names
      {
        var n :| n in names;
        names, foreignSchemas := names - {n}, foreignSchemas + [n];
      }
    }

    /** Statements take effect one by one, up to the first that fails. */
    method ExecuteConnectionQueries(queries: seq<Statement>) returns (ok: bool)
      modifies this`db
      ensures Run(w, queries, old(db)) == if ok then Completed(db) else Broken(db)
    {
      hide Exec;
      RunNothing(w, db);
      for i := 0 to |queries|
        invariant Run(w, queries[i..], db) == Run(w, queries, old(db))
      {
        assert queries[i..][0] == queries[i] && queries[i..][1..] == queries[i + 1..];
        match Exec(w, queries[i], db)
        case None => return false;
        case Some(d) => db := d;
      }
      ok := true;
    }

    /** One refresh: the state file and the database move by one step of the specification.  The schema names
        are reloaded unless it stops at a failing statement; then the next client loads them. */
    method RefreshConnections() returns (outcome: Outcome, ghost choice: Choice)
      requires Valid()
      modifies this`file, this`db, this`foreignSchemas
      ensures if outcome.Stopped? then foreignSchemas == old(foreignSchemas) else Valid()
      ensures AllInstalled(w) ==> ValidChoice(w, choice, old(System()))
      ensures outcome == Refresh(w, choice, old(System()))
      ensures System() == Next(w, choice, old(System()))
    {
      hide NewUpdates, Run, Exec, DatabaseAfter, HasQueries, Queries, ValidOrders, Current, Panics, ForeignSchemas,
           WellFormed, CreatePlugins, DynamicNames, ValidFor, AllInstalled, Required, PartialDatabase, CommentsFit;
      ghost var sys := System();
      assert (set n | n in foreignSchemas) == ForeignSchemas(db);
      var res;
      res, choice := NewConnectionUpdates(w, file, foreignSchemas);
      match res
      case Missing(_) => return Failed, choice;
      case Panicked => return Failed, choice;
      case Updatable(updates) =>
        var queries;
        ghost var o;
        queries, o := BuildConnectionUpdateQueries(w,
            Updates(updates.update, updates.delete, updates.required, updates.plugins));
        RefreshRunsQueries(w, choice, sys, o);
        if |queries| == 0 {
          return Silent, choice;
        }
        var ok := ExecuteConnectionQueries(queries);
        if !ok {
          return Stopped(Connections.System.System(file, db)), choice;
        }
        file := updates.required;
        LoadForeignSchemaNames();
        outcome := Updated(Connections.System.System(file, db));
    }
  }
}
