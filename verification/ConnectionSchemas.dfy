/** Sharing one fetched schema between connections
    (steampipeconfig/connection_schemas.go, steampipeconfig/connection_plugin.go). */
module ConnectionSchemas {
  import opened Connections
  import Maps
  import opened Options

  /** Connection name to the connections with the same schema. */
  type ConnectionSchemaMap = map<string, seq<string>>

  ghost predicate DistinctNames(cs: seq<Connection>) {
    forall i, j :: 0 <= i < j < |cs| ==> cs[i].name != cs[j].name
  }

  predicate Dynamic(modes: map<string, string>, c: Connection) {
    c.name in modes && modes[c.name] == DYNAMIC
  }

  // ---------- The bucket of each connection ----------

  /** The connection, before position k, that plugin p's next connection shares with; k if there is none. */
  function Latest(cs: seq<Connection>, modes: map<string, string>, k: nat, p: string): (h: nat)
    requires k <= |cs|
    ensures h <= k && (h < k ==> cs[h].plugin == p)
    ensures h == k <==> forall i :: 0 <= i < k ==> cs[i].plugin != p
  {
    if k == 0 then 0
    else
      var h := Latest(cs, modes, k - 1, p);
      if cs[k - 1].plugin != p then (if h == k - 1 then k else h)
      else if h == k - 1 || Dynamic(modes, cs[k - 1]) then k - 1
      else h
  }

  /** The connection whose schema connection i uses. */
  function Head(cs: seq<Connection>, modes: map<string, string>, i: nat): (h: nat)
    requires i < |cs|
    ensures h <= i && cs[h].plugin == cs[i].plugin
  {
    if Dynamic(modes, cs[i]) then i else Latest(cs, modes, i, cs[i].plugin)
  }

  /** Connection h is the first of those that use its schema. */
  predicate IsHead(cs: seq<Connection>, modes: map<string, string>, h: int) {
    0 <= h < |cs| && Head(cs, modes, h) == h
  }

  /** The first k connections that use the schema of connection h. */
  function Bucket(cs: seq<Connection>, modes: map<string, string>, k: nat, h: nat): (b: seq<string>)
    requires k <= |cs|
  {
    if k == 0 then []
    else Bucket(cs, modes, k - 1, h) + (if Head(cs, modes, k - 1) == h then [cs[k - 1].name] else [])
  }

  ghost predicate BucketsOf(cs: seq<Connection>, modes: map<string, string>, k: nat, m: ConnectionSchemaMap)
    requires k <= |cs|
  {
    && (forall n :: n in m ==>
          exists h: nat {:trigger IsHead(cs, modes, h)} :: h < k && IsHead(cs, modes, h) && cs[h].name == n)
    && (forall h: nat {:trigger IsHead(cs, modes, h)} :: h < k && IsHead(cs, modes, h) ==>
          cs[h].name in m && m[cs[h].name] == Bucket(cs, modes, k, h))
  }

  lemma {:induction false} LatestIsHead(cs: seq<Connection>, modes: map<string, string>, k: nat, p: string)
    requires k <= |cs|
    ensures var h := Latest(cs, modes, k, p); h < k ==> IsHead(cs, modes, h)
  {
    if k > 0 {
      LatestIsHead(cs, modes, k - 1, p);
    }
  }

  lemma HeadIsHead(cs: seq<Connection>, modes: map<string, string>, i: nat)
    requires i < |cs|
    ensures IsHead(cs, modes, Head(cs, modes, i))
  {
    LatestIsHead(cs, modes, i, cs[i].plugin);
  }

  lemma {:induction false} BucketOfNone(cs: seq<Connection>, modes: map<string, string>, k: nat, h: nat)
    requires k <= |cs| && k <= h
    ensures Bucket(cs, modes, k, h) == []
  {
    if k > 0 {
      BucketOfNone(cs, modes, k - 1, h);
    }
  }

  ghost predicate LatestNames(cs: seq<Connection>, modes: map<string, string>, k: nat, pluginMap: map<string, string>)
    requires k <= |cs|
  {
    && (forall p :: p in pluginMap <==> Latest(cs, modes, k, p) < k)
    && (forall p :: p in pluginMap ==> pluginMap[p] == cs[Latest(cs, modes, k, p)].name)
  }

  method NewConnectionSchemaMapForConnections(connections: seq<Connection>, schemaModeMap: map<string, string>)
    returns (res: ConnectionSchemaMap)
    requires DistinctNames(connections)
    ensures BucketsOf(connections, schemaModeMap, |connections|, res)
  {
    hide Latest, Head, Bucket, IsHead, BucketsOf, LatestNames, DistinctNames;
    res := map[];
    var pluginMap: map<string, string> := map[];
    NoBuckets(connections, schemaModeMap);
    for k := 0 to |connections|
      invariant BucketsOf(connections, schemaModeMap, k, res)
      invariant LatestNames(connections, schemaModeMap, k, pluginMap)
    {
      var c := connections[k];
      KnownPlugin(connections, schemaModeMap, k, pluginMap, res);
      if c.plugin !in pluginMap || Dynamic(schemaModeMap, c) {
        NewBucket(connections, schemaModeMap, k, pluginMap, res);
        pluginMap := pluginMap[c.plugin := c.name];
        res := res[c.name := [c.name]];
      } else {
        JoinBucket(connections, schemaModeMap, k, pluginMap, res);
        var shared := pluginMap[c.plugin];
        res := res[shared := res[shared] + [c.name]];
      }
    }
  }

  lemma NoBuckets(cs: seq<Connection>, modes: map<string, string>)
    ensures BucketsOf(cs, modes, 0, map[]) && LatestNames(cs, modes, 0, map[])
  {
  }

  lemma KnownPlugin(cs: seq<Connection>, modes: map<string, string>, k: nat, pluginMap: map<string, string>,
      m: ConnectionSchemaMap)
    requires k < |cs| && LatestNames(cs, modes, k, pluginMap) && BucketsOf(cs, modes, k, m)
    ensures cs[k].plugin in pluginMap ==> pluginMap[cs[k].plugin] in m
  {
    LatestIsHead(cs, modes, k, cs[k].plugin);
  }

  lemma NewBucket(cs: seq<Connection>, modes: map<string, string>, k: nat, pluginMap: map<string, string>,
      m: ConnectionSchemaMap)
    requires k < |cs| && DistinctNames(cs) && LatestNames(cs, modes, k, pluginMap) && BucketsOf(cs, modes, k, m)
    requires cs[k].plugin !in pluginMap || Dynamic(modes, cs[k])
    ensures BucketsOf(cs, modes, k + 1, m[cs[k].name := [cs[k].name]])
    ensures LatestNames(cs, modes, k + 1, pluginMap[cs[k].plugin := cs[k].name])
  {
    hide Latest, Head, Bucket, Dynamic, IsHead, BucketsOf;
    StepOne(cs, modes, k);
    assert Head(cs, modes, k) == k;
    AddBucket(cs, modes, k, m);
  }

  lemma AddBucket(cs: seq<Connection>, modes: map<string, string>, k: nat, m: ConnectionSchemaMap)
    requires k < |cs| && DistinctNames(cs) && BucketsOf(cs, modes, k, m) && Head(cs, modes, k) == k
    ensures BucketsOf(cs, modes, k + 1, m[cs[k].name := [cs[k].name]])
  {
    hide Latest, Head, Bucket, Dynamic, IsHead;
    StepOne(cs, modes, k);
    var m' := m[cs[k].name := [cs[k].name]];
    assert IsHead(cs, modes, k);
    forall n | n in m'
      ensures exists h: nat {:trigger IsHead(cs, modes, h)} :: h < k + 1 && IsHead(cs, modes, h) && cs[h].name == n
    {
      if n != cs[k].name {
        assert n in m;
      }
    }
    forall h: nat | h < k + 1 && IsHead(cs, modes, h)
      ensures cs[h].name in m' && m'[cs[h].name] == Bucket(cs, modes, k + 1, h)
    {
      if h < k {
        assert cs[h].name != cs[k].name;
      }
    }
  }

  lemma JoinBucket(cs: seq<Connection>, modes: map<string, string>, k: nat, pluginMap: map<string, string>,
      m: ConnectionSchemaMap)
    requires k < |cs| && DistinctNames(cs) && LatestNames(cs, modes, k, pluginMap) && BucketsOf(cs, modes, k, m)
    requires cs[k].plugin in pluginMap && !Dynamic(modes, cs[k])
    ensures var n := pluginMap[cs[k].plugin];
            n in m && BucketsOf(cs, modes, k + 1, m[n := m[n] + [cs[k].name]])
    ensures LatestNames(cs, modes, k + 1, pluginMap)
  {
    hide Latest, Head, Bucket, Dynamic, IsHead, BucketsOf;
    KnownPlugin(cs, modes, k, pluginMap, m);
    LatestIsHead(cs, modes, k, cs[k].plugin);
    StepOne(cs, modes, k);
    var h0 := Head(cs, modes, k);
    assert h0 < k && pluginMap[cs[k].plugin] == cs[h0].name;
    ExtendBucket(cs, modes, k, m);
  }

  lemma ExtendBucket(cs: seq<Connection>, modes: map<string, string>, k: nat, m: ConnectionSchemaMap)
    requires k < |cs| && DistinctNames(cs) && BucketsOf(cs, modes, k, m)
    requires Head(cs, modes, k) < k && cs[Head(cs, modes, k)].name in m && IsHead(cs, modes, Head(cs, modes, k))
    ensures var n := cs[Head(cs, modes, k)].name; BucketsOf(cs, modes, k + 1, m[n := m[n] + [cs[k].name]])
  {
    hide Latest, Head, Bucket, Dynamic, IsHead;
    var h0 := Head(cs, modes, k);
    var n0 := cs[h0].name;
    var m' := m[n0 := m[n0] + [cs[k].name]];
    forall n | n in m'
      ensures exists h: nat {:trigger IsHead(cs, modes, h)} :: h < k + 1 && IsHead(cs, modes, h) && cs[h].name == n
    {
      assert n in m;
    }
    forall h: nat | h < k + 1 && IsHead(cs, modes, h)
      ensures cs[h].name in m' && m'[cs[h].name] == Bucket(cs, modes, k + 1, h)
    {
      StepOne(cs, modes, k);
      assert h < k;
      assert h != h0 ==> cs[h].name != n0;
    }
  }

  /** What looking at connection k changes. */
  lemma StepOne(cs: seq<Connection>, modes: map<string, string>, k: nat)
    requires k < |cs|
    ensures forall p :: p != cs[k].plugin ==>
              Latest(cs, modes, k + 1, p) == (var h := Latest(cs, modes, k, p); if h == k then k + 1 else h)
    ensures Latest(cs, modes, k + 1, cs[k].plugin) == Head(cs, modes, k)
    ensures Head(cs, modes, k) == (if Dynamic(modes, cs[k]) then k else Latest(cs, modes, k, cs[k].plugin))
    ensures forall h :: 0 <= h < k ==>
              Bucket(cs, modes, k + 1, h)
              == Bucket(cs, modes, k, h) + (if Head(cs, modes, k) == h then [cs[k].name] else [])
    ensures Head(cs, modes, k) == k ==> Bucket(cs, modes, k + 1, k) == [cs[k].name]
    ensures IsHead(cs, modes, k) <==> Head(cs, modes, k) == k
  {
    BucketOfNone(cs, modes, k, k);
  }

  // ---------- The buckets partition the connections ----------

  lemma {:induction false} BucketCounts(cs: seq<Connection>, modes: map<string, string>, k: nat, h: nat, i: nat)
    requires k <= |cs| && i < |cs| && DistinctNames(cs)
    ensures multiset(Bucket(cs, modes, k, h))[cs[i].name] == if i < k && Head(cs, modes, i) == h then 1 else 0
  {
    hide Head;
    if k > 0 {
      BucketCounts(cs, modes, k - 1, h, i);
      var b, x := Bucket(cs, modes, k - 1, h), cs[k - 1].name;
      assert x == cs[i].name <==> k - 1 == i;
      if Head(cs, modes, k - 1) == h {
        assert Bucket(cs, modes, k, h) == b + [x];
        assert multiset(b + [x])[cs[i].name] == multiset(b)[cs[i].name] + if x == cs[i].name then 1 else 0;
      } else {
        assert Bucket(cs, modes, k, h) == b;
      }
    }
  }

  lemma {:induction false} BucketMembers(cs: seq<Connection>, modes: map<string, string>, k: nat, h: nat)
    requires k <= |cs| && h < |cs|
    ensures forall x :: x in Bucket(cs, modes, k, h) ==>
              exists i :: 0 <= i < k && cs[i].name == x && cs[i].plugin == cs[h].plugin
    ensures IsHead(cs, modes, h) && h < k ==> |Bucket(cs, modes, k, h)| > 0 && Bucket(cs, modes, k, h)[0] == cs[h].name
  {
    hide Latest;
    if k > 0 {
      BucketMembers(cs, modes, k - 1, h);
      if k - 1 == h {
        BucketOfNone(cs, modes, h, h);
      }
    }
  }

  /** Every connection is in exactly one bucket, once; a bucket starts with its key, and its
      connections all use one plugin. */
  lemma BucketsPartition(cs: seq<Connection>, modes: map<string, string>, m: ConnectionSchemaMap, i: nat, n: string)
    requires DistinctNames(cs) && BucketsOf(cs, modes, |cs|, m) && i < |cs| && n in m
    ensures var head := cs[Head(cs, modes, i)];
            && head.name in m && head.plugin == cs[i].plugin
            && multiset(m[n])[cs[i].name] == if n == head.name then 1 else 0
    ensures |m[n]| > 0 && m[n][0] == n
    ensures forall x, y :: x in m[n] && y in m[n] ==>
              exists a, b :: 0 <= a < |cs| && 0 <= b < |cs| && cs[a].name == x && cs[b].name == y &&
                  cs[a].plugin == cs[b].plugin
  {
    hide Head, Bucket, IsHead;
    HeadIsHead(cs, modes, i);
    var h: nat :| h < |cs| && IsHead(cs, modes, h) && cs[h].name == n;
    BucketCounts(cs, modes, |cs|, h, i);
    BucketMembers(cs, modes, |cs|, h);
  }

  /** Connections of one plugin have one mode. */
  ghost predicate ModesAgree(cs: seq<Connection>, modes: map<string, string>) {
    forall i, j :: 0 <= i < |cs| && 0 <= j < |cs| && cs[i].plugin == cs[j].plugin ==>
      (Dynamic(modes, cs[i]) <==> Dynamic(modes, cs[j]))
  }

  lemma {:induction false} LatestOfStatic(cs: seq<Connection>, modes: map<string, string>, k: nat, l: nat, p: string)
    requires k <= l <= |cs| && (forall i :: 0 <= i < |cs| && cs[i].plugin == p ==> !Dynamic(modes, cs[i]))
    ensures Latest(cs, modes, k, p) < k ==> Latest(cs, modes, l, p) == Latest(cs, modes, k, p)
    decreases l - k
  {
    if k < l {
      LatestOfStatic(cs, modes, k, l - 1, p);
    }
  }

  /** A plugin with one schema is one bucket; a connection with its own schema is a bucket of its own. */
  lemma SharedExactlyWhenStatic(cs: seq<Connection>, modes: map<string, string>, i: nat, j: nat)
    requires ModesAgree(cs, modes) && i < j < |cs|
    ensures Head(cs, modes, i) == Head(cs, modes, j) <==> cs[i].plugin == cs[j].plugin && !Dynamic(modes, cs[i])
  {
    hide Latest, Dynamic;
    var p := cs[i].plugin;
    if p == cs[j].plugin && !Dynamic(modes, cs[i]) {
      LatestOfStatic(cs, modes, i + 1, j, p);
      StepOne(cs, modes, i);
    }
  }

  // ---------- Populating the schemas ----------

  datatype Schema = Schema(mode: string, hash: string)

  /** A running plugin, as seen by one connection. */
  class LoadedPlugin {
    const connectionName: string
    const pluginName: string
    var schema: Option<Schema>

    constructor (connectionName: string, pluginName: string)
      ensures this.connectionName == connectionName && this.pluginName == pluginName && schema == None
    {
      this.connectionName := connectionName;
      this.pluginName := pluginName;
      schema := None;
    }
  }

  /** What GetSchema answers through connection n. */
  function Fetch(w: World, n: string): Schema {
    Schema(w.mode(PluginOf(w, n)), w.hash(n))
  }

  /** The plugin objects of some of the connections, each its own object. */
  predicate PluginsOf(w: World, cs: seq<Connection>, plugins: map<string, LoadedPlugin>) {
    && (forall n :: n in plugins ==>
          n in w.config && plugins[n].connectionName == n && plugins[n].pluginName == w.config[n].plugin)
    && (forall n :: n in plugins ==> exists i :: 0 <= i < |cs| && cs[i].name == n)
    && (forall i :: 0 <= i < |cs| ==> cs[i].name in w.config && w.config[cs[i].name] == cs[i])
  }

  /** One schema for each loaded plugin, fetched through one of its connections. */
  ghost predicate SchemasThrough(w: World, plugins: map<string, LoadedPlugin>, names: set<string>,
                                 schemas: map<string, Schema>, rep: map<string, string>)
    requires names <= plugins.Keys
  {
    && schemas.Keys == rep.Keys
    && (forall n :: n in names ==> plugins[n].pluginName in schemas)
    && forall p :: p in rep ==> rep[p] in names && plugins[rep[p]].pluginName == p && schemas[p] == Fetch(w, rep[p])
  }

  lemma SchemasThroughNone(w: World, plugins: map<string, LoadedPlugin>)
    ensures SchemasThrough(w, plugins, {}, map[], map[])
  {
  }

  lemma SchemasThroughOne(w: World, plugins: map<string, LoadedPlugin>, seen: set<string>,
                          schemas: map<string, Schema>, rep: map<string, string>, n: string)
    requires seen <= plugins.Keys && n in plugins && SchemasThrough(w, plugins, seen, schemas, rep)
    ensures var p := plugins[n].pluginName;
            if p in schemas then SchemasThrough(w, plugins, seen + {n}, schemas, rep)
            else SchemasThrough(w, plugins, seen + {n}, schemas[p := Fetch(w, n)], rep[p := n])
  {
    hide Fetch;
  }

  method BuildPluginSchemaMap(w: World, plugins: map<string, LoadedPlugin>)
    returns (schemas: map<string, Schema>, ghost rep: map<string, string>)
    ensures SchemasThrough(w, plugins, plugins.Keys, schemas, rep)
  {
    hide Fetch, SchemasThrough;
    schemas, rep := map[], map[];
    var names := plugins.Keys;
    ghost var seen := {};
    SchemasThroughNone(w, plugins);
    while names != {}
      invariant names + seen == plugins.Keys
      invariant SchemasThrough(w, plugins, seen, schemas, rep)
      decreases |names|
    {
      var n :| n in names;
      SchemasThroughOne(w, plugins, seen, schemas, rep, n);
      names, seen := names - {n}, seen + {n};
      var p := plugins[n].pluginName;
      if p !in schemas {
        schemas, rep := schemas[p := Fetch(w, n)], rep[p := n];
      }
    }
  }

  method BuildSchemaModeMap(plugins: map<string, LoadedPlugin>, schemas: map<string, Schema>)
    returns (modes: map<string, string>)
    requires forall n :: n in plugins ==> plugins[n].pluginName in schemas
    ensures modes.Keys == plugins.Keys && forall n :: n in modes ==> modes[n] == schemas[plugins[n].pluginName].mode
  {
    modes := map[];
    var names := plugins.Keys;
    while names != {}
      invariant names <= plugins.Keys
      invariant modes.Keys == plugins.Keys - names
      invariant forall n :: n in modes ==> modes[n] == schemas[plugins[n].pluginName].mode
      decreases |names|
    {
      var n :| n in names;
      names := names - {n};
      modes := modes[n := schemas[plugins[n].pluginName].mode];
    }
  }

  /** Gives one schema to the connections of a bucket; a connection without a plugin is a nil dereference. */
  method SetSchema(plugins: map<string, LoadedPlugin>, bucket: seq<string>, schema: Schema) returns (panicked: bool)
    requires forall n :: n in plugins ==> plugins[n].connectionName == n
    modifies plugins.Values
    ensures panicked <==> exists x :: x in bucket && x !in plugins
    ensures !panicked ==> forall n :: n in plugins ==>
              plugins[n].schema == if n in bucket then Some(schema) else old(plugins[n].schema)
  {
    for j := 0 to |bucket|
      invariant forall x :: x in bucket[..j] ==> x in plugins
      invariant forall n :: n in plugins ==>
                  plugins[n].schema == if n in bucket[..j] then Some(schema) else old(plugins[n].schema)
    {
      if bucket[j] !in plugins {
        return true;
      }
      plugins[bucket[j]].schema := Some(schema);
      assert bucket[..j + 1] == bucket[..j] + [bucket[j]];
    }
    assert bucket[..|bucket|] == bucket;
    panicked := false;
  }

  /** The schema modes found for the loaded connections. */
  ghost function LoadedModes(w: World, loaded: set<string>): (r: map<string, string>)
    ensures r.Keys == loaded && forall n :: n in r ==> r[n] == w.mode(PluginOf(w, n))
  {
    Maps.MapOf(loaded, n => w.mode(PluginOf(w, n)))
  }

  function HeadName(cs: seq<Connection>, modes: map<string, string>, i: nat): string
    requires i < |cs|
  {
    cs[Head(cs, modes, i)].name
  }

  lemma BucketByHead(cs: seq<Connection>, modes: map<string, string>, m: ConnectionSchemaMap, i: nat, n: string)
    requires DistinctNames(cs) && BucketsOf(cs, modes, |cs|, m) && i < |cs| && n in m
    ensures HeadName(cs, modes, i) in m && (cs[i].name in m[n] <==> n == HeadName(cs, modes, i))
    ensures forall x :: x in m[n] ==> exists j :: 0 <= j < |cs| && cs[j].name == x
  {
    hide Head, IsHead, Bucket, BucketsOf;
    BucketsPartition(cs, modes, m, i, n);
    assert cs[i].name in m[n] <==> multiset(m[n])[cs[i].name] > 0;
  }

  /** A loaded connection shares its schema with one that failed to load. */
  ghost predicate SharesWithUnloaded(w: World, cs: seq<Connection>, loaded: set<string>) {
    exists i :: 0 <= i < |cs| && cs[i].name !in loaded && HeadName(cs, LoadedModes(w, loaded), i) in loaded
  }

  /** The connection's schema, or none when the connection it shares with failed to load. */
  ghost function PopulatedSchema(w: World, cs: seq<Connection>, loaded: set<string>, rep: map<string, string>,
      i: nat): Option<Schema>
    requires i < |cs|
  {
    if HeadName(cs, LoadedModes(w, loaded), i) in loaded && cs[i].plugin in rep then Some(Fetch(w, rep[cs[i].plugin]))
    else None
  }

  /** What is known when the buckets in `todo` are still to be done. */
  ghost predicate DoneExcept(w: World, cs: seq<Connection>, got: map<string, Option<Schema>>,
      rep: map<string, string>, todo: set<string>)
  {
    var modes := LoadedModes(w, got.Keys);
    forall i {:trigger HeadName(cs, modes, i)} :: 0 <= i < |cs| ==>
      if cs[i].name in got then
        got[cs[i].name] == if HeadName(cs, modes, i) in todo then None else PopulatedSchema(w, cs, got.Keys, rep, i)
      else HeadName(cs, modes, i) in todo || HeadName(cs, modes, i) !in got
  }

  /** The schema fields of the plugin objects. */
  ghost predicate Holds(plugins: map<string, LoadedPlugin>, got: map<string, Option<Schema>>)
    reads plugins.Values
  {
    got.Keys == plugins.Keys && forall n :: n in plugins ==> plugins[n].schema == got[n]
  }

  ghost function Given(got: map<string, Option<Schema>>, bucket: seq<string>, schema: Schema):
       (r: map<string, Option<Schema>>)
    ensures r.Keys == got.Keys && forall n :: n in r ==> r[n] == if n in bucket then Some(schema) else got[n]
  {
    Maps.MapOf(got.Keys, n => if n in bucket then Some(schema) else if n in got then got[n] else None)
  }

  method PopulateConnectionPluginSchemas(w: World, connections: seq<Connection>, plugins: map<string, LoadedPlugin>)
    returns (panicked: bool, ghost rep: map<string, string>)
    requires DistinctNames(connections) && PluginsOf(w, connections, plugins)
    requires forall n :: n in plugins ==> plugins[n].schema == None
    modifies plugins.Values
    ensures ValidRepresentatives(w, plugins.Keys, rep)
    ensures panicked <==> SharesWithUnloaded(w, connections, plugins.Keys)
    ensures !panicked ==> forall i :: 0 <= i < |connections| && connections[i].name in plugins ==>
              plugins[connections[i].name].schema == PopulatedSchema(w, connections, plugins.Keys, rep, i)
  {
    hide HeadName, BucketsOf, DoneExcept, SharesWithUnloaded, PopulatedSchema, DistinctNames, Fetch, SchemasThrough,
         PluginsOf, LoadedModes, ValidRepresentatives, PluginOf;
    var schemas;
    schemas, rep := BuildPluginSchemaMap(w, plugins);
    Representatives(w, connections, plugins, schemas, rep);
    var modes := BuildSchemaModeMap(plugins, schemas);
    ModesFound(w, plugins, schemas, modes);
    var schemaMap := NewConnectionSchemaMapForConnections(connections, modes);
    panicked := SetSchemas(w, connections, plugins, schemas, rep, modes, schemaMap);
  }

  /** For every connection with its own schema, gives that schema to all connections sharing it. */
  method SetSchemas(w: World, connections: seq<Connection>, plugins: map<string, LoadedPlugin>,
      schemas: map<string, Schema>,
                    ghost rep: map<string, string>, ghost modes: map<string, string>, schemaMap: ConnectionSchemaMap)
    returns (panicked: bool)
    requires DistinctNames(connections) && PluginsOf(w, connections, plugins)
    requires BucketsOf(connections, modes, |connections|, schemaMap) && modes == LoadedModes(w, plugins.Keys)
    requires SchemasThrough(w, plugins, plugins.Keys, schemas, rep)
    requires forall n :: n in plugins ==> plugins[n].schema == None
    modifies plugins.Values
    ensures panicked <==> SharesWithUnloaded(w, connections, plugins.Keys)
    ensures !panicked ==> forall i :: 0 <= i < |connections| && connections[i].name in plugins ==>
              plugins[connections[i].name].schema == PopulatedSchema(w, connections, plugins.Keys, rep, i)
  {
    hide HeadName, BucketsOf, DoneExcept, SharesWithUnloaded, PopulatedSchema, DistinctNames, Fetch, SchemasThrough,
         PluginsOf, LoadedModes, Given, PluginOf;
    Representatives(w, connections, plugins, schemas, rep);
    var todo := schemaMap.Keys;
    ghost var got := Maps.MapOf(plugins.Keys, (n: string) => None);
    NothingDone(w, connections, got, rep, modes, schemaMap);
    while todo != {}
      invariant todo <= schemaMap.Keys
      invariant Holds(plugins, got) && DoneExcept(w, connections, got, rep, todo)
      decreases todo
    {
      var c :| c in todo;
      if c in plugins {
        panicked := SetSchema(plugins, schemaMap[c], schemas[plugins[c].pluginName]);
        if panicked {
          ghost var x :| x in schemaMap[c] && x !in plugins;
          UnloadedInBucket(w, connections, plugins.Keys, modes, schemaMap, c, x);
          return;
        }
        BucketDone(w, connections, plugins, got, rep, schemas, modes, schemaMap, todo, c);
        got := Given(got, schemaMap[c], schemas[plugins[c].pluginName]);
      } else {
        BucketSkipped(w, connections, got, rep, todo, c);
      }
      todo := todo - {c};
    }
    AllDone(w, connections, got, rep);
    panicked := false;
  }

  lemma Representatives(w: World, cs: seq<Connection>, plugins: map<string, LoadedPlugin>,
                        schemas: map<string, Schema>, rep: map<string, string>)
    requires PluginsOf(w, cs, plugins) && SchemasThrough(w, plugins, plugins.Keys, schemas, rep)
    ensures ValidRepresentatives(w, plugins.Keys, rep)
    ensures forall n :: n in plugins ==>
              var p := plugins[n].pluginName;
              p in schemas && p in rep && schemas[p] == Fetch(w, rep[p]) && schemas[p].mode == w.mode(PluginOf(w, n))
              && p == PluginOf(w, n) && plugins[n].connectionName == n
  {
  }

  lemma ModesFound(w: World, plugins: map<string, LoadedPlugin>, schemas: map<string, Schema>,
      modes: map<string, string>)
    requires forall n :: n in plugins ==>
               plugins[n].pluginName in schemas && schemas[plugins[n].pluginName].mode == w.mode(PluginOf(w, n))
    requires modes.Keys == plugins.Keys && forall n :: n in modes ==> modes[n] == schemas[plugins[n].pluginName].mode
    ensures modes == LoadedModes(w, plugins.Keys)
  {
    hide LoadedModes, PluginOf;
  }

  lemma NothingDone(w: World, cs: seq<Connection>, got: map<string, Option<Schema>>, rep: map<string, string>,
                    modes: map<string, string>, m: ConnectionSchemaMap)
    requires BucketsOf(cs, modes, |cs|, m) && modes == LoadedModes(w, got.Keys)
    requires forall n :: n in got ==> got[n] == None
    ensures DoneExcept(w, cs, got, rep, m.Keys)
  {
    hide HeadName, BucketsOf, PopulatedSchema, LoadedModes, IsHead, Bucket;
    forall i | 0 <= i < |cs| ensures HeadName(cs, modes, i) in m {
      HeadInMap(cs, modes, m, i);
    }
  }

  lemma HeadInMap(cs: seq<Connection>, modes: map<string, string>, m: ConnectionSchemaMap, i: nat)
    requires BucketsOf(cs, modes, |cs|, m) && i < |cs|
    ensures HeadName(cs, modes, i) in m
  {
    HeadIsHead(cs, modes, i);
  }

  lemma UnloadedInBucket(w: World, cs: seq<Connection>, loaded: set<string>,
                         modes: map<string, string>, m: ConnectionSchemaMap, c: string, x: string)
    requires DistinctNames(cs) && BucketsOf(cs, modes, |cs|, m) && modes == LoadedModes(w, loaded)
    requires c in m && c in loaded && x in m[c] && x !in loaded
    ensures SharesWithUnloaded(w, cs, loaded)
  {
    hide HeadName, DistinctNames, LoadedModes, IsHead, Bucket;
    var h: nat :| h < |cs| && IsHead(cs, modes, h) && cs[h].name == c;
    BucketByHead(cs, modes, m, h, c);
    var i :| 0 <= i < |cs| && cs[i].name == x;
    BucketByHead(cs, modes, m, i, c);
  }

  lemma BucketDone(w: World, cs: seq<Connection>, plugins: map<string, LoadedPlugin>, got: map<string, Option<Schema>>,
                   rep: map<string, string>, schemas: map<string, Schema>, modes: map<string, string>,
                   m: ConnectionSchemaMap, todo: set<string>, c: string)
    requires DistinctNames(cs) && BucketsOf(cs, modes, |cs|, m) && modes == LoadedModes(w, plugins.Keys)
    requires PluginsOf(w, cs, plugins) && SchemasThrough(w, plugins, plugins.Keys, schemas, rep)
    requires c in m && c in plugins && plugins[c].pluginName in schemas && (forall x :: x in m[c] ==> x in plugins)
    requires got.Keys == plugins.Keys && DoneExcept(w, cs, got, rep, todo)
    ensures DoneExcept(w, cs, Given(got, m[c], schemas[plugins[c].pluginName]), rep, todo - {c})
  {
    hide BucketsOf, DistinctNames, LoadedModes, IsHead, Bucket, Head, Given, PluginsOf, SchemasThrough;
    Representatives(w, cs, plugins, schemas, rep);
    forall i | 0 <= i < |cs|
      ensures cs[i].name in m[c] <==> c == HeadName(cs, modes, i)
      ensures c == HeadName(cs, modes, i) ==>
                cs[i].name in got && PopulatedSchema(w, cs, got.Keys, rep, i) == Some(schemas[plugins[c].pluginName])
    {
      BucketByHead(cs, modes, m, i, c);
      if c == HeadName(cs, modes, i) {
        HeadPlugin(w, cs, plugins, modes, i);
      }
    }
  }

  lemma HeadPlugin(w: World, cs: seq<Connection>, plugins: map<string, LoadedPlugin>, modes: map<string, string>,
      i: nat)
    requires PluginsOf(w, cs, plugins) && i < |cs| && HeadName(cs, modes, i) in plugins
    ensures plugins[HeadName(cs, modes, i)].pluginName == cs[i].plugin
  {
    hide Head;
  }

  lemma BucketSkipped(w: World, cs: seq<Connection>, got: map<string, Option<Schema>>, rep: map<string, string>,
                      todo: set<string>, c: string)
    requires DoneExcept(w, cs, got, rep, todo) && c !in got
    ensures DoneExcept(w, cs, got, rep, todo - {c})
  {
    hide HeadName, LoadedModes;
  }

  lemma AllDone(w: World, cs: seq<Connection>, got: map<string, Option<Schema>>, rep: map<string, string>)
    requires DoneExcept(w, cs, got, rep, {})
    ensures !SharesWithUnloaded(w, cs, got.Keys)
    ensures forall i :: 0 <= i < |cs| && cs[i].name in got ==>
            got[cs[i].name] == PopulatedSchema(w, cs, got.Keys, rep, i)
  {
    hide HeadName, LoadedModes, PopulatedSchema;
    var modes := LoadedModes(w, got.Keys);
    forall i | 0 <= i < |cs| && cs[i].name in got ensures got[cs[i].name] == PopulatedSchema(w, cs, got.Keys, rep, i) {
      var h := HeadName(cs, modes, i);
    }
  }

  // ---------- When every connection gets its schema ----------

  /** No nil plugin is met, and every loaded connection is given a schema. */
  ghost predicate AllServed(w: World, cs: seq<Connection>, loaded: set<string>) {
    && !SharesWithUnloaded(w, cs, loaded)
    && forall i :: 0 <= i < |cs| && cs[i].name in loaded ==> HeadName(cs, LoadedModes(w, loaded), i) in loaded
  }

  /** Two connections of one plugin: with a static schema both or neither loaded; with a dynamic one,
      none that failed to load comes after a loaded one. */
  predicate LoadedAlike(w: World, cs: seq<Connection>, loaded: set<string>, i: nat, j: nat)
    requires i < j < |cs|
  {
    cs[i].plugin == cs[j].plugin ==>
      if w.mode(cs[i].plugin) == DYNAMIC then cs[i].name in loaded ==> cs[j].name in loaded
      else cs[i].name in loaded <==> cs[j].name in loaded
  }

  lemma {:induction false} LatestOfDynamic(cs: seq<Connection>, modes: map<string, string>, k: nat, i: nat)
    requires i < k <= |cs| && Dynamic(modes, cs[i])
    ensures var h := Latest(cs, modes, k, cs[i].plugin); i <= h < k && Dynamic(modes, cs[h])
  {
    if i < k - 1 {
      LatestOfDynamic(cs, modes, k - 1, i);
    }
  }

  lemma LoadedIsDynamic(w: World, cs: seq<Connection>, loaded: set<string>, i: nat)
    requires i < |cs| && PluginOf(w, cs[i].name) == cs[i].plugin
    ensures Dynamic(LoadedModes(w, loaded), cs[i]) <==> cs[i].name in loaded && w.mode(cs[i].plugin) == DYNAMIC
  {
  }

  lemma ServedIfLoadedAlike(w: World, cs: seq<Connection>, loaded: set<string>, i: nat)
    requires forall i :: 0 <= i < |cs| ==> PluginOf(w, cs[i].name) == cs[i].plugin
    requires forall i, j :: 0 <= i < j < |cs| ==> LoadedAlike(w, cs, loaded, i, j)
    requires i < |cs|
    ensures cs[i].name in loaded <==> HeadName(cs, LoadedModes(w, loaded), i) in loaded
  {
    hide Latest, LoadedModes, Dynamic, PluginOf;
    var h := Head(cs, LoadedModes(w, loaded), i);
    LoadedIsDynamic(w, cs, loaded, i);
    if h < i {
      assert LoadedAlike(w, cs, loaded, h, i);
    }
  }

  lemma LoadedAlikeIfServed(w: World, cs: seq<Connection>, loaded: set<string>, i: nat, j: nat)
    requires forall i :: 0 <= i < |cs| ==> PluginOf(w, cs[i].name) == cs[i].plugin
    requires i < j < |cs| && AllServed(w, cs, loaded)
    ensures LoadedAlike(w, cs, loaded, i, j)
  {
    hide Latest, LoadedModes, Dynamic, PluginOf, SharesWithUnloaded, HeadName;
    var modes := LoadedModes(w, loaded);
    var p := cs[i].plugin;
    forall k | 0 <= k < |cs| ensures Dynamic(modes, cs[k]) <==>
        cs[k].name in loaded && w.mode(cs[k].plugin) == DYNAMIC {
      LoadedIsDynamic(w, cs, loaded, k);
    }
    ServedHeads(w, cs, loaded, i);
    ServedHeads(w, cs, loaded, j);
    if p == cs[j].plugin {
      if w.mode(p) == DYNAMIC {
        if cs[i].name in loaded {
          LatestOfDynamic(cs, modes, j, i);
        }
      } else {
        LatestOfStatic(cs, modes, i + 1, j, p);
        StepOne(cs, modes, i);
      }
    }
  }

  lemma ServedHeads(w: World, cs: seq<Connection>, loaded: set<string>, i: nat)
    requires AllServed(w, cs, loaded) && i < |cs|
    ensures cs[i].name in loaded <==> cs[Head(cs, LoadedModes(w, loaded), i)].name in loaded
  {
    hide Head, LoadedModes;
    assert HeadName(cs, LoadedModes(w, loaded), i) == cs[Head(cs, LoadedModes(w, loaded), i)].name;
  }

  /** Exactly when any two connections of a plugin are loaded alike does populating the schemas meet no
      nil plugin and leave no loaded connection without a schema. */
  lemma AllServedIffLoadedAlike(w: World, cs: seq<Connection>, loaded: set<string>)
    requires forall i :: 0 <= i < |cs| ==> PluginOf(w, cs[i].name) == cs[i].plugin
    ensures AllServed(w, cs, loaded) <==> forall i, j :: 0 <= i < j < |cs| ==> LoadedAlike(w, cs, loaded, i, j)
  {
    hide LoadedAlike, Head, LoadedModes, HeadName, PluginOf;
    if AllServed(w, cs, loaded) {
      forall i, j | 0 <= i < j < |cs| ensures LoadedAlike(w, cs, loaded, i, j) {
        LoadedAlikeIfServed(w, cs, loaded, i, j);
      }
    }
    if forall i, j :: 0 <= i < j < |cs| ==> LoadedAlike(w, cs, loaded, i, j) {
      forall i | 0 <= i < |cs|
        ensures cs[i].name in loaded <==> HeadName(cs, LoadedModes(w, loaded), i) in loaded
      {
        ServedIfLoadedAlike(w, cs, loaded, i);
      }
    }
  }
}
