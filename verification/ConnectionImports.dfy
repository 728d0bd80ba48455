/** The plugin that each schema ends up imported from
    (steampipeconfig/connection_updates.go, db/db_local/local_db_client_connections.go).  */
module ConnectionImports {
  import opened Connections
  import opened ConnectionConvergence
  import opened Maps
  import opened Options

  // ---------- A connection moved to another plugin ----------

  /** The config moves n to another plugin in the refresh in which its dynamic schema changed. */
  ghost predicate PluginSwapped(w: World, sys: System, n: string) {
    var cur := Current(sys.state, ForeignSchemas(sys.db));
    SchemaChanged(w, cur, n) && cur[n].plugin != w.config[n].plugin && Import(w, cur[n].plugin, n).items != {}
  }

  /** The new plugin describes an item that is not in the old plugin's schema, which is what is imported. */
  ghost predicate SwapFails(w: World, sys: System, n: string) {
    PluginSwapped(w, sys, n) &&
    !Describes(w, LivePlugin(w, n), Import(w, Current(sys.state, ForeignSchemas(sys.db))[n].plugin, n))
  }

  lemma SwapMisfits(w: World, sys: System, n: string)
    requires Importable(w) && SwapFails(w, sys, n)
    ensures Misfits(w, sys)
  {
    hide MapOf, Equals, ForeignSchemas, Importable, Describes, Import, LivePlugin, Retry, Current;
    assert Misfit(w, Current(sys.state, ForeignSchemas(sys.db)), sys.db, n);
  }

  /** Then no refresh ever succeeds. */
  lemma SwapNeverSettles(w: World, sys: System, n: string)
    requires Importable(w) && SwapFails(w, sys, n)
    ensures !Settles(w, sys)
  {
    hide MapOf, Equals, ForeignSchemas, Importable, Describes, Import, LivePlugin, NoNil;
    var cur := Current(sys.state, ForeignSchemas(sys.db));
    SwapMisfits(w, sys, n);
    var sys1 := Retry(w, sys);
    RetryForeign(w, sys, n);
    assert Misfit(w, Current(sys1.state, ForeignSchemas(sys1.db)), sys1.db, n);
  }

  /** Plugin Q's table is described, and the schema of a comes from plugin P. */
  function SwapWorld(): World {
    World(map["a" := Connection("a", "Q", "", None)], map["Q" := 1], _ => DYNAMIC, _ => true,
        (plugin, _) => if plugin == "Q" then ["q_table"] else ["p_table"], _ => "hQ", plugin => plugin,
        (remote, _) => if remote == "Q" then {"q_table"} else {"p_table"})
  }

  function SwapSystem(): System {
    var entry := ConnectionData(STRUCT_VERSION, "P", Some(Connection("a", "P", "", None)), DYNAMIC, "hP", 1);
    System(map["a" := entry], map["a" := Import(SwapWorld(), "P", "a")])
  }

  lemma SwapImportable()
    ensures var w := SwapWorld();
            Importable(w) && UniformSchemas(w) && w.config.Keys == {"a"} && w.config["a"].plugin == "Q"
    ensures "q_table" in Described(SwapWorld(), LivePlugin(SwapWorld(), "a"))
    ensures Import(SwapWorld(), "P", "a").items == {"p_table"}
    ensures SwapWorld().hash("a") == "hQ"
  {
    var w := SwapWorld();
    assert w.config.Keys == {"a"};
    assert Import(w, "Q", "a").items == {"q_table"};
  }

  lemma SwapCurrent()
    ensures var sys := SwapSystem();
            && sys.db == map["a" := Import(SwapWorld(), "P", "a")]
            && Current(sys.state, ForeignSchemas(sys.db)) == sys.state
            && sys.state.Keys == {"a"} && sys.state["a"].schemaMode == DYNAMIC && sys.state["a"].schemaHash == "hP"
            && sys.state["a"].connection.Some? && sys.state["a"].plugin == "P"
  {
    var sys := SwapSystem();
    assert "p_table" in sys.db["a"].items;
    assert "a" in ForeignSchemas(sys.db);
  }

  lemma SwapFacts()
    ensures var w, sys := SwapWorld(), SwapSystem(); var cur := Current(sys.state, ForeignSchemas(sys.db));
            && Importable(w) && UniformSchemas(w) && NoNil(w, sys) && SwapFails(w, sys, "a")
            && w.config.Keys == {"a"} && cur.Keys == {"a"} && sys.db == map["a" := Import(w, cur["a"].plugin, "a")]
  {
    hide SwapWorld, SwapSystem, Current, ForeignSchemas, Importable, UniformSchemas, Import, LivePlugin, Described;
    SwapImportable();
    SwapCurrent();
    assert "p_table"[0] != "q_table"[0];
  }

  /** With everything importable, and a saved state without missing connections, refreshing can fail for
      ever: a connection is moved from P to Q, P's table is imported and Q's commented on. */
  lemma SwappedForEver(choices: nat -> Choice, k: nat)
    requires ValidRun(SwapWorld(), choices, SwapSystem())
    ensures var w, sys := SwapWorld(), SwapSystem();
            && Importable(w) && UniformSchemas(w) && NoNil(w, sys)
            && After(w, choices, sys, k) == sys && Refresh(w, choices(k), sys) == Stopped(sys)
  {
    hide SwapWorld, SwapSystem, Refresh, ValidChoice, ValidRun, After, Importable, UniformSchemas, NoNil, SwapFails,
         Retry;
    var w, sys := SwapWorld(), SwapSystem();
    SwapFacts();
    SwapObstructed();
    RunStep(w, choices, sys, k);
    if k > 0 {
      SwappedForEver(choices, k - 1);
      RunStep(w, choices, sys, k - 1);
    }
    ObstructedStep(w, choices(k), sys);
  }

  lemma SwapObstructed()
    ensures var w, sys := SwapWorld(), SwapSystem(); Misfits(w, sys) && Retry(w, sys) == sys
  {
    hide MapOf, Retry, SwapWorld, SwapSystem, Importable, UniformSchemas, NoNil, Current, ForeignSchemas, Misfits,
         Describes, Import, LivePlugin, Equals;
    var w, sys := SwapWorld(), SwapSystem();
    SwapFacts();
    SwapMisfits(w, sys, "a");
    var cur := Current(sys.state, ForeignSchemas(sys.db));
    assert NeedsUpdate(w, cur, "a") && DirectSchema(w, cur, sys.db, "a") == sys.db["a"];
    assert Retry(w, sys).db == sys.db;
  }

  // ---------- Which plugin a schema ends up imported from ----------

  /** A connection that needs no update has the schema of its plugin. */
  ghost predicate Faithful(w: World, sys: System) {
    var cur := Current(sys.state, ForeignSchemas(sys.db));
    forall n :: n in w.config && !NeedsUpdate(w, cur, n) ==>
      n in sys.db && sys.db[n].remote == w.remoteSchema(PluginOf(w, n))
  }

  ghost predicate ImportedFrom(w: World, db: Database, n: string, plugin: string) {
    n in db && db[n].remote == w.remoteSchema(plugin)
  }

  /** Where n's schema comes from once refreshes are silent. */
  ghost function FinalPlugin(w: World, sys: System, n: string): string {
    if PluginSwapped(w, sys, n) then Current(sys.state, ForeignSchemas(sys.db))[n].plugin else PluginOf(w, n)
  }

  lemma ImportedByName(w: World, sys: System, n: string)
    requires Importable(w) && Faithful(w, sys) && n in w.config
    ensures var cur := Current(sys.state, ForeignSchemas(sys.db)); var db' := DirectDb(w, cur, sys.db);
            n in db' && (n in ForeignSchemas(db') ==> ImportedFrom(w, db', n, FinalPlugin(w, sys, n)))
  {
    hide MapOf, Equals, Importable, LivePlugin;
    ImportableName(w, n);
  }

  lemma ImportedAgain(w: World, sys: System, n: string)
    requires Importable(w) && InStep(w, sys.state) && n in w.config
    ensures var cur := Current(sys.state, ForeignSchemas(sys.db)); var db' := DirectDb(w, cur, sys.db);
            && n in db'
            && (if n in ForeignSchemas(sys.db) && !WrongHash(w, sys.state[n], n) then db'[n] == sys.db[n]
                else ImportedFrom(w, db', n, w.config[n].plugin))
  {
    hide MapOf, Equals, Importable;
    NameInStep(w, sys, n);
  }

  /** With the state in step, a refresh imports n again from its plugin or leaves n's schema as it is. */
  lemma ImportedInStep(w: World, sys: System, n: string, p: string)
    requires Importable(w) && InStep(w, sys.state) && !Misfits(w, sys) && n in w.config
    requires n in ForeignSchemas(sys.db) ==> ImportedFrom(w, sys.db, n, p)
    requires n !in ForeignSchemas(sys.db) || WrongHash(w, sys.state[n], n) ==> p == w.config[n].plugin
    ensures match DirectRefresh(w, sys)
            case Updated(s) => ImportedFrom(w, s.db, n, p)
            case Silent => ImportedFrom(w, sys.db, n, p)
            case _ => false
  {
    hide MapOf, Equals, ForeignSchemas, DirectDb, Saved, Importable, WrongHash, InStep, NeedsUpdate, Misfits, Retry,
         Current;
    SilentWhenInStep(w, sys);
    ImportedAgain(w, sys, n);
  }

  lemma ImportedAfterTwo(w: World, c1: Choice, c2: Choice, sys: System, n: string)
    requires Importable(w) && UniformSchemas(w) && Faithful(w, sys) && !Obstructed(w, sys)
    requires ValidChoice(w, c1, sys) && ValidChoice(w, c2, Next(w, c1, sys)) && n in w.config
    ensures ImportedFrom(w, Next(w, c2, Next(w, c1, sys)).db, n, FinalPlugin(w, sys, n))
  {
    hide MapOf, Equals, ForeignSchemas, DirectDb, Saved, Importable, StaleEntry, LostImport, WrongHash, ValidChoice,
         UniformSchemas, HasConnections, Refresh, InStep, FinalPlugin, Faithful, NoNil, DirectRefresh, Misfits,
         ImportedFrom;
    RefreshIsDirect(w, c1, sys);
    NotStopped(w, sys);
    var sys1 := Next(w, c1, sys);
    RefreshIsDirect(w, c2, sys1);
    if DirectRefresh(w, sys) == Silent {
      SilentImports(w, sys, n);
    } else {
      UpdateBringsInStep(w, sys);
      ConnectedHasNoNil(w, sys1);
      UpdatedImports(w, sys, n);
      StaleOrLostIsNotSwapped(w, sys, n);
      ImportedInStep(w, sys1, n, FinalPlugin(w, sys, n));
    }
  }

  lemma UpdatedImports(w: World, sys: System, n: string)
    requires Importable(w) && Faithful(w, sys) && DirectRefresh(w, sys).Updated? && n in w.config
    ensures var db := DirectRefresh(w, sys).sys.db;
            n in ForeignSchemas(db) ==> ImportedFrom(w, db, n, FinalPlugin(w, sys, n))
  {
    hide MapOf, Equals, ForeignSchemas, Importable, Faithful, Misfits, Retry, ImportedFrom, FinalPlugin, NeedsUpdate,
         DirectDb, Current;
    ImportedByName(w, sys, n);
  }

  lemma SilentImports(w: World, sys: System, n: string)
    requires Importable(w) && Faithful(w, sys) && DirectRefresh(w, sys) == Silent && n in w.config
    ensures ImportedFrom(w, sys.db, n, FinalPlugin(w, sys, n))
  {
    hide MapOf, Importable, Misfits, Retry;
    assert !NeedsUpdate(w, Current(sys.state, ForeignSchemas(sys.db)), n);
  }

  lemma StaleOrLostIsNotSwapped(w: World, sys: System, n: string)
    requires n in w.config
    ensures StaleEntry(w, sys, n) || LostImport(w, sys, n) ==> FinalPlugin(w, sys, n) == w.config[n].plugin
  {
    hide MapOf, Equals;
  }

  lemma RetryFaithful(w: World, sys: System)
    requires Importable(w) && Faithful(w, sys)
    ensures Faithful(w, Retry(w, sys))
  {
    hide MapOf, Equals, Importable, Retry, ForeignSchemas;
    var sys1 := Retry(w, sys);
    var cur := Current(sys1.state, ForeignSchemas(sys1.db));
    forall n | n in w.config && !NeedsUpdate(w, cur, n)
      ensures n in sys1.db && sys1.db[n].remote == w.remoteSchema(PluginOf(w, n))
    {
      RetryForeign(w, sys, n);
      EqualsPlugin(w, cur[n], n);
    }
  }

  /** In every run, where a connection that needs no update has the schema of its plugin at the start: once
      refreshes are silent every required schema is imported from its required plugin, except exactly the
      connections whose plugin was swapped while their dynamic schema changed: those keep the old plugin's,
      which then has all that the new plugin describes.  Runs that end otherwise end every refresh with an
      error. */
  lemma {:induction false} FinalImports(w: World, choices: nat -> Choice, sys: System, k: nat, n: string)
    requires Importable(w) && UniformSchemas(w) && Faithful(w, sys) && Settles(w, sys)
    requires ValidRun(w, choices, sys) && k >= 3 && n in w.config
    ensures ImportedFrom(w, After(w, choices, sys, k).db, n, FinalPlugin(w, Start(w, sys), n))
    ensures !SwapFails(w, Start(w, sys), n) && !SwapFails(w, sys, n)
  {
    hide Refresh, DirectRefresh, ValidChoice, Importable, UniformSchemas, NoNil, Misfits, Retry, After, ValidRun,
         ImportedFrom, FinalPlugin, Faithful, SwapFails;
    if SwapFails(w, sys, n) {
      SwapNeverSettles(w, sys, n);
    }
    StartFits(w, sys, n);
    RunStep(w, choices, sys, k - 1);
    if k > 3 {
      FinalImports(w, choices, sys, k - 1, n);
      RefreshSettles(w, choices, sys, k - 1);
    } else {
      RunStep(w, choices, sys, 0);
      RunStep(w, choices, sys, 1);
      var sys1, sys2 := After(w, choices, sys, 1), After(w, choices, sys, 2);
      if Misfits(w, sys) {
        ObstructedStep(w, choices(0), sys);
        RetryFaithful(w, sys);
        ImportedAfterTwo(w, choices(1), choices(2), sys1, n);
      } else {
        ImportedAfterTwo(w, choices(0), choices(1), sys, n);
        SettledInTwo(w, choices(0), choices(1), sys);
        RefreshIsDirect(w, choices(2), sys2);
      }
    }
  }

  lemma StartFits(w: World, sys: System, n: string)
    requires Importable(w) && Settles(w, sys)
    ensures !SwapFails(w, Start(w, sys), n)
  {
    hide Importable, NoNil, Misfits, Retry, SwapFails;
    var s := Start(w, sys);
    if SwapFails(w, s, n) {
      SwapNeverSettles(w, s, n);
    }
  }
}
