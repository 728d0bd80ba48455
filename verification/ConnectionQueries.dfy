/** The SQL built for a refresh, and what running it does
    (db/db_local/local_db_client_connections.go, db/db_local/execute.go). */
module ConnectionQueries {
  import opened Connections
  import opened Options

  datatype Statement =
    | DropSchemaIfExists(name: string)
    | CreateSchema(name: string)
    | CommentOnSchema(name: string, comment: string)
    | GrantUsage(name: string)
    | AlterDefaultPrivileges(name: string)
    | GrantSelect(name: string)
    | ImportForeignSchema(remote: string, name: string)
    | CommentOn(name: string, item: string)

  function Granted(s: Imported, access: Access): Imported {
    s.(access := access)
  }

  /** The items of the remote schema; the users may read them if that was made the default before. */
  function ImportInto(w: World, remote: string, n: string, s: Imported): Imported {
    var items := w.items(remote, n);
    s.(remote := remote, items := items, access := s.access.(select := if s.access.defaults then items else {}))
  }

  /** One statement; None is an SQL error. */
  function Exec(w: World, s: Statement, db: Database): Option<Database> {
    match s
    case DropSchemaIfExists(n) => Some(db - {n})
    case CreateSchema(n) => if n in db then None else Some(db[n := NOTHING])
    case CommentOnSchema(n, comment) => if n in db then Some(db[n := db[n].(comment := comment)]) else None
    case GrantUsage(n) => if n in db then Some(db[n := Granted(db[n], db[n].access.(usage := true))]) else None
    case AlterDefaultPrivileges(n) =>
      if n in db then Some(db[n := Granted(db[n], db[n].access.(defaults := true))]) else None
    case GrantSelect(n) => if n in db then Some(db[n := Granted(db[n], db[n].access.(select := db[n].items))]) else None
    case ImportForeignSchema(remote, n) => if n in db then Some(db[n := ImportInto(w, remote, n, db[n])]) else None
    case CommentOn(n, item) => if n in db && item in db[n].items then Some(db) else None
  }

  /** A statement fails exactly if it creates a schema that exists, is about one that does not (unless it drops
      it), or comments on an item that is not there; and it touches no other schema. */
  lemma StatementFailsExactly(w: World, s: Statement, db: Database)
    ensures Exec(w, s, db).None? <==>
            || (s.CreateSchema? && s.name in db)
            || (!s.CreateSchema? && !s.DropSchemaIfExists? && s.name !in db)
            || (s.CommentOn? && s.name in db && s.item !in db[s.name].items)
    ensures Exec(w, s, db).Some? ==>
              var d := Exec(w, s, db).value;
              forall m :: m != s.name ==> (m in d <==> m in db) && (m in d ==> d[m] == db[m])
  {
  }

  /** The database when all statements were executed, or when one failed. */
  datatype RunResult = Completed(db: Database) | Broken(db: Database)

  /** Statements are executed one after the other, each on its own, until one fails. */
  function Run(w: World, stmts: seq<Statement>, db: Database): RunResult {
    if stmts == [] then Completed(db)
    else
      match Exec(w, stmts[0], db)
      case None => Broken(db)
      case Some(d) => Run(w, stmts[1..], d)
  }

  /** Going on with b after a result. */
  function Then(w: World, r: RunResult, b: seq<Statement>): RunResult {
    if r.Completed? then Run(w, b, r.db) else r
  }

  lemma {:induction false} RunConcat(w: World, a: seq<Statement>, b: seq<Statement>, db: Database)
    ensures Run(w, a + b, db) == Then(w, Run(w, a, db), b)
  {
    if a == [] {
      assert a + b == b;
    } else {
      assert (a + b)[0] == a[0] && (a + b)[1..] == a[1..] + b;
      match Exec(w, a[0], db)
      case None =>
      case Some(d) => RunConcat(w, a[1..], b, d);
    }
  }

  lemma RunThen(w: World, a: seq<Statement>, s: Statement, db: Database)
    ensures Run(w, a + [s], db) ==
            var r := Run(w, a, db);
            if r.Broken? then r else match Exec(w, s, r.db) { case None => Broken(r.db) case Some(d) => Completed(d) }
  {
    RunConcat(w, a, [s], db);
    if Run(w, a, db).Completed? {
      RunOne(w, s, Run(w, a, db).db);
    }
  }

  lemma RunOne(w: World, s: Statement, db: Database)
    ensures Run(w, [s], db) == match Exec(w, s, db) { case None => Broken(db) case Some(d) => Completed(d) }
  {
    assert [s][1..] == [];
  }

  function UpdateConnectionQuery(name: string, remote: string): seq<Statement> {
    [DropSchemaIfExists(name), CreateSchema(name), CommentOnSchema(name, "steampipe plugin: " + remote),
     GrantUsage(name), AlterDefaultPrivileges(name), GrantSelect(name), ImportForeignSchema(remote, name)]
  }

  function DeleteConnectionQuery(name: string): seq<Statement> {
    [DropSchemaIfExists(name)]
  }

  /** Whatever was there before, the update statements succeed and leave the imported schema, with its
      comment, which the users may enter and of which they may read everything; no other schema changes. */
  lemma UpdateConnectionRuns(w: World, name: string, remote: string, db: Database)
    ensures var r := Run(w, UpdateConnectionQuery(name, remote), db);
            && r == Completed(db[name := ImportRemote(w, remote, name)])
            && r.db[name].remote == remote && r.db[name].items == w.items(remote, name)
            && r.db[name].comment == "steampipe plugin: " + remote
            && r.db[name].access.usage && r.db[name].access.select == w.items(remote, name)
  {
    hide Run, Exec, Granted;
    var q := UpdateConnectionQuery(name, remote);
    var d := db - {name};
    UpdateSteps(w, name, remote, db);
    RunNothing(w, db);
    RunThen(w, [], q[0], db);
    assert q[..1] == [] + [q[0]];
    RunThen(w, q[..1], q[1], db);
    assert q[..2] == q[..1] + [q[1]];
    NextRuns(w, q, 2, db, d, name, NOTHING, UpdateStage(remote, 2));
    NextRuns(w, q, 3, db, d, name, UpdateStage(remote, 2), UpdateStage(remote, 3));
    NextRuns(w, q, 4, db, d, name, UpdateStage(remote, 3), UpdateStage(remote, 4));
    NextRuns(w, q, 5, db, d, name, UpdateStage(remote, 4), UpdateStage(remote, 4));
    NextRuns(w, q, 6, db, d, name, UpdateStage(remote, 4), ImportRemote(w, remote, name));
    assert q[..7] == q;
    assert d[name := ImportRemote(w, remote, name)] == db[name := ImportRemote(w, remote, name)];
  }

  /** The new schema after statement number k, counting from 0. */
  function UpdateStage(remote: string, k: nat): Imported {
    Imported("", {}, "steampipe plugin: " + remote, Access(k >= 3, k >= 4, {}))
  }

  lemma UpdateSteps(w: World, name: string, remote: string, db: Database)
    ensures var q, d := UpdateConnectionQuery(name, remote), db - {name};
            && Exec(w, q[0], db) == Some(d) && Exec(w, q[1], d) == Some(d[name := NOTHING])
            && Exec(w, q[2], d[name := NOTHING]) == Some(d[name := NOTHING][name := UpdateStage(remote, 2)])
            && Exec(w, q[3], d[name := UpdateStage(remote, 2)])
               == Some(d[name := UpdateStage(remote, 2)][name := UpdateStage(remote, 3)])
            && Exec(w, q[4], d[name := UpdateStage(remote, 3)])
               == Some(d[name := UpdateStage(remote, 3)][name := UpdateStage(remote, 4)])
            && Exec(w, q[5], d[name := UpdateStage(remote, 4)])
               == Some(d[name := UpdateStage(remote, 4)][name := UpdateStage(remote, 4)])
            && Exec(w, q[6], d[name := UpdateStage(remote, 4)])
               == Some(d[name := UpdateStage(remote, 4)][name := ImportRemote(w, remote, name)])
  {
  }

  /** Statement k changes the schema of a name from a to b. */
  lemma NextRuns(w: World, q: seq<Statement>, k: nat, db: Database, d: Database, name: string, a: Imported, b: Imported)
    requires k < |q| && Run(w, q[..k], db) == Completed(d[name := a])
    requires Exec(w, q[k], d[name := a]) == Some(d[name := a][name := b])
    ensures Run(w, q[..k + 1], db) == Completed(d[name := b])
  {
    hide Run, Exec;
    RunThen(w, q[..k], q[k], db);
    assert q[..k + 1] == q[..k] + [q[k]];
    assert d[name := a][name := b] == d[name := b];
  }

  lemma DeleteConnectionRuns(w: World, name: string, db: Database)
    ensures Run(w, DeleteConnectionQuery(name), db) == Completed(db - {name})
  {
    RunOne(w, DropSchemaIfExists(name), db);
  }

  function Comments(name: string, items: seq<string>): seq<Statement> {
    if items == [] then []
    else Comments(name, items[..|items| - 1]) + [CommentOn(name, items[|items| - 1])]
  }

  /** Comments change nothing, and all succeed exactly if every item is there. */
  lemma {:induction false} CommentsRun(w: World, name: string, items: seq<string>, db: Database)
    requires name in db
    ensures Run(w, Comments(name, items), db) ==
            if forall x :: x in items ==> x in db[name].items then Completed(db) else Broken(db)
  {
    hide Run;
    if items == [] {
      RunNothing(w, db);
    } else {
      var init, last := items[..|items| - 1], items[|items| - 1];
      CommentsRun(w, name, init, db);
      RunThen(w, Comments(name, init), CommentOn(name, last), db);
      assert items == init + [last];
    }
  }

  // ---------- Queries in any order ----------

  /** The connections that failed validation. */
  function Failures(u: Updates): set<string> {
    set n | n in u.plugins && !Valid(n, u.plugins[n])
  }

  function RemoteOf(w: World, u: Updates, n: string): string {
    w.remoteSchema(Entry(u.update, n).plugin)
  }

  /** Group k of the query list, for one connection: 0 updates it, 1 drops it for failing validation
      against the protocol version, 2 comments on its tables and columns, 3 drops it as no longer required. */
  function GroupQuery(w: World, u: Updates, group: nat, n: string): seq<Statement> {
    if group == 0 then UpdateConnectionQuery(n, RemoteOf(w, u, n))
    else if group == 1 then
      (if n in u.plugins && !u.plugins[n].compatible then DeleteConnectionQuery(n) else [])
    else if group == 2 then
      (if n in u.plugins then Comments(n, Described(w, u.plugins[n])) else [])
    else DeleteConnectionQuery(n)
  }

  function GroupQueries(w: World, u: Updates, group: nat, order: seq<string>): seq<Statement> {
    if order == [] then []
    else GroupQueries(w, u, group, order[..|order| - 1]) + GroupQuery(w, u, group, order[|order| - 1])
  }

  /** The orders in which the program's four loops meet the names. */
  datatype Orders = Orders(updates: seq<string>, failures: seq<string>, comments: seq<string>, deletes: seq<string>)

  ghost predicate Enumerates(order: seq<string>, names: set<string>) {
    forall n :: n in order <==> n in names
  }

  ghost predicate ValidOrders(u: Updates, o: Orders) {
    && Enumerates(o.updates, Validated(u))
    && Enumerates(o.failures, Failures(u))
    && Enumerates(o.comments, u.plugins.Keys - Failures(u))
    && Enumerates(o.deletes, u.delete.Keys)
  }

  function UpdateQueries(w: World, u: Updates, o: Orders): seq<Statement> {
    if u.update == map[] then []
    else GroupQueries(w, u, 0, o.updates) + GroupQueries(w, u, 1, o.failures) + GroupQueries(w, u, 2, o.comments)
  }

  function Queries(w: World, u: Updates, o: Orders): seq<Statement> {
    UpdateQueries(w, u, o) + GroupQueries(w, u, 3, o.deletes)
  }

  /** db after group 0 has met the names of an order. */
  ghost predicate ImportedInto(w: World, u: Updates, order: seq<string>, db: Database, d: Database) {
    && (forall n :: n in d <==> n in db || n in order)
    && (forall n :: n in d ==> d[n] == if n in order then ImportRemote(w, RemoteOf(w, u, n), n) else db[n])
  }

  lemma {:induction false} UpdatesRun(w: World, u: Updates, order: seq<string>, db: Database) returns (d: Database)
    ensures Run(w, GroupQueries(w, u, 0, order), db) == Completed(d) && ImportedInto(w, u, order, db, d)
  {
    hide Run, UpdateConnectionQuery, Comments, RemoteOf, ImportRemote;
    if order == [] {
      RunNothing(w, db);
      d := db;
    } else {
      var n := order[|order| - 1];
      var d0 := UpdatesRun(w, u, order[..|order| - 1], db);
      RunConcat(w, GroupQueries(w, u, 0, order[..|order| - 1]), GroupQuery(w, u, 0, n), db);
      UpdateConnectionRuns(w, n, RemoteOf(w, u, n), d0);
      d := d0[n := ImportRemote(w, RemoteOf(w, u, n), n)];
      assert order == order[..|order| - 1] + [n];
    }
  }

  /** The names group 1 or group 3 drops out of an order. */
  function DroppedOf(u: Updates, group: nat, order: seq<string>): set<string> {
    if group == 1 then set n | n in order && n in u.plugins && !u.plugins[n].compatible
    else set n | n in order
  }

  lemma {:induction false} DropsRun(w: World, u: Updates, group: nat, order: seq<string>, db: Database)
    requires group == 1 || group == 3
    ensures Run(w, GroupQueries(w, u, group, order), db) == Completed(db - DroppedOf(u, group, order))
  {
    hide Run, Exec, UpdateConnectionQuery, Comments;
    if order == [] {
      RunNothing(w, db);
      assert DroppedOf(u, group, order) == {};
      assert db - {} == db;
    } else {
      var init, n := order[..|order| - 1], order[|order| - 1];
      DropsRun(w, u, group, init, db);
      var d := db - DroppedOf(u, group, init);
      RunConcat(w, GroupQueries(w, u, group, init), GroupQuery(w, u, group, n), db);
      assert order == init + [n];
      if group == 3 || (n in u.plugins && !u.plugins[n].compatible) {
        DeleteConnectionRuns(w, n, d);
        assert DroppedOf(u, group, order) == DroppedOf(u, group, init) + {n};
        assert d - {n} == db - DroppedOf(u, group, order);
      } else {
        RunNothing(w, d);
        assert DroppedOf(u, group, order) == DroppedOf(u, group, init);
      }
    }
  }

  /** The comments of the loaded plugins in an order are about what is in the database. */
  ghost predicate OrderFits(w: World, u: Updates, order: seq<string>, db: Database) {
    forall n :: n in order && n in u.plugins && n in db ==> Describes(w, u.plugins[n], db[n])
  }

  /** The comments change nothing, and all succeed exactly if all items are there. */
  lemma {:induction false} CommentGroupRuns(w: World, u: Updates, order: seq<string>, db: Database)
    requires forall n :: n in order && n in u.plugins ==> n in db
    ensures Run(w, GroupQueries(w, u, 2, order), db) == if OrderFits(w, u, order, db) then Completed(db) else Broken(db)
  {
    hide Run, Exec, UpdateConnectionQuery, Comments, Described;
    if order == [] {
      RunNothing(w, db);
    } else {
      var init, n := order[..|order| - 1], order[|order| - 1];
      assert order == init + [n];
      CommentGroupRuns(w, u, init, db);
      RunConcat(w, GroupQueries(w, u, 2, init), GroupQuery(w, u, 2, n), db);
      OrderFitsSnoc(w, u, init, n, db);
      if n in u.plugins {
        CommentsRun(w, n, Described(w, u.plugins[n]), db);
      } else {
        RunNothing(w, db);
      }
    }
  }

  lemma OrderFitsSnoc(w: World, u: Updates, init: seq<string>, n: string, db: Database)
    ensures OrderFits(w, u, init + [n], db) <==>
            OrderFits(w, u, init, db) && (n in u.plugins && n in db ==> Describes(w, u.plugins[n], db[n]))
  {
    hide Describes;
    assert n in init + [n];
    assert forall k :: k in init + [n] <==> k in init || k == n;
  }

  /** Updates that a refresh can compute: what is loaded is updated or already there, and what is
      deleted is not loaded. */
  predicate Runnable(u: Updates, db: Database) {
    && u.plugins.Keys <= db.Keys + u.update.Keys
    && u.plugins.Keys !! u.delete.Keys
    && u.update.Keys <= u.plugins.Keys
  }

  /** Whatever order the maps are traversed in: if every described item of a validated plugin is in its
      schema after the imports, no statement fails and the schemas end up the same, the old ones without
      the deleted and dropped ones, the validated ones imported anew.  Otherwise, and only then, a comment
      fails, with all imports and drops of failing connections done and nothing deleted. */
  lemma QueriesOrderIndependent(w: World, u: Updates, o: Orders, db: Database)
    requires Runnable(u, db) && ValidOrders(u, o)
    ensures Run(w, Queries(w, u, o), db) ==
            if CommentsFit(w, u, db) then Completed(DatabaseAfter(w, u, db)) else Broken(PartialDatabase(w, u, db))
  {
    hide Valid, DatabaseAfter, GroupQueries, Run, Exec, CommentsFit, PartialDatabase, OrderFits, Failures, Runnable,
         Validated, Dropped, DroppedOf, ValidOrders, ImportedInto;
    var d1, d2 := db, db;
    if u.update != map[] {
      d1 := UpdatesRun(w, u, o.updates, db);
      DropsRun(w, u, 1, o.failures, d1);
      d2 := d1 - DroppedOf(u, 1, o.failures);
      RunConcat(w, GroupQueries(w, u, 0, o.updates), GroupQueries(w, u, 1, o.failures), db);
      CommentedPresent(u, o, db, d1, d2, w);
      CommentGroupRuns(w, u, o.comments, d2);
      RunConcat(w, GroupQueries(w, u, 0, o.updates) + GroupQueries(w, u, 1, o.failures),
          GroupQueries(w, u, 2, o.comments), db);
      SchemasBefore(w, u, o, db, d1, d2);
      FitsInOrder(w, u, o, db, d2);
    } else {
      RunNothing(w, db);
      AlwaysFits(w, u, db);
    }
    assert Run(w, UpdateQueries(w, u, o), db) == if CommentsFit(w, u, db) then Completed(d2) else Broken(d2);
    RunConcat(w, UpdateQueries(w, u, o), GroupQueries(w, u, 3, o.deletes), db);
    DropsRun(w, u, 3, o.deletes, d2);
    SameDatabase(w, u, o, db, d2);
  }

  lemma RunNothing(w: World, db: Database)
    ensures Run(w, [], db) == Completed(db)
  {
  }

  lemma AlwaysFits(w: World, u: Updates, db: Database)
    requires u.update == map[]
    ensures CommentsFit(w, u, db)
  {
  }

  lemma CommentedPresent(u: Updates, o: Orders, db: Database, d1: Database, d2: Database, w: World)
    requires Runnable(u, db) && ValidOrders(u, o) && ImportedInto(w, u, o.updates, db, d1)
    requires d2 == d1 - DroppedOf(u, 1, o.failures)
    ensures forall n :: n in o.comments && n in u.plugins ==> n in d2
  {
  }

  lemma DroppedInOrder(u: Updates, o: Orders)
    requires u.update != map[] && ValidOrders(u, o)
    ensures DroppedOf(u, 1, o.failures) == Dropped(u) && Dropped(u) !! Validated(u)
  {
  }

  lemma SchemasBefore(w: World, u: Updates, o: Orders, db: Database, d1: Database, d2: Database)
    requires u.update != map[] && ValidOrders(u, o) && ImportedInto(w, u, o.updates, db, d1)
    requires d2 == d1 - DroppedOf(u, 1, o.failures)
    ensures d2 == PartialDatabase(w, u, db)
  {
    hide PartialDatabase, Valid, Dropped, DroppedOf;
    DroppedInOrder(u, o);
    var b := PartialDatabase(w, u, db);
    assert d2.Keys == b.Keys;
    forall n | n in d2 ensures d2[n] == b[n] {
      assert b[n] == SchemaAfter(w, u, db, n);
    }
  }

  lemma FitsInOrder(w: World, u: Updates, o: Orders, db: Database, d2: Database)
    requires u.update != map[] && ValidOrders(u, o) && d2 == PartialDatabase(w, u, db)
    requires forall n :: n in o.comments && n in u.plugins ==> n in d2
    ensures CommentsFit(w, u, db) <==> OrderFits(w, u, o.comments, d2)
  {
    hide PartialDatabase, Valid, Describes, SchemaAfter, Validated, Dropped;
    forall n ensures n in o.comments && n in u.plugins <==> n in u.plugins && Valid(n, u.plugins[n]) {
      assert n in o.comments <==> n in u.plugins.Keys - Failures(u);
    }
  }

  lemma SameDatabase(w: World, u: Updates, o: Orders, db: Database, d2: Database)
    requires Runnable(u, db) && ValidOrders(u, o)
    requires d2 == if u.update == map[] then db else PartialDatabase(w, u, db)
    ensures d2 - DroppedOf(u, 3, o.deletes) == DatabaseAfter(w, u, db)
  {
    hide DatabaseAfter, PartialDatabase, Valid, Dropped;
    var a, b := d2 - DroppedOf(u, 3, o.deletes), DatabaseAfter(w, u, db);
    assert u.update == map[] ==> Validated(u) == {};
    NothingDropped(u);
    assert DroppedOf(u, 3, o.deletes) == u.delete.Keys;
    assert a.Keys == b.Keys;
    forall n | n in a ensures a[n] == b[n] {
      assert b[n] == SchemaAfter(w, u, db, n);
    }
  }

  lemma NothingDropped(u: Updates)
    ensures u.update == map[] ==> Dropped(u) == {}
  {
  }

  lemma {:induction false} CommentsEmpty(name: string, items: seq<string>)
    ensures Comments(name, items) == [] <==> items == []
  {
  }

  lemma {:induction false} GroupEmpty(w: World, u: Updates, group: nat, order: seq<string>)
    ensures GroupQueries(w, u, group, order) == [] <==> forall n :: n in order ==> GroupQuery(w, u, group, n) == []
  {
    hide GroupQuery;
    if order != [] {
      var init, n := order[..|order| - 1], order[|order| - 1];
      GroupEmpty(w, u, group, init);
      assert order == init + [n];
    }
  }

  /** The query list is empty exactly when there is nothing to do. */
  lemma QueriesEmpty(w: World, u: Updates, o: Orders)
    requires ValidOrders(u, o) && u.update.Keys <= u.plugins.Keys
    ensures Queries(w, u, o) == [] <==> !HasQueries(w, u)
  {
    hide Valid, GroupQueries;
    GroupEmpty(w, u, 0, o.updates);
    GroupEmpty(w, u, 1, o.failures);
    GroupEmpty(w, u, 2, o.comments);
    GroupEmpty(w, u, 3, o.deletes);
    assert (forall n :: n in o.updates ==> GroupQuery(w, u, 0, n) == []) <==> Validated(u) == {};
    assert (forall n :: n in o.deletes ==> GroupQuery(w, u, 3, n) == []) <==> u.delete == map[] by {
      DeletesEmpty(w, u, o);
    }
    if u.update == map[] {
      assert Validated(u) == {};
    } else {
      FailuresEmpty(w, u, o);
      CommentGroupEmpty(w, u, o);
    }
  }

  lemma DeletesEmpty(w: World, u: Updates, o: Orders)
    requires Enumerates(o.deletes, u.delete.Keys)
    ensures (forall n :: n in o.deletes ==> GroupQuery(w, u, 3, n) == []) <==> u.delete == map[]
  {
    if u.delete != map[] {
      var n :| n in u.delete;
      assert n in o.deletes && GroupQuery(w, u, 3, n) != [];
    }
  }

  lemma FailuresEmpty(w: World, u: Updates, o: Orders)
    requires Enumerates(o.failures, Failures(u)) && u.update != map[]
    ensures (forall n :: n in o.failures ==> GroupQuery(w, u, 1, n) == []) <==> Dropped(u) == {}
  {
    if Dropped(u) != {} {
      var n :| n in Dropped(u);
      assert n in o.failures && GroupQuery(w, u, 1, n) != [];
    } else {
      forall n | n in o.failures ensures GroupQuery(w, u, 1, n) == [] {
        assert n !in Dropped(u);
      }
    }
  }

  lemma CommentGroupEmpty(w: World, u: Updates, o: Orders)
    requires Enumerates(o.comments, u.plugins.Keys - Failures(u)) && u.update != map[]
    ensures (forall n :: n in o.comments ==> GroupQuery(w, u, 2, n) == []) <==> Commented(w, u) == {}
  {
    hide Comments;
    forall n | n in o.comments
      ensures GroupQuery(w, u, 2, n) == [] <==> n !in Commented(w, u)
    {
      CommentsEmpty(n, Described(w, u.plugins[n]));
    }
    if Commented(w, u) != {} {
      var n :| n in Commented(w, u);
      assert n in o.comments;
    }
  }

  lemma CurrentExists(state: ConnectionDataMap, db: Database)
    ensures Current(state, ForeignSchemas(db)).Keys <= db.Keys
  {
    hide Current;
  }

  lemma UnionKeys<V>(a: map<string, V>, b: map<string, V>)
    ensures (a + b).Keys == a.Keys + b.Keys
  {
  }

  lemma UpdateKeys(w: World, choice: Choice, cur: ConnectionDataMap)
    ensures var req, u := Required(w), NewUpdates(w, choice, cur);
            && u.plugins.Keys == (OutOfDate(req, cur) - DynamicNames(req, cur)) + DynamicNames(req, cur)
            && u.delete.Keys == cur.Keys - req.Keys
            && OutOfDate(req, cur) <= u.update.Keys <= OutOfDate(req, cur) + DynamicNames(req, cur)
  {
    hide Equals, SavedState, CreatePlugins, UpdateMap, DeleteMap, Required, OutOfDate, DynamicNames;
    var req := Required(w);
    var loaded := CreatePlugins(w, DynamicNames(req, cur), choice.first);
    UnionKeys(CreatePlugins(w, OutOfDate(req, cur) - loaded.Keys, choice.second), loaded);
    assert HashChanged(cur, loaded) <= loaded.Keys;
  }

  lemma RunnableKeys(w: World, choice: Choice, cur: ConnectionDataMap, db: Database)
    requires cur.Keys <= db.Keys
    ensures Runnable(NewUpdates(w, choice, cur), db)
  {
    hide Required, OutOfDate, NewUpdates;
    UpdateKeys(w, choice, cur);
    OutOfDateRequired(Required(w), cur);
    var u := NewUpdates(w, choice, cur);
    assert DynamicNames(Required(w), cur) <= cur.Keys * Required(w).Keys;
  }

  lemma OutOfDateRequired(req: ConnectionDataMap, cur: ConnectionDataMap)
    ensures OutOfDate(req, cur) <= req.Keys
  {
    hide Equals;
  }

  lemma NewUpdatesRunnable(w: World, choice: Choice, sys: System)
    ensures Runnable(NewUpdates(w, choice, Current(sys.state, ForeignSchemas(sys.db))), sys.db)
  {
    hide Current, ForeignSchemas, NewUpdates, Runnable;
    CurrentExists(sys.state, sys.db);
    RunnableKeys(w, choice, Current(sys.state, ForeignSchemas(sys.db)), sys.db);
  }

  /** One refresh, run statement by statement in any order, ends in the database Refresh gives, and breaks off
      exactly if Refresh stops. */
  lemma RefreshRunsQueries(w: World, choice: Choice, sys: System, o: Orders)
    requires Refresh(w, choice, sys) != Failed
    requires ValidOrders(NewUpdates(w, choice, Current(sys.state, ForeignSchemas(sys.db))), o)
    ensures var queries := Queries(w, NewUpdates(w, choice, Current(sys.state, ForeignSchemas(sys.db))), o);
            && Run(w, queries, sys.db) ==
                 (match Refresh(w, choice, sys)
                  case Updated(s) => Completed(s.db)
                  case Stopped(s) => Broken(s.db)
                  case _ => Completed(sys.db))
            && (Refresh(w, choice, sys) == Silent <==> queries == [])
  {
    hide NewUpdates, Run, Exec, DatabaseAfter, PartialDatabase, HasQueries, Queries, ValidOrders, Runnable, Current,
         Panics, CommentsFit, ForeignSchemas, AllInstalled, CreatePlugins, DynamicNames, Required;
    var u := NewUpdates(w, choice, Current(sys.state, ForeignSchemas(sys.db)));
    NewUpdatesRunnable(w, choice, sys);
    QueriesOrderIndependent(w, u, o, sys.db);
    assert u.update.Keys <= u.plugins.Keys by { RunnableLoads(u, sys.db); }
    QueriesEmpty(w, u, o);
    RunNothing(w, sys.db);
  }

  lemma RunnableLoads(u: Updates, db: Database)
    requires Runnable(u, db)
    ensures u.update.Keys <= u.plugins.Keys
  {
  }
}
