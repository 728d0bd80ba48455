/** One run of a control: its rows, its summary, and its reports to its group
    (control/controlexecute/control_run.go, result_row.go, status_summary.go). */
module ControlRuns {
  import opened ControlExecution
  import opened Options

  const MAX_ATTEMPTS := 2

  const OK := "ok"
  const ALARM := "alarm"
  const SKIP := "skip"
  const INFO := "info"
  const ERROR := "error"

  /** The order of the statuses in the results. */
  const STATUS_ORDER := [ERROR, ALARM, INFO, OK, SKIP]

  predicate IsValidControlStatus(s: string) {
    s in [OK, ALARM, INFO, ERROR, SKIP]
  }

  datatype Dimension = Dimension(key: string, value: string)

  datatype ResultRow = ResultRow(reason: string, resource: string, status: string, dimensions: seq<Dimension>)

  datatype Column = Column(name: string, scalar: bool)

  /** What the query sends: a row of values, or an error. */
  datatype RowResult = Data(values: seq<string>) | Failed

  // ---------- Reading a row ----------

  const REQUIRED_COLUMNS := ["reason", "resource", "status"]

  predicate HasColumn(cols: seq<Column>, name: string) {
    exists c :: c in cols && c.name == name
  }

  predicate HasRequiredColumns(cols: seq<Column>) {
    forall n :: n in REQUIRED_COLUMNS ==> HasColumn(cols, n)
  }

  /** The value of the last of the first n columns with a name. */
  function LastValue(cols: seq<Column>, values: seq<string>, n: nat, name: string): string
    requires n <= |cols| == |values|
  {
    if n == 0 then "" else if cols[n - 1].name == name then values[n - 1] else LastValue(cols, values, n - 1, name)
  }

  /** The other scalar columns, in order. */
  function DimensionsOf(cols: seq<Column>, values: seq<string>, n: nat): seq<Dimension>
    requires n <= |cols| == |values|
  {
    if n == 0 then []
    else DimensionsOf(cols, values, n - 1) +
         if cols[n - 1].name in REQUIRED_COLUMNS || !cols[n - 1].scalar then []
             else [Dimension(cols[n - 1].name, values[n - 1])]
  }

  predicate StatusesValid(cols: seq<Column>, values: seq<string>, n: nat)
    requires n <= |cols| == |values|
  {
    forall i :: 0 <= i < n && cols[i].name == "status" ==> IsValidControlStatus(values[i])
  }

  function RowOf(cols: seq<Column>, values: seq<string>): (row: Option<ResultRow>)
    requires |cols| == |values|
  {
    if HasRequiredColumns(cols) && StatusesValid(cols, values, |cols|) then
      Some(ResultRow(LastValue(cols, values, |cols|, "reason"), LastValue(cols, values, |cols|, "resource"),
                     LastValue(cols, values, |cols|, "status"), DimensionsOf(cols, values, |cols|)))
    else None
  }

  method NewResultRow(cols: seq<Column>, values: seq<string>) returns (row: Option<ResultRow>)
    requires |cols| == |values|
    ensures row == RowOf(cols, values)
  {
    for i := 0 to |REQUIRED_COLUMNS|
      invariant forall j :: 0 <= j < i ==> HasColumn(cols, REQUIRED_COLUMNS[j])
    {
      if !HasColumn(cols, REQUIRED_COLUMNS[i]) {
        assert REQUIRED_COLUMNS[i] in REQUIRED_COLUMNS;
        return None;
      }
    }
    var res := ResultRow("", "", "", []);
    for i := 0 to |cols|
      invariant StatusesValid(cols, values, i)
      invariant res == ResultRow(LastValue(cols, values, i, "reason"), LastValue(cols, values, i, "resource"),
                                 LastValue(cols, values, i, "status"), DimensionsOf(cols, values, i))
    {
      if cols[i].name == "reason" {
        res := res.(reason := values[i]);
      } else if cols[i].name == "resource" {
        res := res.(resource := values[i]);
      } else if cols[i].name == "status" {
        if !IsValidControlStatus(values[i]) {
          return None;
        }
        res := res.(status := values[i]);
      } else if cols[i].scalar {
        res := res.(dimensions := res.dimensions + [Dimension(cols[i].name, values[i])]);
      }
    }
    row := Some(res);
  }

  lemma {:induction false} LastValueIsOne(cols: seq<Column>, values: seq<string>, n: nat)
    requires n <= |cols| == |values| && StatusesValid(cols, values, n)
    requires exists i :: 0 <= i < n && cols[i].name == "status"
    ensures IsValidControlStatus(LastValue(cols, values, n, "status"))
  {
    if cols[n - 1].name != "status" {
      LastValueIsOne(cols, values, n - 1);
    }
  }

  /** A row that is read has one of the five statuses. */
  lemma RowHasStatus(cols: seq<Column>, values: seq<string>)
    requires |cols| == |values| && RowOf(cols, values).Some?
    ensures IsValidControlStatus(RowOf(cols, values).value.status)
  {
    assert "status" in REQUIRED_COLUMNS by { assert REQUIRED_COLUMNS[2] == "status"; }
    var c :| c in cols && c.name == "status";
    var i :| 0 <= i < |cols| && cols[i] == c;
    LastValueIsOne(cols, values, |cols|);
  }

  predicate Named(cols: seq<Column>, i: int, name: string) {
    0 <= i < |cols| && cols[i].name == name
  }

  /** Column i is the last one with that name. */
  ghost predicate LastNamed(cols: seq<Column>, i: int, name: string) {
    Named(cols, i, name) && forall j :: Named(cols, j, name) ==> j <= i
  }

  lemma {:induction false} LastValueAt(cols: seq<Column>, values: seq<string>, n: nat, name: string, i: nat)
    requires i < n <= |cols| == |values| && Named(cols, i, name)
    requires forall j :: Named(cols, j, name) && j < n ==> j <= i
    ensures LastValue(cols, values, n, name) == values[i]
  {
    if i < n - 1 {
      assert !Named(cols, n - 1, name);
      LastValueAt(cols, values, n - 1, name, i);
    }
  }

  lemma HasColumnNamed(cols: seq<Column>, name: string)
    ensures HasColumn(cols, name) <==> exists i :: Named(cols, i, name)
  {
    if HasColumn(cols, name) {
      var c :| c in cols && c.name == name;
      var i :| 0 <= i < |cols| && cols[i] == c;
      assert Named(cols, i, name);
    }
    if exists i :: Named(cols, i, name) {
      var i :| Named(cols, i, name);
      assert cols[i] in cols;
    }
  }

  lemma RequiredAre(name: string)
    ensures name in REQUIRED_COLUMNS <==> name in {"reason", "resource", "status"}
  {
    assert REQUIRED_COLUMNS[0] == "reason" && REQUIRED_COLUMNS[1] == "resource" && REQUIRED_COLUMNS[2] == "status";
  }

  lemma RequiredNames(cols: seq<Column>)
    ensures HasRequiredColumns(cols) <==>
            HasColumn(cols, "reason") && HasColumn(cols, "resource") && HasColumn(cols, "status")
  {
    hide HasColumn;
    RequiredAre("reason");
    RequiredAre("resource");
    RequiredAre("status");
    forall n | n in REQUIRED_COLUMNS ensures n in {"reason", "resource", "status"} {
      RequiredAre(n);
    }
  }

  /** A row can be read exactly if reason, resource and status are among the columns and every status is one of
      the five. */
  lemma ReadsExactly(cols: seq<Column>, values: seq<string>)
    requires |cols| == |values|
    ensures RowOf(cols, values).Some? <==>
            && (exists i :: Named(cols, i, "reason"))
            && (exists i :: Named(cols, i, "resource"))
            && (exists i :: Named(cols, i, "status"))
            && forall i :: Named(cols, i, "status") ==> values[i] in {"ok", "alarm", "info", "error", "skip"}
  {
    hide LastValue, DimensionsOf, HasRequiredColumns, HasColumn;
    RequiredNames(cols);
    HasColumnNamed(cols, "reason");
    HasColumnNamed(cols, "resource");
    HasColumnNamed(cols, "status");
    assert forall s :: IsValidControlStatus(s) <==> s in {"ok", "alarm", "info", "error", "skip"};
    hide IsValidControlStatus;
    assert (forall i :: Named(cols, i, "status") ==> IsValidControlStatus(values[i])) <==>
           StatusesValid(cols, values, |cols|);
  }

  /** Reason, resource and status are the values under the last columns of those names. */
  lemma RowFields(cols: seq<Column>, values: seq<string>, i: nat)
    requires |cols| == |values| && RowOf(cols, values).Some?
    ensures LastNamed(cols, i, "reason") ==> RowOf(cols, values).value.reason == values[i]
    ensures LastNamed(cols, i, "resource") ==> RowOf(cols, values).value.resource == values[i]
    ensures LastNamed(cols, i, "status") ==> RowOf(cols, values).value.status == values[i]
  {
    hide LastValue, DimensionsOf, HasRequiredColumns;
    if LastNamed(cols, i, "reason") {
      LastValueAt(cols, values, |cols|, "reason", i);
    }
    if LastNamed(cols, i, "resource") {
      LastValueAt(cols, values, |cols|, "resource", i);
    }
    if LastNamed(cols, i, "status") {
      LastValueAt(cols, values, |cols|, "status", i);
    }
  }

  /** The columns that are dimensions: scalar, and not one of the three. */
  predicate IsDimension(cols: seq<Column>, i: int) {
    0 <= i < |cols| && cols[i].scalar && cols[i].name !in {"reason", "resource", "status"}
  }

  lemma DimensionsNext(cols: seq<Column>, values: seq<string>, n: nat)
    requires n < |cols| == |values|
    ensures DimensionsOf(cols, values, n + 1) ==
            DimensionsOf(cols, values, n) + if IsDimension(cols, n) then [Dimension(cols[n].name, values[n])] else []
  {
    RequiredAre(cols[n].name);
  }

  /** The pairs are those of the columns at some places: the dimensions among the first n, in order. */
  ghost predicate PairsAt(cols: seq<Column>, values: seq<string>, n: nat, at: seq<nat>, ds: seq<Dimension>)
    requires |cols| == |values|
  {
    && |at| == |ds|
    && (forall j, k :: 0 <= j < k < |at| ==> at[j] < at[k])
    && (forall i :: i in at <==> i < n && IsDimension(cols, i))
    && forall k :: 0 <= k < |at| ==> at[k] < |cols| && ds[k] == Dimension(cols[at[k]].name, values[at[k]])
  }

  lemma PairsNext(cols: seq<Column>, values: seq<string>, n: nat, at: seq<nat>, ds: seq<Dimension>)
    requires n < |cols| == |values| && PairsAt(cols, values, n, at, ds)
    ensures if IsDimension(cols, n)
            then PairsAt(cols, values, n + 1, at + [n], ds + [Dimension(cols[n].name, values[n])])
            else PairsAt(cols, values, n + 1, at, ds)
  {
    hide IsDimension;
    if IsDimension(cols, n) {
      assert forall k :: 0 <= k < |at| ==> at[k] in at && at[k] < n;
    }
  }

  lemma {:induction false} DimensionsAt(cols: seq<Column>, values: seq<string>, n: nat) returns (at: seq<nat>)
    requires n <= |cols| == |values|
    ensures PairsAt(cols, values, n, at, DimensionsOf(cols, values, n))
  {
    if n == 0 {
      at := [];
    } else {
      hide DimensionsOf, IsDimension, PairsAt;
      at := DimensionsAt(cols, values, n - 1);
      DimensionsNext(cols, values, n - 1);
      PairsNext(cols, values, n - 1, at, DimensionsOf(cols, values, n - 1));
      if IsDimension(cols, n - 1) {
        at := at + [n - 1];
      } else {
        assert DimensionsOf(cols, values, n - 1) + [] == DimensionsOf(cols, values, n - 1);
      }
    }
  }

  /** The dimensions are the other scalar columns, all of them and each once, in the order of the columns. */
  lemma RowDimensions(cols: seq<Column>, values: seq<string>) returns (at: seq<nat>)
    requires |cols| == |values| && RowOf(cols, values).Some?
    ensures PairsAt(cols, values, |cols|, at, RowOf(cols, values).value.dimensions)
  {
    hide LastValue, DimensionsOf, HasRequiredColumns;
    at := DimensionsAt(cols, values, |cols|);
  }

  // ---------- Ordering rows ----------

  /** The rows with a status, in the order received. */
  function Filter(rows: seq<ResultRow>, status: string): (r: seq<ResultRow>)
    ensures forall x :: x in r ==> x in rows && x.status == status
    ensures rows == [] ==> r == []
  {
    if rows == [] then []
    else Filter(rows[..|rows| - 1], status) + if rows[|rows| - 1].status == status then [rows[|rows| - 1]] else []
  }

  lemma {:induction false} FilterConcat(a: seq<ResultRow>, b: seq<ResultRow>, status: string)
    ensures Filter(a + b, status) == Filter(a, status) + Filter(b, status)
  {
    hide Filter;
    if b == [] {
      assert a + b == a;
    } else {
      var init, x := b[..|b| - 1], b[|b| - 1];
      FilterConcat(a, init, status);
      FilterSnoc(a + init, x, status);
      FilterSnoc(init, x, status);
      assert a + b == (a + init) + [x] && b == init + [x];
    }
  }

  lemma {:induction false} FilterFilter(rows: seq<ResultRow>, s: string, status: string)
    ensures Filter(Filter(rows, s), status) == if s == status then Filter(rows, s) else []
  {
    if rows != [] {
      var init, last := rows[..|rows| - 1], rows[|rows| - 1];
      FilterFilter(init, s, status);
      FilterConcat(Filter(init, s), if last.status == s then [last] else [], status);
      assert last.status == s ==> Filter([last], status) == if s == status then [last] else [];
    }
  }

  function StatusRank(status: string): nat {
    if status == ERROR then 0 else if status == ALARM then 1 else if status == INFO then 2
        else if status == OK then 3 else 4
  }

  ghost predicate AllValid(rows: seq<ResultRow>) {
    forall i :: 0 <= i < |rows| ==> IsValidControlStatus(rows[i].status)
  }

  ghost predicate Sorted(rows: seq<ResultRow>) {
    forall i, j :: 0 <= i < j < |rows| ==> StatusRank(rows[i].status) <= StatusRank(rows[j].status)
  }

  /** Sorted by status, with the rows of each status as received. */
  ghost predicate StableSort(received: seq<ResultRow>, rows: seq<ResultRow>) {
    AllValid(rows) && Sorted(rows) && forall status :: Filter(rows, status) == Filter(received, status)
  }

  lemma {:induction false} InFilter(rows: seq<ResultRow>, x: ResultRow)
    ensures x in rows <==> x in Filter(rows, x.status)
  {
    if rows != [] {
      InFilter(rows[..|rows| - 1], x);
      assert rows == rows[..|rows| - 1] + [rows[|rows| - 1]];
    }
  }

  lemma FilterSnoc(rows: seq<ResultRow>, x: ResultRow, status: string)
    ensures Filter(rows + [x], status) == Filter(rows, status) + if x.status == status then [x] else []
  {
    assert (rows + [x])[..|rows|] == rows;
  }

  /** The last row of a sorted sequence ranks at least as high as any row of it. */
  lemma LastRanksHighest(a: seq<ResultRow>, x: ResultRow)
    requires Sorted(a) && x in a
    ensures StatusRank(x.status) <= StatusRank(a[|a| - 1].status)
  {
    hide StatusRank;
  }

  lemma SameLast(a: seq<ResultRow>, x: ResultRow, b: seq<ResultRow>, y: ResultRow)
    requires Sorted(a + [x]) && Sorted(b + [y]) && IsValidControlStatus(x.status) && IsValidControlStatus(y.status)
    requires forall status :: Filter(a + [x], status) == Filter(b + [y], status)
    ensures x == y
  {
    hide Sorted, Filter, StatusRank;
    InFilter(a + [x], x);
    InFilter(b + [y], x);
    InFilter(a + [x], y);
    InFilter(b + [y], y);
    LastRanksHighest(b + [y], x);
    LastRanksHighest(a + [x], y);
    RankInjective(x.status, y.status);
    FilterSnoc(a, x, x.status);
    FilterSnoc(b, y, x.status);
    assert x == Filter(a + [x], x.status)[|Filter(a, x.status)|] == Filter(b + [y], x.status)[|Filter(b, x.status)|];
  }

  lemma RankInjective(s: string, t: string)
    requires IsValidControlStatus(s) && IsValidControlStatus(t) && StatusRank(s) == StatusRank(t)
    ensures s == t
  {
  }

  lemma DropSameLast(a: seq<ResultRow>, b: seq<ResultRow>, x: ResultRow, status: string)
    requires Filter(a + [x], status) == Filter(b + [x], status)
    ensures Filter(a, status) == Filter(b, status)
  {
    hide Filter;
    FilterSnoc(a, x, status);
    FilterSnoc(b, x, status);
    var t := if x.status == status then [x] else [];
    assert Filter(a, status) == (Filter(a, status) + t)[..|Filter(a + [x], status)| - |t|];
    assert Filter(b, status) == (Filter(b, status) + t)[..|Filter(b + [x], status)| - |t|];
  }

  lemma SplitLast(a: seq<ResultRow>)
    requires a != [] && AllValid(a) && Sorted(a)
    ensures var init, x := a[..|a| - 1], a[|a| - 1];
            a == init + [x] && AllValid(init) && Sorted(init) && IsValidControlStatus(x.status)
  {
    hide IsValidControlStatus, StatusRank;
  }

  /** There is only one stable sort. */
  lemma {:induction false} StableSortUnique(a: seq<ResultRow>, b: seq<ResultRow>)
    requires AllValid(a) && AllValid(b) && Sorted(a) && Sorted(b)
    requires forall status :: Filter(a, status) == Filter(b, status)
    ensures a == b
  {
    hide Filter, AllValid, Sorted, IsValidControlStatus;
    if a == [] || b == [] {
      if a != b {
        var x := if a == [] then b[0] else a[0];
        InFilter(a, x);
        InFilter(b, x);
      }
    } else {
      SplitLast(a);
      SplitLast(b);
      var a', x, b', y := a[..|a| - 1], a[|a| - 1], b[..|b| - 1], b[|b| - 1];
      SameLast(a', x, b', y);
      forall status ensures Filter(a', status) == Filter(b', status) {
        assert Filter(a, status) == Filter(b, status);
        DropSameLast(a', b', x, status);
      }
      StableSortUnique(a', b');
    }
  }

  lemma {:induction false} FilterCount(rows: seq<ResultRow>, x: ResultRow)
    ensures multiset(rows)[x] == multiset(Filter(rows, x.status))[x]
  {
    hide Filter;
    if rows != [] {
      var init, y := rows[..|rows| - 1], rows[|rows| - 1];
      FilterCount(init, x);
      assert rows == init + [y];
      FilterSnoc(init, y, x.status);
    }
  }

  /** The results are the rows in error, then those in alarm, info, ok and skip, each as received. */
  lemma StableSortIs(received: seq<ResultRow>, rows: seq<ResultRow>)
    requires StableSort(received, rows)
    ensures rows == Filter(received, "error") + Filter(received, "alarm") + Filter(received, "info")
                    + Filter(received, "ok") + Filter(received, "skip")
  {
    hide Filter, AllValid, Sorted, IsValidControlStatus;
    var e, a, i, o, s := Filter(received, "error"), Filter(received, "alarm"), Filter(received, "info"),
        Filter(received, "ok"), Filter(received, "skip");
    var all := e + a + i + o + s;
    assert AllValid(all) && Sorted(all) by { ConcatSorted(e, a, i, o, s); }
    forall status ensures Filter(all, status) == Filter(rows, status) {
      FilterOfAll(received, status);
      if !IsValidControlStatus(status) {
        OnlyValid(rows, status);
      }
      StatusIs(status);
    }
    StableSortUnique(all, rows);
  }

  lemma StatusIs(status: string)
    ensures IsValidControlStatus(status) <==> status in {"error", "alarm", "info", "ok", "skip"}
  {
  }

  lemma ConcatSorted(e: seq<ResultRow>, a: seq<ResultRow>, i: seq<ResultRow>, o: seq<ResultRow>, s: seq<ResultRow>)
    requires forall r :: r in e ==> r.status == "error"
    requires forall r :: r in a ==> r.status == "alarm"
    requires forall r :: r in i ==> r.status == "info"
    requires forall r :: r in o ==> r.status == "ok"
    requires forall r :: r in s ==> r.status == "skip"
    ensures AllValid(e + a + i + o + s) && Sorted(e + a + i + o + s)
  {
    NextSorted([], e, 0);
    assert [] + e == e;
    NextSorted(e, a, 1);
    NextSorted(e + a, i, 2);
    NextSorted(e + a + i, o, 3);
    NextSorted(e + a + i + o, s, 4);
  }

  lemma FilterOfAll(received: seq<ResultRow>, status: string)
    ensures var e, a, i, o, s := Filter(received, "error"), Filter(received, "alarm"), Filter(received, "info"),
                Filter(received, "ok"), Filter(received, "skip");
            Filter(e + a + i + o + s, status) ==
            if status in {"error", "alarm", "info", "ok", "skip"} then Filter(received, status) else []
  {
    hide Filter;
    var e, a, i, o, s := Filter(received, "error"), Filter(received, "alarm"), Filter(received, "info"),
        Filter(received, "ok"), Filter(received, "skip");
    FilterConcat(e + a + i + o, s, status);
    FilterConcat(e + a + i, o, status);
    FilterConcat(e + a, i, status);
    FilterConcat(e, a, status);
    FilterFilter(received, "error", status);
    FilterFilter(received, "alarm", status);
    FilterFilter(received, "info", status);
    FilterFilter(received, "ok", status);
    FilterFilter(received, "skip", status);
  }

  /** A stable sort keeps every row, as often as received. */
  lemma StableSortKeepsRows(received: seq<ResultRow>, rows: seq<ResultRow>)
    requires StableSort(received, rows)
    ensures multiset(rows) == multiset(received) && |rows| == |received|
  {
    forall x ensures multiset(rows)[x] == multiset(received)[x] {
      FilterCount(rows, x);
      FilterCount(received, x);
    }
    assert multiset(rows) == multiset(received);
    assert |multiset(rows)| == |rows| && |multiset(received)| == |received|;
  }

  // ---------- What a run ends with ----------

  /** The events are the rows of one query. */
  predicate RowsOf(cols: seq<Column>, events: seq<RowResult>) {
    forall i :: 0 <= i < |events| && events[i].Data? ==> |events[i].values| == |cols|
  }

  predicate IsRow(cols: seq<Column>, e: RowResult) {
    e.Data? && |e.values| == |cols| && RowOf(cols, e.values).Some?
  }

  /** How many events come before the first that is not a row. */
  function GoodRows(cols: seq<Column>, events: seq<RowResult>): (n: nat)
    ensures n <= |events| && (forall i :: 0 <= i < n ==> IsRow(cols, events[i]))
    ensures n < |events| ==> !IsRow(cols, events[n])
  {
    if events == [] || !IsRow(cols, events[0]) then 0 else 1 + GoodRows(cols, events[1..])
  }

  function RowsRead(cols: seq<Column>, events: seq<RowResult>, n: nat): seq<ResultRow>
    requires n <= |events| && forall i :: 0 <= i < n ==> IsRow(cols, events[i])
  {
    if n == 0 then []
    else
      assert IsRow(cols, events[n - 1]);
      RowsRead(cols, events, n - 1) + [RowOf(cols, events[n - 1].values).value]
  }

  function Received(cols: seq<Column>, events: seq<RowResult>): seq<ResultRow> {
    RowsRead(cols, events, GoodRows(cols, events))
  }

  lemma {:induction false} RowsReadAt(cols: seq<Column>, events: seq<RowResult>, n: nat, i: nat)
    requires i < n <= |events| && forall j :: 0 <= j < n ==> IsRow(cols, events[j])
    ensures |RowsRead(cols, events, n)| == n && RowsRead(cols, events, n)[i] == RowOf(cols, events[i].values).value
  {
    hide RowOf;
    if n > 1 {
      RowsReadAt(cols, events, n - 1, if i < n - 1 then i else 0);
    }
  }

  /** The rows received are those of the events before the first that is no row, in order. */
  lemma ReceivedAt(cols: seq<Column>, events: seq<RowResult>, i: nat)
    ensures |Received(cols, events)| == GoodRows(cols, events)
    ensures i < GoodRows(cols, events) ==>
              && events[i].Data? && |events[i].values| == |cols|
              && RowOf(cols, events[i].values) == Some(Received(cols, events)[i])
    ensures GoodRows(cols, events) < |events| ==> !IsRow(cols, events[GoodRows(cols, events)])
  {
    hide RowOf, GoodRows;
    var n := GoodRows(cols, events);
    if n > 0 {
      RowsReadAt(cols, events, n, if i < n then i else 0);
      assert i < n ==> IsRow(cols, events[i]);
    }
  }

  predicate EndsInRowError(cols: seq<Column>, events: seq<RowResult>) {
    GoodRows(cols, events) < |events| && events[GoodRows(cols, events)].Failed?
  }

  /** How many rows have each status. */
  function CountsOf(rows: seq<ResultRow>): Summary {
    Summary(|Filter(rows, ALARM)|, |Filter(rows, ERROR)|, |Filter(rows, INFO)|, |Filter(rows, OK)|,
        |Filter(rows, SKIP)|)
  }

  /** One more row with a status. */
  function CountOne(s: Summary, status: string): Summary {
    Summary(s.alarm + (if status == ALARM then 1 else 0), s.error + (if status == ERROR then 1 else 0),
            s.info + (if status == INFO then 1 else 0), s.ok + (if status == OK then 1 else 0),
            s.skip + (if status == SKIP then 1 else 0))
  }

  lemma CountsSnoc(rows: seq<ResultRow>, row: ResultRow)
    ensures CountsOf(rows + [row]) == CountOne(CountsOf(rows), row.status)
  {
    hide Filter;
    FilterSnoc(rows, row, ALARM);
    FilterSnoc(rows, row, ERROR);
    FilterSnoc(rows, row, INFO);
    FilterSnoc(rows, row, OK);
    FilterSnoc(rows, row, SKIP);
  }

  function OneMoreError(s: Summary): Summary {
    s.(error := s.error + 1)
  }

  lemma {:induction false} CountsAddUp(rows: seq<ResultRow>)
    requires AllValid(rows)
    ensures TotalCount(CountsOf(rows)) == |rows|
  {
    if rows != [] {
      CountsAddUp(rows[..|rows| - 1]);
    }
  }

  /** The places of the rows with a status. */
  ghost function Places(rows: seq<ResultRow>, status: string): set<int> {
    set i | 0 <= i < |rows| && rows[i].status == status
  }

  lemma {:induction false} FilterPlaces(rows: seq<ResultRow>, status: string)
    ensures |Filter(rows, status)| == |Places(rows, status)|
  {
    if rows != [] {
      var init, last := rows[..|rows| - 1], rows[|rows| - 1];
      FilterPlaces(init, status);
      FilterSnoc(init, last, status);
      PlacesSnoc(init, last, status);
      assert rows == init + [last];
      hide Filter, Places;
    }
  }

  lemma PlacesSnoc(rows: seq<ResultRow>, x: ResultRow, status: string)
    ensures |Places(rows + [x], status)| == |Places(rows, status)| + if x.status == status then 1 else 0
  {
    assert Places(rows + [x], status) == Places(rows, status) + if x.status == status then {|rows|} else {};
  }

  /** A summary of rows has the number of rows with each status. */
  lemma CountsByStatus(rows: seq<ResultRow>)
    ensures var s := CountsOf(rows);
            && s.alarm == |Places(rows, "alarm")| && s.error == |Places(rows, "error")|
            && s.info == |Places(rows, "info")| && s.ok == |Places(rows, "ok")| && s.skip == |Places(rows, "skip")|
  {
    hide Filter, Places;
    FilterPlaces(rows, "alarm");
    FilterPlaces(rows, "error");
    FilterPlaces(rows, "info");
    FilterPlaces(rows, "ok");
    FilterPlaces(rows, "skip");
  }

  /** What becomes of one try at executing the control's query. */
  datatype Attempt =
    | NoSession
    | QueryUnresolved
    | SearchPathFails
    | QueryFails(connectivity: bool)
    | Results(cols: seq<Column>, events: seq<RowResult>)

  ghost predicate GoodTries(tries: nat -> Attempt) {
    forall n :: tries(n).Results? ==> RowsOf(tries(n).cols, tries(n).events)
  }

  /** The last try, starting from try n. */
  function LastTry(tries: nat -> Attempt, n: nat): (l: nat)
    ensures l >= n
    decreases MAX_ATTEMPTS - n
  {
    if tries(n) == QueryFails(true) && n + 1 < MAX_ATTEMPTS then LastTry(tries, n + 1) else n
  }

  function RowErrors(t: Attempt): nat {
    if t.Results? && EndsInRowError(t.cols, t.events) then 1 else 0
  }

  /** How often a run reports its summary to its group. */
  function Reports(tries: nat -> Attempt, n: nat): (r: nat)
    ensures r > 0
  {
    LastTry(tries, n) - n + 1 + RowErrors(tries(LastTry(tries, n)))
  }

  function Copies(n: nat, s: Summary): seq<Summary> {
    if n == 0 then [] else Copies(n - 1, s) + [s]
  }

  function FinalSummary(t: Attempt): Summary {
    match t
    case NoSession => EMPTY_SUMMARY
    case Results(cols, events) =>
      var counts := CountsOf(Received(cols, events));
      if GoodRows(cols, events) == |events| then counts else OneMoreError(counts)
    case _ => OneMoreError(EMPTY_SUMMARY)
  }

  /** A run reports once exactly when its first query does not fail for lack of a connection to the
      plugin and no row arrives as an error. */
  lemma ReportsOnce(tries: nat -> Attempt)
    ensures Reports(tries, 0) == 1 <==> tries(0) != QueryFails(true) && RowErrors(tries(0)) == 0
    ensures 1 <= Reports(tries, 0) <= MAX_ATTEMPTS + 1
  {
    hide EndsInRowError;
    assert LastTry(tries, 1) == 1;
  }

  /** A run is retried once, exactly when its first query fails for lack of a connection to the plugin, and it
      reports once for each try, and once more if the rows of the last one break off with an error. */
  lemma ReportsExactly(tries: nat -> Attempt)
    ensures var retried := tries(0) == QueryFails(true); var last := tries(if retried then 1 else 0);
            && LastTry(tries, 0) == (if retried then 1 else 0)
            && Reports(tries, 0) == 1 + (if retried then 1 else 0)
                                    + (if last.Results? && GoodRows(last.cols, last.events) < |last.events|
                                          && last.events[GoodRows(last.cols, last.events)].Failed? then 1 else 0)
  {
    hide GoodRows;
    assert LastTry(tries, 1) == 1;
  }

  /** The counts a run ends with: none without a session; one error if its query cannot be run; else the number
      of rows read with each status, and one error more if the rows do not come to their end. */
  lemma SummaryExactly(t: Attempt)
    ensures t.NoSession? ==> TotalCount(FinalSummary(t)) == 0
    ensures !t.NoSession? && !t.Results? ==>
              FinalSummary(t).error == 1 && TotalCount(FinalSummary(t)) == 1
    ensures t.Results? ==>
              var rows, s := Received(t.cols, t.events), FinalSummary(t);
              && s.alarm == |Places(rows, "alarm")| && s.info == |Places(rows, "info")|
              && s.ok == |Places(rows, "ok")| && s.skip == |Places(rows, "skip")|
              && s.error == |Places(rows, "error")| + if GoodRows(t.cols, t.events) == |t.events| then 0 else 1
  {
    hide GoodRows, Received, CountsOf, Places;
    if t.Results? {
      CountsByStatus(Received(t.cols, t.events));
    }
  }

  // ---------- The run ----------

  datatype RunStatus = Ready | Started | Complete | InError

  class ControlRun {
    var summary: Summary
    var rows: seq<ResultRow>
    var rowMap: map<string, seq<ResultRow>>
    var runStatus: RunStatus
    var attempts: nat
    var done: nat                 // signals in doneChan, which has room for one
    var reported: seq<Summary>    // what the group's updateSummary was called with

    constructor ()
      ensures Unused() && runStatus == Ready && attempts == 0 && reported == []
    {
      summary, rows, rowMap := EMPTY_SUMMARY, [], map[];
      runStatus, attempts, done, reported := Ready, 0, 0, [];
    }

    /** No rows yet, and nothing sent on doneChan. */
    ghost predicate Unused()
      reads this
    {
      summary == EMPTY_SUMMARY && rows == [] && rowMap == map[] && done == 0
    }

    /** The rows so far, by status, and their number. */
    ghost predicate HasRows(received: seq<ResultRow>)
      reads this
    {
      && summary == CountsOf(received)
      && (forall s :: s in rowMap ==> rowMap[s] == Filter(received, s))
      && (forall s :: s !in rowMap ==> Filter(received, s) == [])
    }

    /** Sending on doneChan must not block. */
    method SetRunStatus(status: RunStatus)
      requires status == Complete || status == InError ==> done == 0
      modifies this`runStatus, this`done
      ensures runStatus == status && done == if status == Complete || status == InError then 1 else old(done)
    {
      runStatus := status;
      if runStatus == Complete || runStatus == InError {
        done := done + 1;
      }
    }

    method SetError()
      requires done == 0
      modifies this`summary, this`runStatus, this`done
      ensures summary == OneMoreError(old(summary)) && runStatus == InError && done == 1
    {
      summary := summary.(error := summary.error + 1);
      SetRunStatus(InError);
    }

    method AddResultRow(row: ResultRow, ghost received: seq<ResultRow>)
      requires HasRows(received) && IsValidControlStatus(row.status)
      modifies this`summary, this`rowMap
      ensures HasRows(received + [row])
    {
      hide Filter, CountsOf, CountOne;
      CountsSnoc(received, row);
      forall s ensures Filter(received + [row], s) == if row.status == s then Filter(received, s) + [row]
          else Filter(received, s) {
        FilterSnoc(received, row, s);
      }
      var before := if row.status in rowMap then rowMap[row.status] else [];
      rowMap := rowMap[row.status := before + [row]];
      UpdateSummary(row);
    }

    method UpdateSummary(row: ResultRow)
      requires IsValidControlStatus(row.status)
      modifies this`summary
      ensures summary == CountOne(old(summary), row.status)
    {
      if row.status == OK {
        summary := summary.(ok := summary.ok + 1);
      } else if row.status == ALARM {
        summary := summary.(alarm := summary.alarm + 1);
      } else if row.status == SKIP {
        summary := summary.(skip := summary.skip + 1);
      } else if row.status == INFO {
        summary := summary.(info := summary.info + 1);
      } else if row.status == ERROR {
        summary := summary.(error := summary.error + 1);
      }
    }

    method CreatedOrderedResultRows(ghost received: seq<ResultRow>)
      requires rows == [] && HasRows(received) && AllValid(received)
      modifies this`rows
      ensures StableSort(received, rows)
    {
      hide Filter, StatusRank, AllValid, Sorted, IsValidControlStatus, Ordered;
      NothingOrdered(received);
      for i := 0 to |STATUS_ORDER|
        invariant Ordered(received, rows, i)
      {
        var status := STATUS_ORDER[i];
        var next := if status in rowMap then rowMap[status] else [];
        NextOrdered(received, rows, i);
        rows := rows + next;
      }
      AllOrdered(received, rows);
    }

    /** Reads the rows up to the end, an error, or a row that is no result. */
    method GatherResults(cols: seq<Column>, events: seq<RowResult>)
      requires Unused() && RowsOf(cols, events)
      modifies this
      ensures attempts == old(attempts) && done == 1
      ensures summary == FinalSummary(Results(cols, events))
      ensures if GoodRows(cols, events) == |events| then
                runStatus == Complete && StableSort(Received(cols, events), rows) && TotalCount(summary) == |rows|
              else runStatus == InError && rows == []
      ensures reported == old(reported) + if EndsInRowError(cols, events) then [summary] else []
    {
      hide RowOf, Filter, StableSort, AllValid, GoodRows, CountsOf, TotalCount, IsValidControlStatus;
      assert HasRows([]) by { NoRows(); }
      for i := 0 to |events|
        invariant i <= GoodRows(cols, events)
        invariant HasRows(RowsRead(cols, events, i)) && rows == [] && done == 0
        invariant attempts == old(attempts) && reported == old(reported)
      {
        if events[i].Failed? {
          SetError();
          reported := reported + [summary];
          return;
        }
        var row := NewResultRow(cols, events[i].values);
        if row.None? {
          SetError();
          return;
        }
        RowHasStatus(cols, events[i].values);
        AddResultRow(row.value, RowsRead(cols, events, i));
      }
      SetRunStatus(Complete);
      RowsReadValid(cols, events, |events|);
      ghost var received := Received(cols, events);
      CountsAddUp(received);
      CreatedOrderedResultRows(received);
      StableSortKeepsRows(received, rows);
    }

    lemma NoRows()
      requires Unused()
      ensures HasRows([])
    {
    }

    /** Executes the control.  Whatever happens, every report to the group is of the final summary. */
    method Execute(tries: nat -> Attempt)
      requires Unused() && attempts < MAX_ATTEMPTS && GoodTries(tries)
      modifies this
      ensures reported == old(reported) + Copies(Reports(tries, old(attempts)), summary)
      ensures var t := tries(LastTry(tries, old(attempts)));
              && summary == FinalSummary(t) && done <= 1
              && (t.Results? && GoodRows(t.cols, t.events) == |t.events| ==>
                    runStatus == Complete && StableSort(Received(t.cols, t.events), rows) &&
                        TotalCount(summary) == |rows|)
              && (!t.NoSession? && !(t.Results? && GoodRows(t.cols, t.events) == |t.events|) ==>
                    runStatus == InError && rows == [])
      decreases MAX_ATTEMPTS - attempts, 1
    {
      ExecuteQuery(tries);
      reported := reported + [summary];
    }

    method ExecuteQuery(tries: nat -> Attempt)
      requires Unused() && attempts < MAX_ATTEMPTS && GoodTries(tries)
      modifies this
      ensures reported == old(reported) + Copies(Reports(tries, old(attempts)) - 1, summary)
      ensures var t := tries(LastTry(tries, old(attempts)));
              && summary == FinalSummary(t) && done <= 1
              && (t.Results? && GoodRows(t.cols, t.events) == |t.events| ==>
                    runStatus == Complete && StableSort(Received(t.cols, t.events), rows) &&
                        TotalCount(summary) == |rows|)
              && (!t.NoSession? && !(t.Results? && GoodRows(t.cols, t.events) == |t.events|) ==>
                    runStatus == InError && rows == [])
      decreases MAX_ATTEMPTS - attempts, 0
    {
      hide StableSort, CountsOf, EndsInRowError, Received;
      var t := tries(attempts);
      if t.NoSession? {
        return;
      }
      runStatus := Started;
      if t.QueryUnresolved? || t.SearchPathFails? {
        SetError();
        return;
      }
      if t.QueryFails? {
        attempts := attempts + 1;
        if t.connectivity {
          if attempts < MAX_ATTEMPTS {
            Execute(tries);
            return;
          }
        }
        SetError();
        return;
      }
      GatherResults(t.cols, t.events);
    }
  }

  /** The rows with the first i statuses are in place. */
  ghost predicate Ordered(received: seq<ResultRow>, rows: seq<ResultRow>, i: nat) {
    && AllValid(rows) && Sorted(rows) && (forall r :: r in rows ==> StatusRank(r.status) < i)
    && forall s :: Filter(rows, s) == if IsValidControlStatus(s) && StatusRank(s) < i then Filter(received, s) else []
  }

  lemma NothingOrdered(received: seq<ResultRow>)
    ensures Ordered(received, [], 0)
  {
  }

  lemma NextOrdered(received: seq<ResultRow>, rows: seq<ResultRow>, i: nat)
    requires i < |STATUS_ORDER| && Ordered(received, rows, i)
    ensures Ordered(received, rows + Filter(received, STATUS_ORDER[i]), i + 1)
  {
    hide Filter;
    var status := STATUS_ORDER[i];
    var next := Filter(received, status);
    assert StatusRank(status) == i && IsValidControlStatus(status);
    assert AllValid(rows + next) && Sorted(rows + next) by { NextSorted(rows, next, i); }
    forall s
      ensures Filter(rows + next, s) == if IsValidControlStatus(s) && StatusRank(s) < i + 1 then Filter(received, s)
              else []
    {
      FilterConcat(rows, next, s);
      FilterFilter(received, status, s);
      if IsValidControlStatus(s) && StatusRank(s) == i {
        RankInjective(s, status);
      }
    }
  }

  lemma NextSorted(rows: seq<ResultRow>, next: seq<ResultRow>, i: nat)
    requires AllValid(rows) && Sorted(rows) && forall r :: r in rows ==> StatusRank(r.status) < i
    requires forall r :: r in next ==> IsValidControlStatus(r.status) && StatusRank(r.status) == i
    ensures AllValid(rows + next) && Sorted(rows + next)
  {
    hide StatusRank, IsValidControlStatus;
  }

  lemma AllOrdered(received: seq<ResultRow>, rows: seq<ResultRow>)
    requires Ordered(received, rows, |STATUS_ORDER|) && AllValid(received)
    ensures StableSort(received, rows)
  {
    hide Filter;
    forall s ensures Filter(rows, s) == Filter(received, s) {
      if !IsValidControlStatus(s) {
        OnlyValid(received, s);
      }
    }
  }

  lemma {:induction false} OnlyValid(rows: seq<ResultRow>, status: string)
    requires AllValid(rows) && !IsValidControlStatus(status)
    ensures Filter(rows, status) == []
  {
    if rows != [] {
      OnlyValid(rows[..|rows| - 1], status);
    }
  }

  lemma {:induction false} RowsReadValid(cols: seq<Column>, events: seq<RowResult>, n: nat)
    requires n <= |events| && forall i :: 0 <= i < n ==> IsRow(cols, events[i])
    ensures AllValid(RowsRead(cols, events, n))
  {
    if n > 0 {
      RowsReadValid(cols, events, n - 1);
      RowHasStatus(cols, events[n - 1].values);
    }
  }

  // ---------- The failures Execute counts ----------

  function LastAttempt(tries: nat -> Attempt): Attempt {
    tries(LastTry(tries, 0))
  }

  /** The runs of a tree report what these tries make them report. */
  ghost predicate Behaves(t: Tree, tries: nat -> (nat -> Attempt)) {
    forall r :: 0 <= r < |t.runs| ==>
      t.runs[r].calls == Reports(tries(r), 0) && t.runs[r].summary == FinalSummary(LastAttempt(tries(r)))
  }

  lemma OverCounted(tries: nat -> Attempt)
    ensures Reports(tries, 0) == 1 || Failures(FinalSummary(LastAttempt(tries))) == 0 <==>
            RowErrors(LastAttempt(tries)) == 0 &&
                (tries(0) == QueryFails(true) ==> Failures(FinalSummary(LastAttempt(tries))) == 0)
  {
    hide CountsOf, Received;
    ReportsOnce(tries);
    assert LastTry(tries, 1) == 1;
  }

  /** Execute returns the number of failures exactly when no row arrived as an error and no run with
      failures had to be retried. */
  lemma ExecuteCountsFailures(t: Tree, tries: nat -> (nat -> Attempt), actions: seq<Action>)
    requires WellFormed(t) && Behaves(t, tries)
    requires Legal(t, Init(t), actions) && After(t, Init(t), actions).result.Returned?
    ensures After(t, Init(t), actions).result.failures == RunFailures(t, |t.runs|) <==>
            forall r :: 0 <= r < |t.runs| ==>
              && RowErrors(LastAttempt(tries(r))) == 0
              && (tries(r)(0) == QueryFails(true) ==> Failures(t.runs[r].summary) == 0)
  {
    hide Legal, After, LastAttempt, RowErrors, FinalSummary, Failures, RunFailures;
    ExecuteResult(t, actions);
    forall r | 0 <= r < |t.runs|
      ensures t.runs[r].calls == 1 || Failures(t.runs[r].summary) == 0 <==>
              RowErrors(LastAttempt(tries(r))) == 0 &&
                  (tries(r)(0) == QueryFails(true) ==> Failures(t.runs[r].summary) == 0)
    {
      OverCounted(tries(r));
    }
  }
}
