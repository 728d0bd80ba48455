/** The allocator of dimension colours (control/controlexecute/dimension_color_map.go).

    A colour code is `column + 36 * row`.  Sixteen columns are usable, and once a row has been
    incremented it stays in 1..5, so there are 80 usable positions.  Rank (0..15) and row (mod 5)
    are coprime coordinates: position `n` of Z/80 has rank `n % 16` and row `n % 5 + 1`, and one
    probing step (+1 column, +1 row) is exactly `n + 1`.  */
module DimensionColors {

  newtype uint8 = x: int | 0 <= x < 256

  datatype Result<T> = Ok(value: T) | Err(message: string)

  datatype Dimension = Dimension(key: string, value: string)

  /** The rows of one control run, each with its dimensions. */
  type RunRows = seq<seq<Dimension>>

  type ColorMap = map<string, map<string, uint8>>

  const MIN_COLUMN: uint8 := 16
  const MAX_COLUMN: uint8 := 51
  const MAX_ROW: uint8 := 5
  const CYCLE := 80

  /** Red, orange, green/orange and green columns are never used. */
  predicate Forbidden(column: uint8) {
    || 16 <= column <= 20
    || 22 <= column <= 23 || 27 <= column <= 29
    || 34 <= column <= 36 || 40 <= column <= 42
    || 46 <= column <= 49
  }

  const ALLOWED_COLUMNS: seq<uint8> :=
    [21, 24, 25, 26, 30, 31, 32, 33, 37, 38, 39, 43, 44, 45, 50, 51]

  predicate LegalStart(row: uint8, column: uint8) {
    row <= MAX_ROW && MIN_COLUMN <= column <= MAX_COLUMN
  }

  /** The first usable column at or after `column`. */
  function SkipForbidden(column: uint8): (r: uint8)
    requires MIN_COLUMN <= column <= MAX_COLUMN
    ensures column <= r <= MAX_COLUMN && !Forbidden(r)
    ensures forall c: uint8 :: column <= c < r ==> Forbidden(c)
    decreases MAX_COLUMN - column
  {
    if Forbidden(column) then SkipForbidden(column + 1) else column
  }

  function NextColumn(column: uint8, increment: uint8): (r: uint8)
    requires MIN_COLUMN <= column <= MAX_COLUMN && 1 <= increment <= 2
    ensures MIN_COLUMN <= r <= MAX_COLUMN && !Forbidden(r)
  {
    var c := column + increment;
    SkipForbidden(if c > MAX_COLUMN then c - (MAX_COLUMN - MIN_COLUMN + 1) else c)
  }

  function NextRow(row: uint8, increment: uint8): (r: uint8)
    requires row <= MAX_ROW && 1 <= increment <= 2
    ensures 1 <= r <= MAX_ROW
  {
    var n := row + increment;
    if n > MAX_ROW then n - MAX_ROW else n
  }

  // ---------- Positions of Z/80 ----------

  function CellColumn(n: nat): (c: uint8)
    ensures !Forbidden(c) && 21 <= c <= MAX_COLUMN
  {
    ALLOWED_COLUMNS[n % 16]
  }

  function CellRow(n: nat): (r: uint8)
    ensures 1 <= r <= MAX_ROW
  {
    (n % 5) as uint8 + 1
  }

  /** The colour at position `n`; it never leaves uint8, and lies in 57..231. */
  function CodeAt(n: nat): (c: uint8)
    ensures 57 <= c <= 231
  {
    CellColumn(n) + CellRow(n) * 36
  }

  predicate AtCell(row: uint8, column: uint8, n: nat) {
    n < CYCLE && row == CellRow(n) && column == CellColumn(n)
  }

  /** The place of a usable column in ALLOWED_COLUMNS. */
  function Rank(column: uint8): (r: nat)
    requires MIN_COLUMN <= column <= MAX_COLUMN && !Forbidden(column)
    ensures r < 16 && ALLOWED_COLUMNS[r] == column
  {
    var c := column as int;
    if c == 21 then 0
    else if c <= 26 then c - 23
    else if c <= 33 then c - 26
    else if c <= 39 then c - 29
    else if c <= 45 then c - 32
    else c - 36
  }

  /** The position of a row in 1..5 and a usable column (Chinese remainders). */
  function CellOf(row: uint8, column: uint8): (n: nat)
    requires 1 <= row <= MAX_ROW
    requires MIN_COLUMN <= column <= MAX_COLUMN && !Forbidden(column)
    ensures AtCell(row, column, n)
  {
    var rank, r := Rank(column), (row - 1) as int;
    RemaindersCombine(rank, r);
    (rank * 65 + r * 16) % CYCLE
  }

  lemma RemaindersCombine(rank: nat, r: nat)
    requires rank < 16 && r < 5
    ensures var n := (rank * 65 + r * 16) % CYCLE; n % 16 == rank && n % 5 == r
  {
    var m := rank * 65 + r * 16;
    ModFactor(m, 16, 5);
    ModFactor(m, 5, 16);
    assert m == 16 * (4 * rank + r) + rank;
    ModOfSum(rank, 16, 4 * rank + r);
    assert m == 5 * (13 * rank + 3 * r) + r;
    ModOfSum(r, 5, 13 * rank + 3 * r);
  }

  /** Where the double stride of a call lands. */
  function StrideCell(row: uint8, column: uint8): (n: nat)
    requires LegalStart(row, column)
    ensures AtCell(NextRow(row, 2), NextColumn(column, 2), n)
  {
    CellOf(NextRow(row, 2), NextColumn(column, 2))
  }

  /** c is the first usable column at or after `from`, counted on past the last column if need be. */
  ghost predicate FirstUsable(from: int, c: uint8) {
    var start := if from > 51 then from - 36 else from;
    && start <= c as int <= 51 && !Forbidden(c)
    && forall b: uint8 :: start <= b as int < c as int ==> Forbidden(b)
  }

  /** A call strides two rows and two columns from any place: rows beyond 5 continue at 1, columns beyond
      51 at 16, and forbidden columns are skipped. */
  lemma StrideLands(row: uint8, column: uint8)
    requires LegalStart(row, column)
    ensures var n := StrideCell(row, column);
            && n < CYCLE
            && CellRow(n) as int == (if row <= 3 then row as int + 2 else row as int - 3)
            && FirstUsable(column as int + 2, CellColumn(n))
  {
    hide CellOf, Forbidden, CellRow, CellColumn;
  }

  /** From position p a call's probing starts at a position two rows on and two columns on. */
  ghost predicate StridesTo(p: nat, n: nat) {
    n < CYCLE && n % 5 == (p + 2) % 5 && FirstUsable(CellColumn(p) as int + 2, CellColumn(n))
  }

  lemma StrideFromCell(p: nat)
    ensures StridesTo(p, StrideCell(CellRow(p), CellColumn(p)))
  {
    hide StrideCell, FirstUsable, CellColumn;
    StrideLands(CellRow(p), CellColumn(p));
    RowTwoOn(p % 5);
    assert (p + 2) % 5 == (p % 5 + 2) % 5;
  }

  lemma RowTwoOn(r: nat)
    requires r < 5
    ensures (r + 2) % 5 == (if r <= 2 then r + 2 else r - 3)
  {
  }

  /** From each usable column the next one, and from the last the first. */
  lemma ColumnAfter(r: nat)
    requires r < 16
    ensures NextColumn(ALLOWED_COLUMNS[r], 1) == ALLOWED_COLUMNS[if r == 15 then 0 else r + 1]
  {
  }

  lemma ColumnStep(n: nat)
    ensures NextColumn(CellColumn(n), 1) == CellColumn(n + 1)
  {
    hide NextColumn;
    var r := n % 16;
    assert (n + 1) % 16 == if r == 15 then 0 else r + 1;
    ColumnAfter(r);
  }

  lemma RowStep(n: nat)
    ensures NextRow(CellRow(n), 1) == CellRow(n + 1)
  {
    var r := n % 5;
    assert (n + 1) % 5 == if r == 4 then 0 else r + 1;
  }

  /** n mod 80 determines and keeps n mod 16 and n mod 5. */
  lemma ModCycle(n: nat)
    ensures (n % CYCLE) % 16 == n % 16 && (n % CYCLE) % 5 == n % 5
    ensures CodeAt(n % CYCLE) == CodeAt(n)
  {
    ModFactor(n, 16, 5);
    ModFactor(n, 5, 16);
  }

  lemma ModFactor(n: nat, a: nat, b: nat)
    requires (a == 16 && b == 5) || (a == 5 && b == 16)
    ensures (n % CYCLE) % a == n % a
  {
    var q := n / CYCLE;
    assert n == a * (b * q) + n % CYCLE;
    ModOfSum(n % CYCLE, a, b * q);
  }

  lemma {:induction false} ModOfSum(m: nat, a: nat, k: nat)
    requires a == 16 || a == 5
    ensures (a * k + m) % a == m % a
  {
    if a == 16 {
      assert (16 * k + m) % 16 == m % 16;
    } else {
      assert (5 * k + m) % 5 == m % 5;
    }
  }

  /** Chinese remainders: below 80, the residues mod 16 and mod 5 identify a position. */
  lemma ResiduesIdentify(a: nat, b: nat)
    requires a < CYCLE && b < CYCLE && a % 16 == b % 16 && a % 5 == b % 5
    ensures a == b
  {
    var qa, qb := a / 16, b / 16;
    assert a == 16 * qa + a % 16 && b == 16 * qb + b % 16;
    assert (qa - qb) % 5 == 0 by {
      assert a - b == 5 * (a / 5 - b / 5);
      assert 16 * (qa - qb) == 5 * (a / 5 - b / 5);
      assert qa - qb == 5 * ((a / 5 - b / 5) - 3 * (qa - qb));
    }
  }

  /** One probing step moves one position along Z/80. */
  lemma ProbeStep(row: uint8, column: uint8, n: nat)
    requires AtCell(row, column, n)
    ensures AtCell(NextRow(row, 1), NextColumn(column, 1), (n + 1) % CYCLE)
  {
    ColumnStep(n);
    RowStep(n);
    ModCycle(n + 1);
  }

  /** The probe's orbit has length exactly 80: equal colours mean positions equal mod 80. */
  lemma CodeInjective(n: nat, m: nat)
    ensures CodeAt(n) == CodeAt(m) <==> n % CYCLE == m % CYCLE
  {
    ModCycle(n);
    ModCycle(m);
    if CodeAt(n) == CodeAt(m) {
      CodeDecodes(n, m);
      ResiduesIdentify(n % CYCLE, m % CYCLE);
    }
  }

  /** A colour decodes to one row in 1..5 and one usable column. */
  lemma CodeDecodes(n: nat, m: nat)
    requires CodeAt(n) == CodeAt(m)
    ensures n % 16 == m % 16 && n % 5 == m % 5
  {
    assert CellRow(n) == CellRow(m) && CellColumn(n) == CellColumn(m);
    ColumnsDistinct(n % 16, m % 16);
  }

  lemma ColumnsDistinct(i: nat, j: nat)
    requires i < 16 && j < 16 && ALLOWED_COLUMNS[i] == ALLOWED_COLUMNS[j]
    ensures i == j
  {
    assert Rank(ALLOWED_COLUMNS[i]) == Rank(ALLOWED_COLUMNS[j]);
    RankOfAllowed(i);
    RankOfAllowed(j);
  }

  lemma RankOfAllowed(i: nat)
    requires i < 16
    ensures !Forbidden(ALLOWED_COLUMNS[i]) && Rank(ALLOWED_COLUMNS[i]) == i
  {
  }

  // ---------- The generator's state as a value ----------

  datatype State = State(startRow: uint8, startColumn: uint8, row: uint8, column: uint8, used: seq<uint8>)

  predicate Distinct<T(==)>(s: seq<T>) {
    forall i, j :: 0 <= i < j < |s| ==> s[i] != s[j]
  }

  ghost predicate LegalCode(c: uint8) {
    exists n: nat :: n < CYCLE && c == CodeAt(n)
  }

  ghost predicate Wf(s: State) {
    && LegalStart(s.startRow, s.startColumn)
    && LegalStart(s.row, s.column)
    && Distinct(s.used)
    && forall c :: c in s.used ==> LegalCode(c)
  }

  function Initial(startRow: uint8, startColumn: uint8): State {
    State(startRow, startColumn, startRow, startColumn, [])
  }

  /** The first position from n on, before stop, whose colour is free; stop if there is none. */
  function FirstFree(used: seq<uint8>, n: nat, stop: nat): (p: nat)
    requires n <= stop
    ensures n <= p <= stop
    ensures p < stop ==> CodeAt(p) !in used
    ensures forall q: nat :: n <= q < p ==> CodeAt(q) in used
    decreases stop - n
  {
    hide CodeAt;
    if n == stop || CodeAt(n) !in used then n else FirstFree(used, n + 1, stop)
  }

  function Take(s: State, n: nat): State {
    s.(row := CellRow(n), column := CellColumn(n), used := s.used + [CodeAt(n)])
  }

  /** One call of getNextColor: stride, take the first free colour in probing order, or reset and start again. */
  function Step(s: State): (s': State)
    requires LegalStart(s.startRow, s.startColumn) && LegalStart(s.row, s.column)
    ensures LegalStart(s'.startRow, s'.startColumn) && LegalStart(s'.row, s'.column) && s'.used != []
  {
    var n := StrideCell(s.row, s.column);
    var p := FirstFree(s.used, n, n + CYCLE);
    if p < n + CYCLE then Take(s, p)
    else Take(Initial(s.startRow, s.startColumn), StrideCell(s.startRow, s.startColumn))
  }

  function Last(s: seq<uint8>): uint8
    requires s != []
  {
    s[|s| - 1]
  }

  // ---------- Counting the colours ----------

  ghost function AllCodes(): (s: seq<uint8>)
    ensures |s| == CYCLE && Distinct(s)
    ensures forall c :: c in s <==> LegalCode(c)
  {
    hide CodeAt;
    var s := seq(CYCLE, (i: nat) => CodeAt(i));
    assert Distinct(s) by {
      forall i, j | 0 <= i < j < CYCLE ensures s[i] != s[j] {
        CodeInjective(i, j);
      }
    }
    assert forall c :: LegalCode(c) ==> c in s by {
      forall c | LegalCode(c) ensures c in s {
        var n: nat :| n < CYCLE && c == CodeAt(n);
        assert s[n] == c;
      }
    }
    s
  }

  lemma {:induction false} DistinctCount(s: seq<uint8>)
    requires Distinct(s)
    ensures |(set c | c in s)| == |s|
  {
    if s != [] {
      var t := s[..|s| - 1];
      DistinctCount(t);
      assert (set c | c in s) == (set c | c in t) + {Last(s)};
      assert Last(s) !in t;
    }
  }

  lemma SubsetOfSameSize(a: set<uint8>, b: set<uint8>)
    requires a <= b && |a| == |b|
    ensures a == b
  {
    assert |b - a| == 0;
    assert b == a + (b - a);
  }

  /** At most 80 colours are ever taken, and 80 of them are all of them. */
  lemma TakenCount(used: seq<uint8>)
    requires Distinct(used) && forall c :: c in used ==> LegalCode(c)
    ensures |used| <= CYCLE
    ensures |used| == CYCLE <==> forall c :: LegalCode(c) ==> c in used
  {
    hide CodeAt, AllCodes;
    var all, have := set c | c in AllCodes(), set c | c in used;
    DistinctCount(AllCodes());
    DistinctCount(used);
    assert have <= all;
    assert |all - have| == CYCLE - |have|;
    if |used| == CYCLE {
      SubsetOfSameSize(have, all);
      forall c | LegalCode(c) ensures c in used {
        assert c in have;
      }
    }
    if forall c :: LegalCode(c) ==> c in used {
      assert all == have;
    }
  }

  /** The probe comes back to its first colour exactly when all 80 colours are taken. */
  lemma ExhaustedOnlyAtEighty(s: State, n: nat)
    requires Wf(s)
    ensures FirstFree(s.used, n, n + CYCLE) == n + CYCLE <==> |s.used| == CYCLE
  {
    hide CodeAt, FirstFree;
    TakenCount(s.used);
    var p := FirstFree(s.used, n, n + CYCLE);
    if p < n + CYCLE {
      CodeIsLegal(p);
    } else {
      forall c | LegalCode(c) ensures c in s.used {
        var m: nat :| m < CYCLE && c == CodeAt(m);
        var q := SamePosition(n, m);
        assert CodeAt(q) in s.used;
      }
    }
  }

  lemma CodeIsLegal(p: nat)
    ensures LegalCode(CodeAt(p))
  {
    hide CodeAt;
    ModCycle(p);
  }

  /** Any 80 consecutive positions meet every position. */
  lemma SamePosition(n: nat, m: nat) returns (q: nat)
    requires m < CYCLE
    ensures n <= q < n + CYCLE && CodeAt(q) == CodeAt(m)
  {
    hide CodeAt;
    q := n + (m + CYCLE - n % CYCLE) % CYCLE;
    assert q % CYCLE == m;
    ModCycle(q);
  }

  /** What one call returns, in terms of the state it starts from. */
  lemma StepTakesFirstFree(s: State)
    requires Wf(s)
    ensures var s' := Step(s); var color := Last(s'.used); var n := StrideCell(s.row, s.column);
            && Wf(s')
            && LegalCode(color)
            && s'.startRow == s.startRow && s'.startColumn == s.startColumn
            && (|s.used| < CYCLE ==>
                  && s'.used == s.used + [color] && color !in s.used
                  && exists p: nat :: n <= p < n + CYCLE && color == CodeAt(p)
                                      && s'.row == CellRow(p) && s'.column == CellColumn(p)
                                      && forall q: nat :: n <= q < p ==> CodeAt(q) in s.used)
            && (|s.used| == CYCLE ==> s' == Step(Initial(s.startRow, s.startColumn)) && s'.used == [color])
  {
    hide CodeAt, FirstFree, StrideCell, CellColumn, CellRow;
    var n := StrideCell(s.row, s.column);
    ExhaustedOnlyAtEighty(s, n);
    var p := FirstFree(s.used, n, n + CYCLE);
    if p == n + CYCLE {
      var m := StrideCell(s.startRow, s.startColumn);
      CodeIsLegal(m);
      assert FirstFree([], m, m + CYCLE) == m;
    } else {
      CodeIsLegal(p);
    }
  }

  // ---------- The colour sequence ----------

  /** The state after n calls on a new generator. */
  function After(startRow: uint8, startColumn: uint8, n: nat): (s: State)
    requires LegalStart(startRow, startColumn)
    ensures LegalStart(s.startRow, s.startColumn) && LegalStart(s.row, s.column)
    ensures n > 0 ==> s.used != []
  {
    if n == 0 then Initial(startRow, startColumn) else Step(After(startRow, startColumn, n - 1))
  }

  /** The colour returned by call number n (counting from 0). */
  function ColorAt(startRow: uint8, startColumn: uint8, n: nat): uint8
    requires LegalStart(startRow, startColumn)
  {
    Last(After(startRow, startColumn, n + 1).used)
  }

  /** Within the first 80 calls, exactly the colours returned so far are allocated. */
  lemma {:induction false} FirstBlock(row: uint8, column: uint8, n: nat)
    requires LegalStart(row, column) && n <= CYCLE
    ensures var s := After(row, column, n);
            && Wf(s) && s.startRow == row && s.startColumn == column
            && |s.used| == n
            && forall i: nat :: i < n ==> s.used[i] == ColorAt(row, column, i)
  {
    hide CodeAt, FirstFree, StrideCell, CellColumn, CellRow, Step;
    if n > 0 {
      FirstBlock(row, column, n - 1);
      StepTakesFirstFree(After(row, column, n - 1));
    }
  }

  /** Until all 80 are used, each colour is the first free one probed from the stride behind the one before. */
  ghost predicate Follows(row: uint8, column: uint8, n: nat, p: nat, start: nat, q: nat)
    requires LegalStart(row, column)
  {
    && StridesTo(p, start) && start <= q < start + CYCLE
    && ColorAt(row, column, n) == CodeAt(q)
    && (forall i: nat :: i < n ==> ColorAt(row, column, i) != CodeAt(q))
    && forall k: nat :: start <= k < q ==> exists i: nat :: i < n && ColorAt(row, column, i) == CodeAt(k)
  }

  /** The position of a call's colour is where the generator then is. */
  lemma {:induction false} PositionOf(row: uint8, column: uint8, n: nat) returns (p: nat)
    requires LegalStart(row, column) && n < CYCLE
    ensures ColorAt(row, column, n) == CodeAt(p)
    ensures var s := After(row, column, n + 1); s.row == CellRow(p) && s.column == CellColumn(p)
  {
    hide CodeAt, FirstFree, StrideCell, CellColumn, CellRow, Step;
    FirstBlock(row, column, n);
    StepTakesFirstFree(After(row, column, n));
    var s := After(row, column, n);
    var m := StrideCell(s.row, s.column);
    p :| m <= p < m + CYCLE && ColorAt(row, column, n) == CodeAt(p)
         && After(row, column, n + 1).row == CellRow(p) && After(row, column, n + 1).column == CellColumn(p);
  }

  /** The first colour of a generator is two rows and two columns on from the starting place. */
  lemma FirstColour(row: uint8, column: uint8) returns (q: nat)
    requires LegalStart(row, column)
    ensures q < CYCLE && ColorAt(row, column, 0) == CodeAt(q)
    ensures CellRow(q) as int == (if row <= 3 then row as int + 2 else row as int - 3)
    ensures FirstUsable(column as int + 2, CellColumn(q))
  {
    hide CodeAt, StrideCell, CellColumn, CellRow, FirstUsable;
    StrideLands(row, column);
    q := StrideCell(row, column);
    assert FirstFree([], q, q + CYCLE) == q;
    assert After(row, column, 1) == Step(Initial(row, column));
  }

  /** Each of the next 79 colours follows the one before it.  (Then the sequence repeats.) */
  lemma NextColour(row: uint8, column: uint8, n: nat) returns (p: nat, start: nat, q: nat)
    requires LegalStart(row, column) && 0 < n < CYCLE
    ensures ColorAt(row, column, n - 1) == CodeAt(p) && Follows(row, column, n, p, start, q)
  {
    hide CodeAt, FirstFree, StrideCell, CellColumn, CellRow, Step, FirstUsable, StridesTo;
    var s := After(row, column, n);
    FirstBlock(row, column, n);
    StepTakesFirstFree(s);
    assert After(row, column, n + 1) == Step(s) && ColorAt(row, column, n) !in s.used;
    start := StrideCell(s.row, s.column);
    q :| start <= q < start + CYCLE && ColorAt(row, column, n) == CodeAt(q)
         && forall k: nat :: start <= k < q ==> CodeAt(k) in s.used;
    p := PositionOf(row, column, n - 1);
    StrideFromCell(p);
    UsedSoFar(row, column, n, s.used);
  }

  lemma UsedSoFar(row: uint8, column: uint8, n: nat, used: seq<uint8>)
    requires LegalStart(row, column) && |used| == n && forall i: nat :: i < n ==> used[i] == ColorAt(row, column, i)
    ensures forall c :: c in used <==> exists i: nat :: i < n && ColorAt(row, column, i) == c
  {
    hide ColorAt;
    forall c | c in used ensures exists i: nat :: i < n && ColorAt(row, column, i) == c {
      var i :| 0 <= i < |used| && used[i] == c;
      assert ColorAt(row, column, i) == c;
    }
  }

  /** The colours of the generator the program makes: starting row 4, starting column 27. */
  lemma ProgramColours()
    ensures ColorAt(4, 27, 0) == 66 && ColorAt(4, 27, 1) == 140 && ColorAt(4, 27, 2) == 217 && ColorAt(4, 27, 3) == 111
  {
    var s0 := Initial(4, 27);
    var s1 := Step(s0);
    assert s1 == State(4, 27, 1, 30, [66]);
    var s2 := Step(s1);
    assert s2 == State(4, 27, 3, 32, [66, 140]);
    var s3 := Step(s2);
    assert s3 == State(4, 27, 5, 37, [66, 140, 217]);
    var s4 := Step(s3);
    assert s4 == State(4, 27, 2, 39, [66, 140, 217, 111]);
  }

  /** The sequence is exactly periodic through the reset. */
  lemma {:induction false} Periodic(row: uint8, column: uint8, n: nat)
    requires LegalStart(row, column) && n >= 1
    ensures After(row, column, n + CYCLE) == After(row, column, n)
  {
    hide CodeAt, FirstFree, StrideCell, CellColumn, CellRow, Step;
    if n == 1 {
      FirstBlock(row, column, CYCLE);
      StepTakesFirstFree(After(row, column, CYCLE));
      assert After(row, column, 1) == Step(After(row, column, 0));
    } else {
      Periodic(row, column, n - 1);
      assert After(row, column, n + CYCLE) == Step(After(row, column, n - 1 + CYCLE));
    }
  }

  lemma {:induction false} ReduceMod(row: uint8, column: uint8, n: nat)
    requires LegalStart(row, column)
    ensures ColorAt(row, column, n) == ColorAt(row, column, n % CYCLE)
    decreases n
  {
    hide CodeAt, FirstFree, StrideCell, CellColumn, CellRow, Step;
    if n >= CYCLE {
      ReduceMod(row, column, n - CYCLE);
      Periodic(row, column, n - CYCLE + 1);
      assert n % CYCLE == (n - CYCLE) % CYCLE;
    }
  }

  /** Two calls return the same colour exactly when their numbers agree mod 80. */
  lemma ColourSequenceLaw(row: uint8, column: uint8, n: nat, m: nat)
    requires LegalStart(row, column)
    ensures ColorAt(row, column, n) == ColorAt(row, column, m) <==> n % CYCLE == m % CYCLE
  {
    ReduceMod(row, column, n);
    ReduceMod(row, column, m);
    FirstBlock(row, column, CYCLE);
    var a := After(row, column, CYCLE).used;
    assert a[n % CYCLE] == ColorAt(row, column, n % CYCLE);
    assert a[m % CYCLE] == ColorAt(row, column, m % CYCLE);
  }

  /** Every block of 80 calls returns every legal colour, and nothing else. */
  lemma BlockIsPermutation(row: uint8, column: uint8, block: nat, c: uint8)
    requires LegalStart(row, column)
    ensures LegalCode(c) <==>
            exists n: nat :: CYCLE * block <= n < CYCLE * (block + 1) && ColorAt(row, column, n) == c
  {
    hide CodeAt, FirstFree, StrideCell, CellColumn, CellRow, Step;
    FirstBlock(row, column, CYCLE);
    var a := After(row, column, CYCLE).used;
    TakenCount(a);
    forall n: nat | CYCLE * block <= n < CYCLE * (block + 1)
      ensures ColorAt(row, column, n) == a[n - CYCLE * block]
    {
      ReduceMod(row, column, n);
      assert n % CYCLE == n - CYCLE * block;
    }
    if LegalCode(c) {
      var i: nat :| i < |a| && a[i] == c;
      assert ColorAt(row, column, CYCLE * block + i) == c;
    }
  }

  lemma ColorIsLegal(row: uint8, column: uint8, n: nat)
    requires LegalStart(row, column)
    ensures LegalCode(ColorAt(row, column, n))
  {
    hide LegalCode, ColorAt, LegalStart;
    BlockIsPermutation(row, column, n / CYCLE, ColorAt(row, column, n));
  }

  // ---------- Populating the map ----------

  /** A generator as a value: its map and its position state. */
  datatype Gen = Gen(colors: ColorMap, state: State)

  predicate LegalGen(g: Gen) {
    LegalStart(g.state.startRow, g.state.startColumn) && LegalStart(g.state.row, g.state.column)
  }

  predicate HasValue(m: ColorMap, d: Dimension) {
    d.key in m && d.value in m[d.key]
  }

  function SetColor(m: ColorMap, d: Dimension, color: uint8): (r: ColorMap)
    ensures HasValue(r, d) && r[d.key][d.value] == color
    ensures forall e :: e != d ==> (HasValue(r, e) <==> HasValue(m, e))
    ensures forall e :: e != d && HasValue(m, e) ==> HasValue(r, e) && r[e.key][e.value] == m[e.key][e.value]
  {
    m[d.key := (if d.key in m then m[d.key] else map[])[d.value := color]]
  }

  function AddValue(g: Gen, d: Dimension): (r: Gen)
    requires LegalGen(g)
    ensures LegalGen(r)
  {
    var s := Step(g.state);
    Gen(SetColor(g.colors, d, Last(s.used)), s)
  }

  /** Adding the dimensions of a list, in order, each one only if its value is new. */
  function AddAll(g: Gen, dims: seq<Dimension>): (r: Gen)
    requires LegalGen(g)
    ensures LegalGen(r)
  {
    if dims == [] then g
    else
      var h := AddAll(g, dims[..|dims| - 1]);
      var d := dims[|dims| - 1];
      if HasValue(h.colors, d) then h else AddValue(h, d)
  }

  function RowsDimensions(rows: RunRows): seq<Dimension> {
    if rows == [] then [] else RowsDimensions(rows[..|rows| - 1]) + rows[|rows| - 1]
  }

  /** Every dimension of a run list, in the order populate meets them. */
  function RunsDimensions(runs: seq<RunRows>): seq<Dimension> {
    if runs == [] then [] else RunsDimensions(runs[..|runs| - 1]) + RowsDimensions(runs[|runs| - 1])
  }

  lemma {:induction false} RowsInOrder(a: RunRows, b: RunRows)
    ensures RowsDimensions(a + b) == RowsDimensions(a) + RowsDimensions(b)
  {
    if b == [] {
      assert a + b == a;
    } else {
      RowsInOrder(a, b[..|b| - 1]);
      assert (a + b)[..|a + b| - 1] == a + b[..|b| - 1];
    }
  }

  lemma {:induction false} RunsConcat(a: seq<RunRows>, b: seq<RunRows>)
    ensures RunsDimensions(a + b) == RunsDimensions(a) + RunsDimensions(b)
  {
    hide RowsDimensions;
    if b == [] {
      assert a + b == a;
    } else {
      RunsConcat(a, b[..|b| - 1]);
      assert (a + b)[..|a + b| - 1] == a + b[..|b| - 1];
    }
  }

  /** Runs are met in order, in each run the rows in order, and in each row the dimensions in order. */
  lemma DimensionsInOrder(runs: seq<RunRows>, more: seq<RunRows>, rows: RunRows, moreRows: RunRows, row: seq<Dimension>)
    ensures RunsDimensions(runs + more) == RunsDimensions(runs) + RunsDimensions(more)
    ensures RunsDimensions([rows + moreRows]) == RunsDimensions([rows]) + RunsDimensions([moreRows])
    ensures RunsDimensions([[row]]) == row
  {
    RunsConcat(runs, more);
    RowsInOrder(rows, moreRows);
    OneRun(rows + moreRows);
    OneRun(rows);
    OneRun(moreRows);
    OneRun([row]);
    assert [row][..0] == [] && RowsDimensions([row]) == [] + row;
  }

  lemma OneRun(rows: RunRows)
    ensures RunsDimensions([rows]) == RowsDimensions(rows)
  {
    assert [rows][..0] == [];
  }

  /** The distinct dimensions of a list, in order of first occurrence. */
  function FirstOccurrences(dims: seq<Dimension>): (r: seq<Dimension>)
    ensures Distinct(r)
    ensures forall d :: d in r <==> d in dims
  {
    if dims == [] then []
    else
      var r := FirstOccurrences(dims[..|dims| - 1]);
      var d := dims[|dims| - 1];
      assert dims == dims[..|dims| - 1] + [d];
      if d in r then r else r + [d]
  }

  /** The i-th of the dimensions ds has the i-th colour of the sequence. */
  ghost predicate ColoredInOrder(m: ColorMap, ds: seq<Dimension>, row: uint8, column: uint8)
    requires LegalStart(row, column)
  {
    forall i :: 0 <= i < |ds| ==>
      HasValue(m, ds[i]) && m[ds[i].key][ds[i].value] == ColorAt(row, column, i)
  }

  lemma ColorNext(m: ColorMap, ds: seq<Dimension>, d: Dimension, row: uint8, column: uint8)
    requires LegalStart(row, column)
    requires ColoredInOrder(m, ds, row, column) && d !in ds
    ensures ColoredInOrder(SetColor(m, d, ColorAt(row, column, |ds|)), ds + [d], row, column)
  {
    hide SetColor, ColorAt, LegalStart;
  }

  /** Populating a new generator: exactly the dimensions met get a colour, and the i-th new
      dimension gets the i-th colour of the sequence. */
  lemma {:induction false} PopulateAssigns(row: uint8, column: uint8, dims: seq<Dimension>)
    requires LegalStart(row, column)
    ensures var g := AddAll(Gen(map[], Initial(row, column)), dims); var ds := FirstOccurrences(dims);
            && g.state == After(row, column, |ds|)
            && (forall d :: HasValue(g.colors, d) <==> d in dims)
            && ColoredInOrder(g.colors, ds, row, column)
  {
    hide Step, After, StrideCell, SetColor, LegalStart, ColoredInOrder;
    if dims == [] {
      AfterUnfold(row, column, 0);
      assert ColoredInOrder(map[], [], row, column) by { NothingColored(row, column); }
    } else {
      var init, d := dims[..|dims| - 1], dims[|dims| - 1];
      PopulateAssigns(row, column, init);
      assert dims == init + [d];
      var h := AddAll(Gen(map[], Initial(row, column)), init);
      var ds := FirstOccurrences(init);
      if d !in ds {
        AfterUnfold(row, column, |ds| + 1);
        ColorNext(h.colors, ds, d, row, column);
      }
    }
  }

  lemma NothingColored(row: uint8, column: uint8)
    requires LegalStart(row, column)
    ensures ColoredInOrder(map[], [], row, column)
  {
  }

  lemma AfterUnfold(row: uint8, column: uint8, n: nat)
    requires LegalStart(row, column)
    ensures After(row, column, n) == if n == 0 then Initial(row, column) else Step(After(row, column, n - 1))
  {
    hide Step;
  }

  /** Every colour is legal, and distinct dimensions have distinct colours exactly when there are at
      most 80 of them. */
  lemma PopulateInjective(row: uint8, column: uint8, dims: seq<Dimension>)
    requires LegalStart(row, column)
    ensures var m := AddAll(Gen(map[], Initial(row, column)), dims).colors;
            (forall d :: HasValue(m, d) <==> d in dims) &&
            (forall d :: d in dims ==> LegalCode(m[d.key][d.value])) &&
            ((forall d, e :: d in dims && e in dims && d != e ==> m[d.key][d.value] != m[e.key][e.value])
             <==> |FirstOccurrences(dims)| <= CYCLE)
  {
    hide Step, After, StrideCell, SetColor, LegalStart, AddAll, FirstOccurrences, ColorAt, LegalCode;
    PopulateAssigns(row, column, dims);
    var m, ds := AddAll(Gen(map[], Initial(row, column)), dims).colors, FirstOccurrences(dims);
    forall d | d in dims ensures LegalCode(m[d.key][d.value]) {
      assert d in ds;
      var i :| 0 <= i < |ds| && ds[i] == d;
      ColorIsLegal(row, column, i);
    }
    if |ds| <= CYCLE {
      forall d, e | d in dims && e in dims && d != e
        ensures m[d.key][d.value] != m[e.key][e.value]
      {
        assert d in ds && e in ds;
        var i :| 0 <= i < |ds| && ds[i] == d;
        var j :| 0 <= j < |ds| && ds[j] == e;
        ColourSequenceLaw(row, column, i, j);
      }
    } else {
      ColourSequenceLaw(row, column, 0, CYCLE);
      assert ds[0] in dims && ds[CYCLE] in dims;
    }
  }

  // ---------- The generator as the program has it ----------

  class DimensionColorGenerator {
    var colors: ColorMap
    var startingRow: uint8
    var startingColumn: uint8
    var usedColorCodes: seq<uint8>
    var currentRow: uint8
    var currentColumn: uint8

    ghost predicate Valid()
      reads this
    {
      Wf(Position())
    }

    ghost function Position(): State
      reads this
    {
      State(startingRow, startingColumn, currentRow, currentColumn, usedColorCodes)
    }

    ghost function Value(): Gen
      reads this
    {
      Gen(colors, Position())
    }

    constructor (startingRow: uint8, startingColumn: uint8)
      requires LegalStart(startingRow, startingColumn)
      ensures Valid() && Value() == Gen(map[], Initial(startingRow, startingColumn))
    {
      colors := map[];
      this.startingRow, this.startingColumn := startingRow, startingColumn;
      new;
      Reset();
    }

    method Reset()
      requires LegalStart(startingRow, startingColumn)
      modifies this`currentRow, this`currentColumn, this`usedColorCodes
      ensures Valid() && Position() == Initial(startingRow, startingColumn)
    {
      currentRow, currentColumn := startingRow, startingColumn;
      usedColorCodes := [];
    }

    method GetCurrentColor() returns (color: uint8)
      requires LegalStart(currentRow, currentColumn)
      ensures color == currentColumn + currentRow * 36
    {
      color := currentColumn + currentRow * 36;
    }

    method IncrementCurrentRow(increment: uint8)
      requires currentRow <= MAX_ROW && 1 <= increment <= 2
      modifies this`currentRow
      ensures currentRow == NextRow(old(currentRow), increment)
    {
      currentRow := currentRow + increment;
      if currentRow > MAX_ROW {
        currentRow := currentRow - MAX_ROW;
      }
    }

    method IncrementCurrentColumn(increment: uint8)
      requires MIN_COLUMN <= currentColumn <= MAX_COLUMN && 1 <= increment <= 2
      modifies this`currentColumn
      ensures currentColumn == NextColumn(old(currentColumn), increment)
    {
      currentColumn := currentColumn + increment;
      if currentColumn > MAX_COLUMN {
        currentColumn := currentColumn - (MAX_COLUMN - MIN_COLUMN + 1);
      }
      ghost var from := currentColumn;
      while Forbidden(currentColumn)
        invariant MIN_COLUMN <= currentColumn <= MAX_COLUMN
        invariant SkipForbidden(from) == SkipForbidden(currentColumn)
        decreases MAX_COLUMN - currentColumn
      {
        currentColumn := currentColumn + 1;
      }
    }

    method ColorClashes(color: uint8) returns (clashes: bool)
      ensures clashes <==> color in usedColorCodes
    {
      for i := 0 to |usedColorCodes|
        invariant color !in usedColorCodes[..i]
      {
        if usedColorCodes[i] == color {
          return true;
        }
      }
      return false;
    }

    /** Stride, probe for a free colour, and when the probe is back at its first colour reset and
        call again; that one recursive call finds its first colour free. */
    method GetNextColor() returns (color: uint8)
      requires Valid()
      modifies this`currentRow, this`currentColumn, this`usedColorCodes
      ensures Valid() && Position() == Step(old(Position())) && color == Last(usedColorCodes)
      decreases |usedColorCodes|
    {
      hide FirstFree, CodeAt, CellOf, NextRow, NextColumn, CellRow, CellColumn, Step, Wf, AtCell, StrideCell, Take;
      ghost var before := Position();
      StepKeepsWf(before);
      ghost var n := StrideCell(currentRow, currentColumn);
      IncrementCurrentColumn(2);
      IncrementCurrentRow(2);
      ColorOfCell(currentRow, currentColumn, n);
      color := GetCurrentColor();
      var origColor := color;
      ghost var p := n;
      var clashes := ColorClashes(color);
      while clashes
        invariant n <= p < n + CYCLE
        invariant AtCell(currentRow, currentColumn, p % CYCLE) && LegalStart(currentRow, currentColumn)
        invariant color == CodeAt(p)
        invariant Position() == before.(row := currentRow, column := currentColumn)
        invariant AllTaken(before.used, n, p)
        invariant clashes <==> color in before.used
        decreases n + CYCLE - p
      {
        ProbeNext(currentRow, currentColumn, p);
        IncrementCurrentColumn(1);
        IncrementCurrentRow(1);
        p := p + 1;
        ColorOfCell(currentRow, currentColumn, p);
        color := GetCurrentColor();
        BackAtStart(n, p);
        if color == origColor {
          Exhausted(before, p);
          Reset();
          color := GetNextColor();
          return;
        }
        clashes := ColorClashes(color);
      }
      FirstFreeFound(before, p, currentRow, currentColumn);
      usedColorCodes := usedColorCodes + [color];
    }

    method HasDimensionValue(d: Dimension) returns (has: bool)
      ensures has <==> HasValue(colors, d)
    {
      has := false;
      if d.key in colors {
        has := d.value in colors[d.key];
      }
    }

    method AddDimensionValue(d: Dimension)
      requires Valid()
      modifies this`colors, this`currentRow, this`currentColumn, this`usedColorCodes
      ensures Valid() && Value() == AddValue(old(Value()), d)
    {
      hide Wf, Step, Last;
      assert LegalGen(Value()) by { LegalFromValid(); }
      ghost var before := colors;
      if d.key !in colors {
        colors := colors[d.key := map[]];
      }
      var color := GetNextColor();
      colors := colors[d.key := colors[d.key][d.value := color]];
      assert colors == SetColor(before, d, color);
    }

    /** Give a colour to every dimension of every row of every run that does not have one yet. */
    method Populate(runs: seq<RunRows>)
      requires Valid()
      modifies this`colors, this`currentRow, this`currentColumn, this`usedColorCodes
      ensures Valid() && Value() == AddAll(old(Value()), RunsDimensions(runs))
    {
      hide AddValue, Wf, HasValue, AddAll, AddRows, AddRuns, LegalGen;
      ghost var g := Value();
      assert LegalGen(g) by { LegalFromValid(); }
      AddNothing(g);
      for i := 0 to |runs|
        invariant Valid() && LegalGen(g) && Value() == AddRuns(g, runs[..i])
      {
        var rows := runs[i];
        ghost var g1 := Value();
        AddNothing(g1);
        for j := 0 to |rows|
          invariant Valid() && LegalGen(g1) && Value() == AddRows(g1, rows[..j])
        {
          var dims := rows[j];
          ghost var g2 := Value();
          AddNothing(g2);
          for k := 0 to |dims|
            invariant Valid() && LegalGen(g2) && Value() == AddAll(g2, dims[..k])
          {
            var has := HasDimensionValue(dims[k]);
            if !has {
              AddDimensionValue(dims[k]);
            }
            AddAllNext(g2, dims, k);
          }
          assert dims[..|dims|] == dims;
          AddRowsNext(g1, rows, j);
        }
        assert rows[..|rows|] == rows;
        AddRunsNext(g, runs, i);
      }
      assert runs[..|runs|] == runs;
      AddRunsFlat(g, runs);
    }

    lemma LegalFromValid()
      requires Valid()
      ensures LegalGen(Value())
    {
    }
  }

  function AddRows(g: Gen, rows: RunRows): (r: Gen)
    requires LegalGen(g)
    ensures LegalGen(r)
  {
    if rows == [] then g else AddAll(AddRows(g, rows[..|rows| - 1]), rows[|rows| - 1])
  }

  function AddRuns(g: Gen, runs: seq<RunRows>): (r: Gen)
    requires LegalGen(g)
    ensures LegalGen(r)
  {
    if runs == [] then g else AddRows(AddRuns(g, runs[..|runs| - 1]), runs[|runs| - 1])
  }

  lemma AddNothing(g: Gen)
    requires LegalGen(g)
    ensures AddAll(g, []) == g && AddRows(g, []) == g && AddRuns(g, []) == g
  {
  }

  lemma AddAllNext(g: Gen, dims: seq<Dimension>, k: nat)
    requires LegalGen(g) && k < |dims|
    ensures AddAll(g, dims[..k + 1]) ==
            var h := AddAll(g, dims[..k]); if HasValue(h.colors, dims[k]) then h else AddValue(h, dims[k])
  {
    hide AddValue, HasValue;
    assert dims[..k + 1][..k] == dims[..k];
  }

  lemma AddRowsNext(g: Gen, rows: RunRows, k: nat)
    requires LegalGen(g) && k < |rows|
    ensures AddRows(g, rows[..k + 1]) == AddAll(AddRows(g, rows[..k]), rows[k])
  {
    hide AddAll;
    assert rows[..k + 1][..k] == rows[..k];
  }

  lemma AddRunsNext(g: Gen, runs: seq<RunRows>, k: nat)
    requires LegalGen(g) && k < |runs|
    ensures AddRuns(g, runs[..k + 1]) == AddRows(AddRuns(g, runs[..k]), runs[k])
  {
    hide AddRows;
    assert runs[..k + 1][..k] == runs[..k];
  }

  lemma {:induction false} AddAllConcat(g: Gen, a: seq<Dimension>, b: seq<Dimension>)
    requires LegalGen(g)
    ensures AddAll(g, a + b) == AddAll(AddAll(g, a), b)
  {
    hide AddValue, HasValue, LegalGen;
    if b == [] {
      assert a + b == a;
    } else {
      AddAllConcat(g, a, b[..|b| - 1]);
      assert (a + b)[..|a + b| - 1] == a + b[..|b| - 1];
    }
  }

  lemma {:induction false} AddRowsFlat(g: Gen, rows: RunRows)
    requires LegalGen(g)
    ensures AddRows(g, rows) == AddAll(g, RowsDimensions(rows))
  {
    hide AddAll, LegalGen;
    if rows == [] {
      AddNothing(g);
    } else {
      AddRowsFlat(g, rows[..|rows| - 1]);
      AddAllConcat(g, RowsDimensions(rows[..|rows| - 1]), rows[|rows| - 1]);
    }
  }

  /** The nested loops of populate add the flattened dimensions one by one. */
  lemma {:induction false} AddRunsFlat(g: Gen, runs: seq<RunRows>)
    requires LegalGen(g)
    ensures AddRuns(g, runs) == AddAll(g, RunsDimensions(runs))
  {
    hide AddAll, AddRows, LegalGen;
    if runs == [] {
      AddNothing(g);
    } else {
      AddRunsFlat(g, runs[..|runs| - 1]);
      AddRowsFlat(AddRuns(g, runs[..|runs| - 1]), runs[|runs| - 1]);
      AddAllConcat(g, RunsDimensions(runs[..|runs| - 1]), RowsDimensions(runs[|runs| - 1]));
    }
  }

  ghost predicate AllTaken(used: seq<uint8>, n: nat, p: nat) {
    forall q: nat :: n <= q < p ==> CodeAt(q) in used
  }

  lemma StepKeepsWf(s: State)
    requires Wf(s)
    ensures LegalStart(s.row, s.column) && LegalStart(s.startRow, s.startColumn)
    ensures Wf(Step(s)) && AllTaken(s.used, StrideCell(s.row, s.column), StrideCell(s.row, s.column))
    ensures AtCell(NextRow(s.row, 2), NextColumn(s.column, 2), StrideCell(s.row, s.column) % CYCLE)
    ensures StrideCell(s.row, s.column) < CYCLE
  {
    hide Step, StrideCell, CodeAt, NextRow, NextColumn, CellRow, CellColumn;
    StepTakesFirstFree(s);
  }

  lemma ColorOfCell(row: uint8, column: uint8, p: nat)
    requires AtCell(row, column, p % CYCLE)
    ensures LegalStart(row, column) && CodeAt(p) == column + row * 36
  {
    hide CellRow, CellColumn;
    ModCycle(p);
  }

  /** The probe ended on a free colour. */
  lemma FirstFreeFound(s: State, p: nat, row: uint8, column: uint8)
    requires Wf(s)
    requires var n := StrideCell(s.row, s.column);
             n <= p < n + CYCLE && AllTaken(s.used, n, p) && CodeAt(p) !in s.used
    requires AtCell(row, column, p % CYCLE)
    ensures Step(s) == s.(row := row, column := column, used := s.used + [CodeAt(p)])
  {
    hide CodeAt, StrideCell, FirstFree;
    var n := StrideCell(s.row, s.column);
    FirstFreeIs(s.used, n, n + CYCLE, p);
    SameCell(row, column, p);
  }

  /** The probe came back to its first colour. */
  lemma Exhausted(s: State, p: nat)
    requires Wf(s)
    requires var n := StrideCell(s.row, s.column); p == n + CYCLE && AllTaken(s.used, n, p)
    ensures |s.used| == CYCLE && Step(s) == Step(Initial(s.startRow, s.startColumn))
  {
    hide CodeAt, StrideCell, FirstFree, Step;
    var n := StrideCell(s.row, s.column);
    FirstFreeIs(s.used, n, n + CYCLE, p);
    ExhaustedOnlyAtEighty(s, n);
    StepTakesFirstFree(s);
  }

  lemma SameCell(row: uint8, column: uint8, p: nat)
    requires AtCell(row, column, p % CYCLE)
    ensures row == CellRow(p) && column == CellColumn(p)
  {
    ModFactor(p, 16, 5);
    ModFactor(p, 5, 16);
  }

  lemma ProbeNext(row: uint8, column: uint8, p: nat)
    requires AtCell(row, column, p % CYCLE)
    ensures AtCell(NextRow(row, 1), NextColumn(column, 1), (p + 1) % CYCLE)
  {
    hide AtCell, NextRow, NextColumn;
    ProbeStep(row, column, p % CYCLE);
    assert (p % CYCLE + 1) % CYCLE == (p + 1) % CYCLE;
  }

  lemma BackAtStart(n: nat, p: nat)
    requires n < p <= n + CYCLE
    ensures CodeAt(p) == CodeAt(n) <==> p == n + CYCLE
  {
    hide CodeAt;
    CodeInjective(n, p);
  }

  lemma {:induction false} FirstFreeIs(used: seq<uint8>, n: nat, stop: nat, p: nat)
    requires n <= p <= stop
    requires AllTaken(used, n, p)
    requires p == stop || CodeAt(p) !in used
    ensures FirstFree(used, n, stop) == p
    decreases stop - n
  {
    hide CodeAt;
    if n < p {
      FirstFreeIs(used, n + 1, stop, p);
    }
  }

  /** The constructor function: the column is checked before the row. */
  method NewDimensionColorGenerator(startingRow: uint8, startingColumn: uint8)
    returns (r: Result<DimensionColorGenerator>)
    ensures r.Ok? <==> LegalStart(startingRow, startingColumn)
    ensures r.Ok? ==> fresh(r.value) && r.value.Valid()
                      && r.value.Value() == Gen(map[], Initial(startingRow, startingColumn))
    ensures r.Err? ==> r.message == if MIN_COLUMN <= startingColumn <= MAX_COLUMN
                                    then "starting row must be between 0 and 5"
                                    else "starting column must be between 16 and 51"
  {
    if startingColumn < MIN_COLUMN || startingColumn > MAX_COLUMN {
      return Err("starting column must be between 16 and 51");
    }
    if startingRow > MAX_ROW {
      return Err("starting row must be between 0 and 5");
    }
    var g := new DimensionColorGenerator(startingRow, startingColumn);
    return Ok(g);
  }
}
