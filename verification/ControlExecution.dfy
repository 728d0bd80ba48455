/** Running a control tree in parallel (control/controlexecute/execution_tree.go, result_group.go,
    control_run.go).

    One goroutine dispatches the control runs, each after acquiring a unit of a weighted semaphore.
    Each run reports its summary to its group, possibly more than once; a report climbs to the root,
    locking each group before its parent and holding every lock until it returns.  An execution is
    a list of actions, in any interleaving.  */
module ControlExecution {

  datatype Status = Alarm | Error | Info | Ok | Skip

  datatype Summary = Summary(alarm: nat, error: nat, info: nat, ok: nat, skip: nat)

  const EMPTY_SUMMARY := Summary(0, 0, 0, 0, 0)

  function Count(s: Summary, st: Status): nat {
    match st
    case Alarm => s.alarm
    case Error => s.error
    case Info => s.info
    case Ok => s.ok
    case Skip => s.skip
  }

  function Add(a: Summary, b: Summary): (r: Summary)
    ensures forall st :: Count(r, st) == Count(a, st) + Count(b, st)
  {
    Summary(a.alarm + b.alarm, a.error + b.error, a.info + b.info, a.ok + b.ok, a.skip + b.skip)
  }

  function Failures(s: Summary): nat {
    s.alarm + s.error
  }

  function TotalCount(s: Summary): nat {
    s.alarm + s.ok + s.info + s.skip + s.error
  }

  /** A run of a control: the group it belongs to, the summary it ends with, and how many times it
      reports that summary to its group. */
  datatype Run = Run(group: nat, calls: nat, summary: Summary)

  /** Group 0 is the root; a group's parent is created before it. */
  datatype Tree = Tree(parent: seq<nat>, runs: seq<Run>, maxParallel: nat)

  ghost predicate WellFormed(t: Tree) {
    && |t.parent| > 0 && t.maxParallel > 0
    && (forall g :: 0 < g < |t.parent| ==> t.parent[g] < g)
    && (forall r :: 0 <= r < |t.runs| ==> t.runs[r].group < |t.parent| && t.runs[r].calls > 0)
  }

  /** From a group up to the root. */
  function Path(t: Tree, g: nat): (path: seq<nat>)
    requires WellFormed(t) && g < |t.parent|
    ensures |path| > 0 && path[0] == g && path[|path| - 1] == 0
    ensures forall k :: 0 <= k < |path| ==> path[k] < |t.parent|
    ensures forall j, k :: 0 <= j < k < |path| ==> path[k] < path[j]
  {
    if g == 0 then [0] else [g] + Path(t, t.parent[g])
  }

  // ---------- The machine ----------

  /** Where a run's goroutine is: `left` reports still to begin; climbing with `k` groups of its path
      locked; returning with `k` groups still locked. */
  datatype PC = NotStarted | Idle(left: nat) | Up(left: nat, k: nat) | Down(left: nat, k: nat) | Done

  datatype State = State(next: nat, permits: nat, pcs: seq<PC>, counts: seq<Summary>, result: Result)

  datatype Result = Pending | Returned(failures: nat)

  datatype Action = Dispatch | Begin(r: nat) | Lock(r: nat) | Unlock(r: nat) | Finish(r: nat) | AcquireAll

  function Init(t: Tree): State {
    State(0, t.maxParallel, seq(|t.runs|, _ => NotStarted), seq(|t.parent|, _ => EMPTY_SUMMARY), Pending)
  }

  ghost predicate Shaped(t: Tree, s: State) {
    WellFormed(t) && |s.pcs| == |t.runs| && |s.counts| == |t.parent| && s.next <= |t.runs|
  }

  function RunPath(t: Tree, r: nat): (path: seq<nat>)
    requires WellFormed(t) && r < |t.runs|
    ensures |path| > 0 && path[0] == t.runs[r].group && path[|path| - 1] == 0
    ensures forall k :: 0 <= k < |path| ==> path[k] < |t.parent|
    ensures forall j, k :: 0 <= j < k < |path| ==> path[k] < path[j]
  {
    Path(t, t.runs[r].group)
  }

  /** How many groups of its path a run has locked. */
  function Locked(pc: PC): nat {
    match pc
    case Up(_, k) => k
    case Down(_, k) => k
    case _ => 0
  }

  ghost predicate Holds(t: Tree, s: State, r: nat, g: nat)
    requires Shaped(t, s) && r < |t.runs|
  {
    exists k :: 0 <= k < Locked(s.pcs[r]) && k < |RunPath(t, r)| && RunPath(t, r)[k] == g
  }

  ghost predicate Free(t: Tree, s: State, g: nat)
    requires Shaped(t, s)
  {
    forall r :: 0 <= r < |t.runs| ==> !Holds(t, s, r, g)
  }

  ghost predicate Enabled(t: Tree, s: State, a: Action)
    requires Shaped(t, s)
  {
    s.result.Pending? &&
    match a
    case Dispatch => s.next < |t.runs| && s.permits > 0
    case Begin(r) => r < |t.runs| && s.pcs[r].Idle? && s.pcs[r].left > 0
    case Lock(r) => r < |t.runs| && s.pcs[r].Up? && s.pcs[r].k < |RunPath(t, r)| &&
        Free(t, s, RunPath(t, r)[s.pcs[r].k])
    case Unlock(r) => r < |t.runs| && s.pcs[r].Down? && s.pcs[r].k > 0
    case Finish(r) => r < |t.runs| && s.pcs[r] == Idle(0)
    case AcquireAll => s.next == |t.runs| && s.permits == t.maxParallel
  }

  ghost function Apply(t: Tree, s: State, a: Action): (s': State)
    requires Shaped(t, s) && Enabled(t, s, a)
    ensures Shaped(t, s')
  {
    match a
    case Dispatch =>
      s.(next := s.next + 1, permits := s.permits - 1, pcs := s.pcs[s.next := Idle(t.runs[s.next].calls)])
    case Begin(r) => s.(pcs := s.pcs[r := Up(s.pcs[r].left - 1, 0)])
    case Lock(r) =>
      var path, k := RunPath(t, r), s.pcs[r].k;
      s.(pcs := s.pcs[r := if k + 1 == |path| then Down(s.pcs[r].left, |path|) else Up(s.pcs[r].left, k + 1)],
         counts := s.counts[path[k] := Add(s.counts[path[k]], t.runs[r].summary)])
    case Unlock(r) =>
      s.(pcs := s.pcs[r := if s.pcs[r].k == 1 then Idle(s.pcs[r].left) else Down(s.pcs[r].left, s.pcs[r].k - 1)])
    case Finish(r) => s.(permits := s.permits + 1, pcs := s.pcs[r := Done])
    case AcquireAll => s.(permits := 0, result := Returned(Failures(s.counts[0])))
  }

  ghost predicate Legal(t: Tree, s: State, actions: seq<Action>)
    requires Shaped(t, s)
    decreases |actions|
  {
    actions == [] || (Enabled(t, s, actions[0]) && Legal(t, Apply(t, s, actions[0]), actions[1..]))
  }

  ghost function After(t: Tree, s: State, actions: seq<Action>): (s': State)
    requires Shaped(t, s) && Legal(t, s, actions)
    ensures Shaped(t, s')
    decreases |actions|
  {
    if actions == [] then s else After(t, Apply(t, s, actions[0]), actions[1..])
  }

  // ---------- What is reported, and what has arrived ----------

  /** Reports a run has begun. */
  function Issued(t: Tree, s: State, r: nat): int
    requires r < |t.runs| && |s.pcs| == |t.runs|
  {
    match s.pcs[r]
    case NotStarted => 0
    case Idle(left) => t.runs[r].calls - left
    case Up(left, _) => t.runs[r].calls - left
    case Down(left, _) => t.runs[r].calls - left
    case Done => t.runs[r].calls
  }

  predicate Under(t: Tree, r: nat, g: nat)
    requires WellFormed(t) && r < |t.runs|
  {
    g in RunPath(t, r)
  }

  /** A report begun below g that has not reached g yet. */
  predicate InFlight(t: Tree, s: State, r: nat, g: nat)
    requires Shaped(t, s) && r < |t.runs|
  {
    s.pcs[r].Up? && s.pcs[r].k <= |RunPath(t, r)| && g in RunPath(t, r)[s.pcs[r].k..]
  }

  /** Of status st: what run r has added to group g. */
  function Arrived(t: Tree, s: State, r: nat, g: nat, st: Status): int
    requires Shaped(t, s) && r < |t.runs|
  {
    if !Under(t, r, g) then 0
    else (Issued(t, s, r) - if InFlight(t, s, r, g) then 1 else 0) * Count(t.runs[r].summary, st)
  }

  function SumArrived(t: Tree, s: State, n: nat, g: nat, st: Status): int
    requires Shaped(t, s) && n <= |t.runs|
  {
    if n == 0 then 0 else SumArrived(t, s, n - 1, g, st) + Arrived(t, s, n - 1, g, st)
  }

  /** Of status st: everything reported in the subtree of g by the first n runs. */
  function SumIssued(t: Tree, s: State, n: nat, g: nat, st: Status): int
    requires Shaped(t, s) && n <= |t.runs|
  {
    if n == 0 then 0
    else
      SumIssued(t, s, n - 1, g, st) +
      (if Under(t, n - 1, g) then Issued(t, s, n - 1) * Count(t.runs[n - 1].summary, st) else 0)
  }

  /** Of status st: the reports of the first n runs on their way to g. */
  function SumInFlight(t: Tree, s: State, n: nat, g: nat, st: Status): int
    requires Shaped(t, s) && n <= |t.runs|
  {
    if n == 0 then 0
    else SumInFlight(t, s, n - 1, g, st) + if InFlight(t, s, n - 1, g) then Count(t.runs[n - 1].summary, st) else 0
  }

  function Active(s: State, n: nat): nat
    requires n <= |s.pcs|
  {
    if n == 0 then 0 else Active(s, n - 1) + if s.pcs[n - 1].NotStarted? || s.pcs[n - 1].Done? then 0 else 1
  }

  ghost predicate GoodPC(t: Tree, s: State, r: nat)
    requires Shaped(t, s) && r < |t.runs|
  {
    && (s.pcs[r].NotStarted? <==> r >= s.next)
    && match s.pcs[r]
       case Idle(left) => left <= t.runs[r].calls
       case Up(left, k) => left < t.runs[r].calls && k < |RunPath(t, r)|
       case Down(left, k) => left < t.runs[r].calls && 0 < k <= |RunPath(t, r)|
       case _ => true
  }

  /** No two runs hold one lock. */
  ghost predicate Exclusive(t: Tree, s: State)
    requires Shaped(t, s)
  {
    forall g, q, r :: 0 <= q < r < |t.runs| && Holds(t, s, q, g) ==> !Holds(t, s, r, g)
  }

  ghost predicate CountsArrived(t: Tree, s: State)
    requires Shaped(t, s)
  {
    forall g, st :: 0 <= g < |t.parent| ==> Count(s.counts[g], st) == SumArrived(t, s, |t.runs|, g, st)
  }

  ghost predicate Inv(t: Tree, s: State) {
    && Shaped(t, s)
    && (forall r :: 0 <= r < |t.runs| ==> GoodPC(t, s, r))
    && Exclusive(t, s)
    && CountsArrived(t, s)
    && match s.result
       case Pending => s.permits + Active(s, |t.runs|) == t.maxParallel
       case Returned(f) => s.next == |t.runs| && Active(s, |t.runs|) == 0 && f == Failures(s.counts[0])
  }

  // ---------- The invariant is kept ----------

  /** The run an action moves. */
  ghost predicate Moves(s: State, a: Action, r: nat) {
    match a
    case Dispatch => r == s.next
    case Begin(q) => r == q
    case Lock(q) => r == q
    case Unlock(q) => r == q
    case Finish(q) => r == q
    case AcquireAll => false
  }

  lemma LockedSuffix(path: seq<nat>, k: nat, g: nat)
    requires k < |path| && forall i, j :: 0 <= i < j < |path| ==> path[j] < path[i]
    ensures g in path[k..] <==> g == path[k] || g in path[k + 1..]
    ensures path[k] in path && path[k] !in path[k + 1..]
  {
    assert path[k..] == [path[k]] + path[k + 1..];
  }

  /** The group a step adds a run's summary to. */
  ghost predicate AddsTo(t: Tree, s: State, a: Action, g: nat)
    requires Shaped(t, s) && Enabled(t, s, a)
  {
    a.Lock? && RunPath(t, a.r)[s.pcs[a.r].k] == g
  }

  function Flying(t: Tree, s: State, r: nat, g: nat): int
    requires Shaped(t, s) && r < |t.runs|
  {
    if InFlight(t, s, r, g) then 1 else 0
  }

  lemma FlyingLock(t: Tree, s: State, r: nat, g: nat)
    requires Shaped(t, s) && Enabled(t, s, Lock(r)) && r < |t.runs| && GoodPC(t, s, r)
    ensures var s' := Apply(t, s, Lock(r));
            && Issued(t, s', r) == Issued(t, s, r)
            && (InFlight(t, s, r, g) <==> InFlight(t, s', r, g) || AddsTo(t, s, Lock(r), g))
            && (AddsTo(t, s, Lock(r), g) ==> !InFlight(t, s', r, g))
  {
    hide RunPath, Add, Count, Holds, Free;
    LockedSuffix(RunPath(t, r), s.pcs[r].k, g);
  }

  lemma FlyingBegin(t: Tree, s: State, r: nat, g: nat)
    requires Shaped(t, s) && Enabled(t, s, Begin(r)) && r < |t.runs| && Under(t, r, g)
    ensures var s' := Apply(t, s, Begin(r));
            Issued(t, s', r) == Issued(t, s, r) + 1 && !InFlight(t, s, r, g) && InFlight(t, s', r, g)
  {
    hide RunPath;
    assert RunPath(t, r)[0..] == RunPath(t, r);
  }

  lemma FlyingOther(t: Tree, s: State, a: Action, r: nat, g: nat)
    requires Shaped(t, s) && Enabled(t, s, a) && r < |t.runs| && GoodPC(t, s, r)
    requires !Moves(s, a, r) || a.Dispatch? || a.Unlock? || a.Finish?
    ensures var s' := Apply(t, s, a);
            Issued(t, s', r) == Issued(t, s, r) && (InFlight(t, s', r, g) <==> InFlight(t, s, r, g))
  {
    hide RunPath, Add, Free;
  }

  lemma FlyingStep(t: Tree, s: State, a: Action, r: nat, g: nat)
    requires Shaped(t, s) && Enabled(t, s, a) && r < |t.runs| && GoodPC(t, s, r) && Under(t, r, g)
    ensures var s' := Apply(t, s, a);
            Issued(t, s', r) - Flying(t, s', r, g)
              == Issued(t, s, r) - Flying(t, s, r, g) + if Moves(s, a, r) && AddsTo(t, s, a, g) then 1 else 0
  {
    hide Enabled, Apply, InFlight, Issued, Under, RunPath, AddsTo;
    if a == Begin(r) {
      FlyingBegin(t, s, r, g);
      assert !AddsTo(t, s, a, g) by { NoLockAddsNothing(t, s, a, g); }
    } else if a == Lock(r) {
      FlyingLock(t, s, r, g);
    } else {
      FlyingOther(t, s, a, r, g);
      assert Moves(s, a, r) ==> !AddsTo(t, s, a, g) by { NoLockAddsNothing(t, s, a, g); }
    }
  }

  lemma NoLockAddsNothing(t: Tree, s: State, a: Action, g: nat)
    requires Shaped(t, s) && Enabled(t, s, a)
    ensures AddsTo(t, s, a, g) ==> a.Lock?
  {
  }

  lemma ArrivedStep(t: Tree, s: State, a: Action, r: nat, g: nat, st: Status)
    requires Shaped(t, s) && Enabled(t, s, a) && r < |t.runs| && GoodPC(t, s, r)
    ensures var s' := Apply(t, s, a);
            Arrived(t, s', r, g, st) == Arrived(t, s, r, g, st)
              + (if Moves(s, a, r) && AddsTo(t, s, a, g) then Count(t.runs[r].summary, st) else 0)
  {
    hide Path, Add, Count, Apply, Holds, Free, InFlight, Issued;
    if Under(t, r, g) {
      FlyingStep(t, s, a, r, g);
      var i, c := Issued(t, s, r) - Flying(t, s, r, g), Count(t.runs[r].summary, st);
      assert (i + 1) * c == i * c + c;
    }
  }

  lemma {:induction false} SumArrivedStep(t: Tree, s: State, a: Action, n: nat, g: nat, st: Status)
    requires Shaped(t, s) && Enabled(t, s, a) && n <= |t.runs| && (forall q :: 0 <= q < |t.runs| ==> GoodPC(t, s, q))
    ensures SumArrived(t, Apply(t, s, a), n, g, st) == SumArrived(t, s, n, g, st)
              + if AddsTo(t, s, a, g) && a.r < n then Count(t.runs[a.r].summary, st) else 0
  {
    hide GoodPC, Arrived, Enabled, Apply, Add, Count;
    if n > 0 {
      SumArrivedStep(t, s, a, n - 1, g, st);
      ArrivedStep(t, s, a, n - 1, g, st);
    }
  }

  lemma CountsStep(t: Tree, s: State, a: Action)
    requires Inv(t, s) && Enabled(t, s, a)
    ensures CountsArrived(t, Apply(t, s, a))
  {
    hide GoodPC, Exclusive, SumArrived, Count, Add, Holds, Free, Active;
    var s' := Apply(t, s, a);
    forall g, st | 0 <= g < |t.parent| ensures Count(s'.counts[g], st) == SumArrived(t, s', |t.runs|, g, st) {
      SumArrivedStep(t, s, a, |t.runs|, g, st);
      assert Count(s.counts[g], st) == SumArrived(t, s, |t.runs|, g, st);
    }
  }

  lemma HoldsStep(t: Tree, s: State, a: Action, r: nat, g: nat)
    requires Shaped(t, s) && Enabled(t, s, a) && r < |t.runs| && GoodPC(t, s, r)
    ensures Holds(t, Apply(t, s, a), r, g) ==>
              Holds(t, s, r, g) || (Moves(s, a, r) && AddsTo(t, s, a, g) && Free(t, s, g))
  {
    hide WellFormed, RunPath, Free, Add, Count, Holds;
    var s' := Apply(t, s, a);
    if Holds(t, s', r, g) {
      var k := HeldAt(t, s', r, g);
      if k < Locked(s.pcs[r]) {
        HoldsAt(t, s, r, k);
      } else {
        assert Moves(s, a, r) && a == Lock(r) && k == s.pcs[r].k;
      }
    }
  }

  lemma HeldAt(t: Tree, s: State, r: nat, g: nat) returns (k: nat)
    requires Shaped(t, s) && r < |t.runs| && Holds(t, s, r, g)
    ensures k < Locked(s.pcs[r]) && k < |RunPath(t, r)| && RunPath(t, r)[k] == g
  {
    hide RunPath;
    k :| 0 <= k < Locked(s.pcs[r]) && k < |RunPath(t, r)| && RunPath(t, r)[k] == g;
  }

  lemma HoldsAt(t: Tree, s: State, r: nat, k: nat)
    requires Shaped(t, s) && r < |t.runs| && k < Locked(s.pcs[r]) && k < |RunPath(t, r)|
    ensures Holds(t, s, r, RunPath(t, r)[k])
  {
    hide RunPath;
  }

  lemma ExclusiveStep(t: Tree, s: State, a: Action)
    requires Shaped(t, s) && Exclusive(t, s) && Enabled(t, s, a) && (forall q :: 0 <= q < |t.runs| ==> GoodPC(t, s, q))
    ensures Exclusive(t, Apply(t, s, a))
  {
    hide GoodPC, Enabled, Apply, Holds;
    var s' := Apply(t, s, a);
    forall g, q, r | 0 <= q < r < |t.runs| && Holds(t, s', q, g) ensures !Holds(t, s', r, g) {
      HoldsStep(t, s, a, q, g);
      HoldsStep(t, s, a, r, g);
    }
  }

  lemma {:induction false} ActiveStep(t: Tree, s: State, a: Action, n: nat)
    requires Shaped(t, s) && Enabled(t, s, a) && n <= |t.runs| && (forall r :: 0 <= r < |t.runs| ==> GoodPC(t, s, r))
    ensures Active(Apply(t, s, a), n) == Active(s, n)
              + (if a.Dispatch? && s.next < n then 1 else 0) - (if a.Finish? && a.r < n then 1 else 0)
  {
    hide Path, RunPath, Free, Holds, Add;
    if n > 0 {
      ActiveStep(t, s, a, n - 1);
      assert GoodPC(t, s, n - 1);
    }
  }

  lemma GoodPCStep(t: Tree, s: State, a: Action, r: nat)
    requires Shaped(t, s) && Enabled(t, s, a) && r < |t.runs| && GoodPC(t, s, r)
    ensures GoodPC(t, Apply(t, s, a), r)
  {
    hide Free, Holds, Add;
  }

  lemma InvStep(t: Tree, s: State, a: Action)
    requires Inv(t, s) && Enabled(t, s, a)
    ensures Inv(t, Apply(t, s, a))
  {
    hide GoodPC, CountsArrived, Exclusive, Holds, Free, Add, Active, Path, RunPath;
    var s' := Apply(t, s, a);
    CountsStep(t, s, a);
    ExclusiveStep(t, s, a);
    ActiveStep(t, s, a, |t.runs|);
    forall r | 0 <= r < |t.runs| ensures GoodPC(t, s', r) {
      GoodPCStep(t, s, a, r);
    }
  }

  lemma {:induction false} NothingArrived(t: Tree, n: nat, g: nat, st: Status)
    requires WellFormed(t) && n <= |t.runs|
    ensures SumArrived(t, Init(t), n, g, st) == 0 && Active(Init(t), n) == 0
  {
    hide Path, RunPath;
    if n > 0 {
      NothingArrived(t, n - 1, g, st);
    }
  }

  lemma InvInit(t: Tree)
    requires WellFormed(t)
    ensures Inv(t, Init(t))
  {
    hide SumArrived, Path, RunPath, Active;
    forall g, st | 0 <= g < |t.parent| ensures Count(Init(t).counts[g], st) == SumArrived(t, Init(t), |t.runs|, g, st) {
      NothingArrived(t, |t.runs|, g, st);
    }
    NothingArrived(t, |t.runs|, 0, Ok);
  }

  /** Every execution, whatever the interleaving, keeps the invariant. */
  lemma {:induction false} InvAlways(t: Tree, s: State, actions: seq<Action>)
    requires Inv(t, s) && Legal(t, s, actions)
    ensures Inv(t, After(t, s, actions))
    decreases |actions|
  {
    hide Inv, Enabled, Apply;
    if actions != [] {
      assert Shaped(t, s) by { InvShaped(t, s); }
      InvStep(t, s, actions[0]);
      InvAlways(t, Apply(t, s, actions[0]), actions[1..]);
    }
  }

  lemma InvShaped(t: Tree, s: State)
    requires Inv(t, s)
    ensures Shaped(t, s)
  {
  }

  // ---------- Conservation ----------

  lemma {:induction false} ArrivedPlusInFlight(t: Tree, s: State, n: nat, g: nat, st: Status)
    requires Shaped(t, s) && n <= |t.runs|
    ensures SumArrived(t, s, n, g, st) + SumInFlight(t, s, n, g, st) == SumIssued(t, s, n, g, st)
  {
    hide Issued, Count, RunPath, Under, InFlight, Arrived;
    if n > 0 {
      ArrivedPlusInFlight(t, s, n - 1, g, st);
      OneArrivedOrInFlight(t, s, n - 1, g, st);
    }
  }

  lemma OneArrivedOrInFlight(t: Tree, s: State, r: nat, g: nat, st: Status)
    requires Shaped(t, s) && r < |t.runs|
    ensures Arrived(t, s, r, g, st) + (if InFlight(t, s, r, g) then Count(t.runs[r].summary, st) else 0)
         == if Under(t, r, g) then Issued(t, s, r) * Count(t.runs[r].summary, st) else 0
  {
    hide Issued, Count, RunPath;
    var i, c := Issued(t, s, r), Count(t.runs[r].summary, st);
    assert (i - 1) * c + c == i * c;
  }

  /** In every state of every execution, a group's counts together with the reports still climbing
      towards it are all that was reported in its subtree. */
  lemma SummaryConserved(t: Tree, actions: seq<Action>, g: nat, st: Status)
    requires WellFormed(t) && Legal(t, Init(t), actions) && g < |t.parent|
    ensures var s := After(t, Init(t), actions);
            Count(s.counts[g], st) + SumInFlight(t, s, |t.runs|, g, st) == SumIssued(t, s, |t.runs|, g, st)
  {
    hide SumArrived, SumInFlight, SumIssued, Exclusive, GoodPC, Active;
    InvInit(t);
    InvAlways(t, Init(t), actions);
    ArrivedPlusInFlight(t, After(t, Init(t), actions), |t.runs|, g, st);
  }

  /** No report is climbing. */
  ghost predicate Settled(s: State) {
    forall r :: 0 <= r < |s.pcs| ==> !s.pcs[r].Up?
  }

  lemma {:induction false} SettledInFlight(t: Tree, s: State, n: nat, g: nat, st: Status)
    requires Shaped(t, s) && n <= |t.runs| && Settled(s)
    ensures SumInFlight(t, s, n, g, st) == 0
  {
    if n > 0 {
      SettledInFlight(t, s, n - 1, g, st);
    }
  }

  /** Of status st: reported by the runs of the group itself. */
  function SumDirect(t: Tree, s: State, n: nat, g: nat, st: Status): int
    requires Shaped(t, s) && n <= |t.runs|
  {
    if n == 0 then 0
    else
      SumDirect(t, s, n - 1, g, st) +
      (if t.runs[n - 1].group == g then Issued(t, s, n - 1) * Count(t.runs[n - 1].summary, st) else 0)
  }

  predicate Child(t: Tree, c: nat, g: nat)
    requires c < |t.parent|
  {
    c > 0 && t.parent[c] == g
  }

  /** Of status st: the counts of the children of g among the first m groups. */
  function SumChildren(t: Tree, s: State, m: nat, g: nat, st: Status): int
    requires Shaped(t, s) && m <= |t.parent|
  {
    if m == 0 then 0
    else SumChildren(t, s, m - 1, g, st) + if Child(t, m - 1, g) then Count(s.counts[m - 1], st) else 0
  }

  function SumIssuedInChildren(t: Tree, s: State, n: nat, m: nat, g: nat, st: Status): int
    requires Shaped(t, s) && n <= |t.runs| && m <= |t.parent|
  {
    if m == 0 then 0
    else SumIssuedInChildren(t, s, n, m - 1, g, st) + if Child(t, m - 1, g) then SumIssued(t, s, n, m - 1, st) else 0
  }

  lemma {:induction false} PathNext(t: Tree, g: nat, k: nat)
    requires WellFormed(t) && g < |t.parent| && k < |Path(t, g)|
    ensures Path(t, g)[k] > 0 ==> k + 1 < |Path(t, g)| && Path(t, g)[k + 1] == t.parent[Path(t, g)[k]]
    ensures k + 1 < |Path(t, g)| ==> Path(t, g)[k] > 0
  {
    if k > 0 {
      PathNext(t, t.parent[g], k - 1);
    }
  }

  lemma RunPathNext(t: Tree, r: nat, k: nat)
    requires WellFormed(t) && r < |t.runs| && k < |RunPath(t, r)|
    ensures var path := RunPath(t, r);
            && (path[k] > 0 ==> k + 1 < |path| && path[k + 1] == t.parent[path[k]])
            && (k + 1 < |path| ==> path[k] > 0)
  {
    PathNext(t, t.runs[r].group, k);
  }

  /** A run below g, and not in g itself, is below exactly one child of g. */
  lemma OnlyChild(t: Tree, r: nat, g: nat) returns (c: nat)
    requires WellFormed(t) && r < |t.runs|
    ensures Under(t, r, g) && t.runs[r].group != g ==> c < |t.parent| && Child(t, c, g) && Under(t, r, c)
    ensures forall d :: 0 <= d < |t.parent| && Child(t, d, g) && Under(t, r, d) ==>
              Under(t, r, g) && t.runs[r].group != g && d == c
  {
    hide RunPath;
    var path := RunPath(t, r);
    c := 0;
    var i: nat :| i < |path| && (g in path ==> path[i] == g);
    if g in path && i > 0 {
      RunPathNext(t, r, i - 1);
      c := path[i - 1];
    }
    forall d | 0 <= d < |t.parent| && Child(t, d, g) && Under(t, r, d)
      ensures Under(t, r, g) && t.runs[r].group != g && d == c
    {
      var j: nat :| j < |path| && path[j] == d;
      RunPathNext(t, r, j);
      assert path[j + 1] == g && g in path;
      assert i == j + 1 by { assert !(i < j + 1) && !(j + 1 < i); }
    }
  }

  /** One more run adds to the children what it reported, if it is below g. */
  lemma {:induction false} ChildrenPlusRun(t: Tree, s: State, n: nat, m: nat, g: nat, c: nat, st: Status)
    requires Shaped(t, s) && n < |t.runs| && m <= |t.parent|
    requires forall d :: 0 <= d < |t.parent| && Child(t, d, g) && Under(t, n, d) ==> d == c
    ensures SumIssuedInChildren(t, s, n + 1, m, g, st) == SumIssuedInChildren(t, s, n, m, g, st)
              + if c < m && Child(t, c, g) && Under(t, n, c) then Issued(t, s, n) * Count(t.runs[n].summary, st) else 0
  {
    hide Under, Issued, Count, Child;
    if m > 0 {
      ChildrenPlusRun(t, s, n, m - 1, g, c, st);
    }
  }

  lemma {:induction false} NothingInChildren(t: Tree, s: State, m: nat, g: nat, st: Status)
    requires Shaped(t, s) && m <= |t.parent|
    ensures SumIssuedInChildren(t, s, 0, m, g, st) == 0
  {
    if m > 0 {
      NothingInChildren(t, s, m - 1, g, st);
    }
  }

  lemma {:induction false} IssuedByParts(t: Tree, s: State, n: nat, g: nat, st: Status)
    requires Shaped(t, s) && n <= |t.runs|
    ensures SumIssued(t, s, n, g, st) == SumDirect(t, s, n, g, st) + SumIssuedInChildren(t, s, n, |t.parent|, g, st)
  {
    hide Issued, Count, SumIssuedInChildren, RunPath;
    if n == 0 {
      NothingInChildren(t, s, |t.parent|, g, st);
    } else {
      IssuedByParts(t, s, n - 1, g, st);
      var c := OnlyChild(t, n - 1, g);
      ChildrenPlusRun(t, s, n - 1, |t.parent|, g, c, st);
    }
  }

  lemma {:induction false} ChildrenCounts(t: Tree, s: State, m: nat, g: nat, st: Status)
    requires Inv(t, s) && Settled(s) && m <= |t.parent|
    ensures SumChildren(t, s, m, g, st) == SumIssuedInChildren(t, s, |t.runs|, m, g, st)
  {
    hide SumArrived, SumInFlight, SumIssued, Exclusive, GoodPC, Active, Child;
    if m > 0 {
      ChildrenCounts(t, s, m - 1, g, st);
      ArrivedPlusInFlight(t, s, |t.runs|, m - 1, st);
      SettledInFlight(t, s, |t.runs|, m - 1, st);
    }
  }

  /** Whenever no report is climbing, a group counts its own runs' reports and its children's counts. */
  lemma ParentIsSumOfChildren(t: Tree, actions: seq<Action>, g: nat, st: Status)
    requires WellFormed(t) && Legal(t, Init(t), actions) && g < |t.parent| && Settled(After(t, Init(t), actions))
    ensures var s := After(t, Init(t), actions);
            Count(s.counts[g], st) == SumDirect(t, s, |t.runs|, g, st) + SumChildren(t, s, |t.parent|, g, st)
  {
    hide SumInFlight, SumIssued, SumDirect, SumChildren, Inv;
    InvInit(t);
    InvAlways(t, Init(t), actions);
    var s := After(t, Init(t), actions);
    SummaryConserved(t, actions, g, st);
    SettledInFlight(t, s, |t.runs|, g, st);
    IssuedByParts(t, s, |t.runs|, g, st);
    ChildrenCounts(t, s, |t.parent|, g, st);
  }

  lemma IssuedNotNegative(t: Tree, s: State, r: nat, st: Status)
    requires Shaped(t, s) && r < |t.runs| && GoodPC(t, s, r)
    ensures 0 <= Issued(t, s, r) <= t.runs[r].calls
    ensures Issued(t, s, r) * Count(t.runs[r].summary, st) >= 0
  {
    hide RunPath, Count;
  }

  lemma {:induction false} IssuedAtRoot(t: Tree, s: State, n: nat, g: nat, st: Status)
    requires Shaped(t, s) && n <= |t.runs| && forall r :: 0 <= r < |t.runs| ==> GoodPC(t, s, r)
    ensures 0 <= SumIssued(t, s, n, g, st) <= SumIssued(t, s, n, 0, st)
  {
    hide GoodPC, RunPath, Issued, Count;
    if n > 0 {
      IssuedAtRoot(t, s, n - 1, g, st);
      assert Under(t, n - 1, 0);
      IssuedNotNegative(t, s, n - 1, st);
    }
  }

  /** Whenever no report is climbing, no group counts more than the root. */
  lemma GroupWithinRoot(t: Tree, actions: seq<Action>, g: nat, st: Status)
    requires WellFormed(t) && Legal(t, Init(t), actions) && g < |t.parent| && Settled(After(t, Init(t), actions))
    ensures var s := After(t, Init(t), actions); Count(s.counts[g], st) <= Count(s.counts[0], st)
  {
    hide SumInFlight, SumIssued, Inv;
    InvInit(t);
    InvAlways(t, Init(t), actions);
    var s := After(t, Init(t), actions);
    SummaryConserved(t, actions, g, st);
    SummaryConserved(t, actions, 0, st);
    SettledInFlight(t, s, |t.runs|, g, st);
    SettledInFlight(t, s, |t.runs|, 0, st);
    assert forall r :: 0 <= r < |t.runs| ==> GoodPC(t, s, r) by { InvPCs(t, s); }
    IssuedAtRoot(t, s, |t.runs|, g, st);
  }

  lemma InvPCs(t: Tree, s: State)
    requires Inv(t, s)
    ensures forall r :: 0 <= r < |t.runs| ==> GoodPC(t, s, r)
  {
    hide CountsArrived, Exclusive, Active, GoodPC;
  }

  // ---------- Progress and termination ----------

  /** A run that holds or waits for locks is not stuck: it, or one it waits for, can take its next step. */
  lemma {:induction false} ClimberCanStep(t: Tree, s: State, r: nat) returns (a: Action)
    requires Inv(t, s) && s.result.Pending? && r < |t.runs| && (s.pcs[r].Up? || s.pcs[r].Down?)
    ensures Enabled(t, s, a) && (a.Lock? || a.Unlock?)
    decreases if s.pcs[r].Up? && s.pcs[r].k < |RunPath(t, r)| then RunPath(t, r)[s.pcs[r].k] + 1 else 0
  {
    hide CountsArrived, Exclusive, Active, RunPath;
    assert GoodPC(t, s, r);
    if s.pcs[r].Down? {
      a := Unlock(r);
    } else {
      var g := RunPath(t, r)[s.pcs[r].k];
      if Free(t, s, g) {
        a := Lock(r);
      } else {
        var q: nat :| q < |t.runs| && Holds(t, s, q, g);
        assert GoodPC(t, s, q);
        a := ClimberCanStep(t, s, q);
      }
    }
  }

  lemma {:induction false} NoneActive(t: Tree, s: State, n: nat)
    requires |s.pcs| == |t.runs| && n <= |t.runs|
    ensures Active(s, n) == 0 <==> forall r :: 0 <= r < n ==> s.pcs[r].NotStarted? || s.pcs[r].Done?
  {
    if n > 0 {
      NoneActive(t, s, n - 1);
    }
  }

  /** No deadlock: until Execute returns, some step can be taken. */
  lemma CanStep(t: Tree, s: State) returns (a: Action)
    requires Inv(t, s) && s.result.Pending?
    ensures Enabled(t, s, a)
  {
    hide CountsArrived, Exclusive, RunPath, Holds, Free;
    if r: nat :| r < |t.runs| && !s.pcs[r].NotStarted? && !s.pcs[r].Done? {
      assert GoodPC(t, s, r);
      match s.pcs[r]
      case Idle(left) => a := if left == 0 then Finish(r) else Begin(r);
      case _ => a := ClimberCanStep(t, s, r);
    } else {
      NoneActive(t, s, |t.runs|);
      a := if s.next == |t.runs| then AcquireAll else Dispatch;
    }
  }

  /** Steps taken by a number of reports over a path of l groups. */
  function Reporting(reports: nat, l: nat): (n: nat)
    ensures reports == 0 ==> n == 0
  {
    reports * (2 * l + 1)
  }

  lemma ReportingOneMore(reports: nat, l: nat)
    requires reports > 0
    ensures Reporting(reports, l) == Reporting(reports - 1, l) + l + l + 1
  {
    assert reports * (2 * l + 1) == (reports - 1) * (2 * l + 1) + (2 * l + 1);
  }

  /** Steps a run still has to take, its dispatch included. */
  function Remaining(t: Tree, s: State, r: nat): int
    requires Shaped(t, s) && r < |t.runs|
  {
    var l := |RunPath(t, r)|;
    match s.pcs[r]
    case NotStarted => Reporting(t.runs[r].calls, l) + 2
    case Idle(left) => Reporting(left, l) + 1
    case Up(left, k) => Reporting(left, l) + 1 + l + l - k
    case Down(left, k) => Reporting(left, l) + 1 + k
    case Done => 0
  }

  function SumRemaining(t: Tree, s: State, n: nat): int
    requires Shaped(t, s) && n <= |t.runs|
  {
    if n == 0 then 0 else SumRemaining(t, s, n - 1) + Remaining(t, s, n - 1)
  }

  /** Steps until Execute returns. */
  function Rank(t: Tree, s: State): int
    requires Shaped(t, s)
  {
    SumRemaining(t, s, |t.runs|) + if s.result.Pending? then 1 else 0
  }

  lemma RemainingStep(t: Tree, s: State, a: Action, r: nat)
    requires Shaped(t, s) && Enabled(t, s, a) && r < |t.runs| && GoodPC(t, s, r)
    ensures Remaining(t, Apply(t, s, a), r) == Remaining(t, s, r) - if Moves(s, a, r) then 1 else 0
    ensures Remaining(t, s, r) >= 0
  {
    hide RunPath, Free, Add, Holds, Reporting;
    if s.pcs[r].Idle? && s.pcs[r].left > 0 {
      ReportingOneMore(s.pcs[r].left, |RunPath(t, r)|);
    }
  }

  lemma {:induction false} SumRemainingStep(t: Tree, s: State, a: Action, n: nat, r: nat)
    requires Shaped(t, s) && Enabled(t, s, a) && n <= |t.runs| && (forall q :: 0 <= q < |t.runs| ==> GoodPC(t, s, q))
    requires a.AcquireAll? || Moves(s, a, r)
    ensures SumRemaining(t, Apply(t, s, a), n) == SumRemaining(t, s, n) - if !a.AcquireAll? && r < n then 1 else 0
    ensures SumRemaining(t, s, n) >= 0
  {
    hide GoodPC, Remaining, Enabled, Apply;
    if n > 0 {
      SumRemainingStep(t, s, a, n - 1, r);
      RemainingStep(t, s, a, n - 1);
    }
  }

  lemma RankStep(t: Tree, s: State, a: Action)
    requires Inv(t, s) && Enabled(t, s, a)
    ensures Rank(t, Apply(t, s, a)) == Rank(t, s) - 1 && Rank(t, s) >= 1
  {
    hide GoodPC, CountsArrived, Exclusive, SumRemaining, Active, RunPath, Free;
    var r := if a.Dispatch? then s.next else if a.AcquireAll? then 0 else a.r;
    SumRemainingStep(t, s, a, |t.runs|, r);
  }

  lemma {:induction false} RankAfter(t: Tree, s: State, actions: seq<Action>)
    requires Inv(t, s) && Legal(t, s, actions)
    ensures Rank(t, After(t, s, actions)) == Rank(t, s) - |actions|
    ensures Inv(t, After(t, s, actions))
    decreases |actions|
  {
    hide Inv, Enabled, Apply, Rank;
    InvShaped(t, s);
    if actions != [] {
      InvStep(t, s, actions[0]);
      RankStep(t, s, actions[0]);
      RankAfter(t, Apply(t, s, actions[0]), actions[1..]);
    }
  }

  /** How many steps an execution takes, whatever the interleaving. */
  function TotalSteps(t: Tree): int
    requires WellFormed(t)
  {
    Rank(t, Init(t))
  }

  lemma {:induction false} RemainingWhenDone(t: Tree, s: State, n: nat)
    requires Shaped(t, s) && n <= |t.runs| && forall r :: 0 <= r < |t.runs| ==> s.pcs[r].Done?
    ensures SumRemaining(t, s, n) == 0
  {
    if n > 0 {
      RemainingWhenDone(t, s, n - 1);
    }
  }

  /** When Execute has acquired the whole semaphore, every run has finished. */
  lemma ReturnedAllDone(t: Tree, s: State)
    requires Inv(t, s) && s.result.Returned?
    ensures forall r :: 0 <= r < |t.runs| ==> s.pcs[r].Done?
  {
    hide CountsArrived, Exclusive, RunPath, Active;
    NoneActive(t, s, |t.runs|);
    forall r | 0 <= r < |t.runs| ensures s.pcs[r].Done? {
      assert GoodPC(t, s, r);
    }
  }

  /** Every execution can be continued until Execute returns, and returns after exactly TotalSteps. */
  lemma ExecuteReturns(t: Tree, actions: seq<Action>)
    requires WellFormed(t) && Legal(t, Init(t), actions)
    ensures |actions| <= TotalSteps(t)
    ensures After(t, Init(t), actions).result.Returned? <==> |actions| == TotalSteps(t)
    ensures |actions| < TotalSteps(t) ==> exists a :: Enabled(t, After(t, Init(t), actions), a)
  {
    hide Inv, Enabled, Apply, SumRemaining, Legal, After;
    InvInit(t);
    RankAfter(t, Init(t), actions);
    var s := After(t, Init(t), actions);
    if s.result.Pending? {
      var a := CanStep(t, s);
      RankStep(t, s, a);
    } else {
      ReturnedAllDone(t, s);
      RemainingWhenDone(t, s, |t.runs|);
    }
  }

  /** At most maxParallel runs are between being dispatched and releasing their semaphore unit. */
  lemma AtMostMaxParallel(t: Tree, actions: seq<Action>)
    requires WellFormed(t) && Legal(t, Init(t), actions)
    ensures Active(After(t, Init(t), actions), |t.runs|) <= t.maxParallel
  {
    hide GoodPC, CountsArrived, Exclusive, Active, Enabled, Apply;
    InvInit(t);
    InvAlways(t, Init(t), actions);
  }

  /** No two goroutines hold the lock of one group. */
  lemma LocksAreExclusive(t: Tree, actions: seq<Action>, g: nat, q: nat, r: nat)
    requires WellFormed(t) && Legal(t, Init(t), actions) && q < |t.runs| && r < |t.runs|
    ensures var s := After(t, Init(t), actions); Holds(t, s, q, g) && Holds(t, s, r, g) ==> q == r
  {
    hide GoodPC, CountsArrived, Holds, Active, Enabled, Apply;
    InvInit(t);
    InvAlways(t, Init(t), actions);
  }

  // ---------- What Execute returns ----------

  /** Failures of the first n runs, each counted as often as it was reported. */
  function ReportedFailures(t: Tree, n: nat): nat
    requires n <= |t.runs|
  {
    if n == 0 then 0 else ReportedFailures(t, n - 1) + t.runs[n - 1].calls * Failures(t.runs[n - 1].summary)
  }

  function RunFailures(t: Tree, n: nat): nat
    requires n <= |t.runs|
  {
    if n == 0 then 0 else RunFailures(t, n - 1) + Failures(t.runs[n - 1].summary)
  }

  lemma {:induction false} RootWhenDone(t: Tree, s: State, n: nat)
    requires Shaped(t, s) && n <= |t.runs| && forall r :: 0 <= r < |t.runs| ==> s.pcs[r].Done?
    ensures SumIssued(t, s, n, 0, Alarm) + SumIssued(t, s, n, 0, Error) == ReportedFailures(t, n)
  {
    hide RunPath;
    if n > 0 {
      RootWhenDone(t, s, n - 1);
      var path := RunPath(t, n - 1);
      assert path[|path| - 1] == 0;
      var c, x := t.runs[n - 1].calls, t.runs[n - 1].summary;
      assert c * (x.alarm + x.error) == c * x.alarm + c * x.error;
    }
  }

  lemma {:induction false} ReportedAtLeast(t: Tree, n: nat)
    requires WellFormed(t) && n <= |t.runs|
    ensures ReportedFailures(t, n) >= RunFailures(t, n)
    ensures ReportedFailures(t, n) == RunFailures(t, n) <==>
            forall r :: 0 <= r < n ==> t.runs[r].calls == 1 || Failures(t.runs[r].summary) == 0
  {
    hide Failures;
    if n > 0 {
      ReportedAtLeast(t, n - 1);
      var c, f := t.runs[n - 1].calls, Failures(t.runs[n - 1].summary);
      assert c * f == f + (c - 1) * f;
      assert (c - 1) * f == 0 <==> c == 1 || f == 0 by { Product(c - 1, f); }
    }
  }

  lemma Product(a: nat, b: nat)
    ensures a * b >= 0 && (a * b == 0 <==> a == 0 || b == 0)
  {
  }

  /** Execute returns the failures of all runs, each as often as reported.  That is the number of
      failures exactly when no run with failures reports more than once. */
  lemma ExecuteResult(t: Tree, actions: seq<Action>)
    requires WellFormed(t) && Legal(t, Init(t), actions) && After(t, Init(t), actions).result.Returned?
    ensures var s := After(t, Init(t), actions);
            && s.result.failures == ReportedFailures(t, |t.runs|)
            && (forall r :: 0 <= r < |t.runs| ==> s.pcs[r].Done?)
            && (s.result.failures == RunFailures(t, |t.runs|) <==>
                forall r :: 0 <= r < |t.runs| ==> t.runs[r].calls == 1 || Failures(t.runs[r].summary) == 0)
  {
    hide GoodPC, CountsArrived, Exclusive, Active, Enabled, Apply, SumInFlight, SumIssued, RunPath;
    InvInit(t);
    InvAlways(t, Init(t), actions);
    var s := After(t, Init(t), actions);
    ReturnedAllDone(t, s);
    RootWhenDone(t, s, |t.runs|);
    ReportedAtLeast(t, |t.runs|);
    SummaryConserved(t, actions, 0, Alarm);
    SummaryConserved(t, actions, 0, Error);
    SettledInFlight(t, s, |t.runs|, 0, Alarm);
    SettledInFlight(t, s, |t.runs|, 0, Error);
  }

  /** Each run is dispatched, reports and finishes exactly once, or as often as its reports. */
  lemma {:induction false} ActionsCounted(t: Tree, actions: seq<Action>, r: nat)
    requires WellFormed(t) && Legal(t, Init(t), actions) && r < |t.runs|
    ensures var s := After(t, Init(t), actions);
            && multiset(actions)[Dispatch] == s.next
            && multiset(actions)[Begin(r)] == Issued(t, s, r)
            && multiset(actions)[Finish(r)] == if s.pcs[r].Done? then 1 else 0
  {
    InvInit(t);
    ActionsCountedFrom(t, Init(t), actions, r);
  }

  lemma {:induction false} ActionsCountedFrom(t: Tree, s: State, actions: seq<Action>, r: nat)
    requires Inv(t, s) && Legal(t, s, actions) && r < |t.runs|
    ensures var s' := After(t, s, actions);
            && multiset(actions)[Dispatch] == s'.next - s.next
            && multiset(actions)[Begin(r)] == Issued(t, s', r) - Issued(t, s, r)
            && multiset(actions)[Finish(r)] == (if s'.pcs[r].Done? then 1 else 0) - if s.pcs[r].Done? then 1 else 0
    decreases |actions|
  {
    hide Inv, Enabled, Apply, Issued;
    InvShaped(t, s);
    if actions != [] {
      var a, rest := actions[0], actions[1..];
      InvStep(t, s, a);
      ActionsCountedFrom(t, Apply(t, s, a), rest, r);
      OneCounted(t, s, a, r);
      assert actions == [a] + rest;
      assert multiset(actions) == multiset{a} + multiset(rest);
    }
  }

  lemma OneCounted(t: Tree, s: State, a: Action, r: nat)
    requires Inv(t, s) && Enabled(t, s, a) && r < |t.runs|
    ensures var s' := Apply(t, s, a);
            && s'.next == s.next + (if a == Dispatch then 1 else 0)
            && Issued(t, s', r) == Issued(t, s, r) + (if a == Begin(r) then 1 else 0)
            && (if s'.pcs[r].Done? then 1 else 0) == (if s.pcs[r].Done? then 1 else 0) +
                (if a == Finish(r) then 1 else 0)
  {
    hide CountsArrived, Exclusive, RunPath, Free, Add, Active;
    assert GoodPC(t, s, r);
  }
}
