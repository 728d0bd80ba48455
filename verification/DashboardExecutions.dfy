/** Executions of a dashboard that exist for every tree (dashboard/dashboardexecute: container_run.go,
    leaf_run.go, check_run.go): in which an error is missed, shown, or kept from ending the dashboard. */
module DashboardExecutions {
  import opened Dashboard

  // ---------- Running one node to its end ----------

  /** Nothing is received from an error channel, and every leaf that runs succeeds, but i fails. */
  predicate Calm(a: Action, i: nat) {
    !a.ReceiveError? && (a.Run? ==> a.outcome == if a.i == i then Fails else Succeeds)
  }

  ghost predicate NoneGaveUp(t: Tree, s: State)
    requires Shaped(t, s)
  {
    forall j :: 0 <= j < |t.nodes| ==> !GaveUp(t, s, j)
  }

  /** The actions are calm, of nodes at or below x. */
  ghost predicate CalmBelow(t: Tree, actions: seq<Action>, x: nat, i: nat)
    requires WellFormed(t)
  {
    forall a :: a in actions ==> Calm(a, i) && Actor(a) < |t.nodes| && Descends(t, Actor(a), x)
  }

  lemma CalmMove(t: Tree, s: State, x: nat, i: nat) returns (a: Action)
    requires Inv(t, s) && x < |t.nodes| && !s.pcs[x].NotStarted? && !s.pcs[x].Finished? && NoneGaveUp(t, s)
    ensures Enabled(t, s, a) && CalmBelow(t, [a], x, i)
  {
    hide WellFormed, NodeInv, RootInv, HasRoom, HasErrorRoom, GaveUp;
    a := CanMove(t, s, x);
    if a.Run? && a.i == i {
      a := Run(i, Fails);
    }
  }

  lemma CalmStep(t: Tree, s: State, a: Action)
    requires Inv(t, s) && Enabled(t, s, a) && NoneGaveUp(t, s) && (a.Run? ==> !a.outcome.DependencyError?)
    ensures NoneGaveUp(t, Apply(t, s, a))
  {
    hide Inv, Enabled, Apply, GaveUp;
    InvShaped(t, s);
    forall j | 0 <= j < |t.nodes| ensures !GaveUp(t, Apply(t, s, a), j) {
      if t.nodes[j].Leaf? {
        GivesUpStep(t, s, a, j);
      } else {
        OnlyLeavesGiveUp(t, Apply(t, s, a), j);
      }
    }
  }

  lemma OnlyLeavesGiveUp(t: Tree, s: State, j: nat)
    requires Shaped(t, s) && j < |t.nodes|
    ensures GaveUp(t, s, j) ==> t.nodes[j].Leaf?
  {
  }

  lemma Finishing(t: Tree, s: State, a: Action, x: nat)
    requires Inv(t, s) && Enabled(t, s, a) && x < |t.nodes| && !s.pcs[x].NotStarted? && !s.pcs[x].Finished?
    ensures var s' := Apply(t, s, a);
            && !s'.pcs[x].NotStarted?
            && (x > 0 && s'.pcs[x] == Finished(true) ==> x in s'.errChan[t.parent[x]])
  {
    assert t.nodes[0].Container?;
    hide WellFormed, StatusInv, ChannelInv, WakeInv, HasRoom, HasErrorRoom, RootInv, Starts, Children, Terminal;
    StartsNew(t, s, a);
    Frame(t, s, a, x);
    if x == Actor(a) {
      ChildIsLater(t, s, a);
      ActorInRange(t, s, a);
      FinishingActor(t, s, a);
    }
  }

  lemma FinishingActor(t: Tree, s: State, a: Action)
    requires Shaped(t, s) && Enabled(t, s, a) && Actor(a) < |t.nodes|
    requires Actor(a) > 0 ==> t.parent[Actor(a)] < |t.nodes|
    requires a.SpawnNext? && s.pcs[a.p].k < |Children(t, a.p)| ==> Children(t, a.p)[s.pcs[a.p].k] != a.p
    ensures var s', x := Apply(t, s, a), Actor(a);
            && !s'.pcs[x].NotStarted?
            && (x > 0 && s'.pcs[x] == Finished(true) ==> x in s'.errChan[t.parent[x]])
  {
    hide WellFormed, HasRoom, HasErrorRoom, Children, Terminal;
  }

  /** A started node can be run to its end by moves of its own and of nodes below it. */
  lemma {:induction false} Drive(t: Tree, s: State, x: nat, i: nat) returns (actions: seq<Action>)
    requires Inv(t, s) && x < |t.nodes| && !s.pcs[x].NotStarted? && !s.pcs[x].Finished? && NoneGaveUp(t, s)
    ensures Legal(t, s, actions) && CalmBelow(t, actions, x, i)
    ensures var s' := After(t, s, actions);
            && Inv(t, s') && NoneGaveUp(t, s') && s'.pcs[x].Finished?
            && (x > 0 && s'.pcs[x].err ==> x in s'.errChan[t.parent[x]])
    decreases SumRank(t, s)
  {
    hide Inv, Enabled, Apply, SumRank, NoneGaveUp, Descends, Calm;
    InvShaped(t, s);
    RankPositive(t, s);
    var a := CalmMove(t, s, x, i);
    assert a in [a] && Calm(a, i);
    assert a.Run? ==> !a.outcome.DependencyError? by { CalmSucceeds(a, i); }
    CalmStep(t, s, a);
    InvStep(t, s, a);
    SumRankStep(t, s, a);
    Finishing(t, s, a, x);
    var s' := Apply(t, s, a);
    if s'.pcs[x].Finished? {
      actions := [a];
    } else {
      var rest := Drive(t, s', x, i);
      actions := [a] + rest;
      assert actions[0] == a && actions[1..] == rest;
    }
  }

  lemma CalmSucceeds(a: Action, i: nat)
    requires Calm(a, i)
    ensures a.Run? ==> !a.outcome.DependencyError?
  {
  }

  lemma RankPositive(t: Tree, s: State)
    requires Inv(t, s)
    ensures SumRank(t, s) >= 0
  {
    hide Inv;
    InvShaped(t, s);
    RankNotNegative(t, s, |t.nodes|);
  }

  lemma {:induction false} LegalConcat(t: Tree, s: State, a: seq<Action>, b: seq<Action>)
    requires Shaped(t, s) && Legal(t, s, a) && Legal(t, After(t, s, a), b)
    ensures Legal(t, s, a + b) && After(t, s, a + b) == After(t, After(t, s, a), b)
    decreases |a|
  {
    hide Enabled, Apply;
    if a == [] {
      assert a + b == b;
    } else {
      assert (a + b)[0] == a[0] && (a + b)[1..] == a[1..] + b;
      LegalConcat(t, Apply(t, s, a[0]), a[1..], b);
    }
  }

  // ---------- The leaf that fails ----------

  /** i has not succeeded, and if it has set its status its Execute returns an error. */
  predicate Failing(s: State, i: nat)
    requires i < |s.pcs| == |s.status|
  {
    s.status[i] != Complete && (s.status[i] == Error ==> Erred(s.pcs[i]))
  }

  lemma FailingStep(t: Tree, s: State, a: Action, i: nat)
    requires Inv(t, s) && Enabled(t, s, a) && i < |t.nodes| && t.nodes[i].Leaf? && Failing(s, i)
    requires a != Run(i, Succeeds)
    ensures Failing(Apply(t, s, a), i)
  {
    assert t.nodes[0].Container?;
    hide WellFormed, SpawnInv, StatusInv, ChannelInv, WakeInv, HasRoom, HasErrorRoom, RootInv, Starts, Apply, Enabled;
    StartsNew(t, s, a);
    Frame(t, s, a, i);
    if i == Actor(a) {
      assert NodeInv(t, s, i);
      NodeInvParts(t, s, i);
      FailingActor(t, s, a);
    }
  }

  lemma FailingActor(t: Tree, s: State, a: Action)
    requires Shaped(t, s) && Enabled(t, s, a) && Actor(a) < |t.nodes| && t.nodes[Actor(a)].Leaf?
    requires StatusInv(t, s, Actor(a)) && t.nodes[0].Container? && Failing(s, Actor(a)) && a != Run(Actor(a), Succeeds)
    ensures Failing(Apply(t, s, a), Actor(a))
  {
    hide WellFormed, HasRoom, HasErrorRoom, Children;
    match a
    case Run(_, _) =>
    case Report(_) =>
    case Finish(_) =>
    case _ => assert false;
  }

  lemma {:induction false} FailingAfter(t: Tree, s: State, actions: seq<Action>, i: nat)
    requires Inv(t, s) && Legal(t, s, actions) && i < |t.nodes| && t.nodes[i].Leaf? && Failing(s, i)
    requires Run(i, Succeeds) !in actions
    ensures Failing(After(t, s, actions), i)
    decreases |actions|
  {
    hide Inv, Enabled, Apply, Failing;
    InvShaped(t, s);
    if actions != [] {
      InvStep(t, s, actions[0]);
      FailingStep(t, s, actions[0], i);
      FailingAfter(t, Apply(t, s, actions[0]), actions[1..], i);
    }
  }

  lemma ReadyAtFirst(t: Tree, i: nat)
    requires WellFormed(t) && i < |t.nodes| && t.nodes[i].Leaf? && t.nodes[i].ready
    ensures Init(t).status[i] == Ready && Failing(Init(t), i)
    ensures forall q: nat :: q < |t.nodes| ==> Init(t).pcs[q].NotStarted? && Init(t).status[q] == InitialStatus(t, q)
  {
  }

  /** A node without work has no work below it. */
  lemma {:induction false} ReadyAbove(t: Tree, i: nat, q: nat)
    requires WellFormed(t) && i < |t.nodes| && InitialStatus(t, i) == Ready && q < |t.nodes| && Descends(t, i, q)
    ensures InitialStatus(t, q) == Ready
  {
    assert |t.parent| == |t.nodes|;
    hide WellFormed;
    if i != q {
      var p := t.parent[i];
      ParentInRange(t, i);
      var k :| 0 <= k < |Children(t, p)| && Child(t, p, k) == i;
      assert InitialStatusOfChild(t, p, k) == Ready;
      ReadyAbove(t, p, q);
    }
  }

  // ---------- An error that no container shows ----------

  lemma CalmReceivesNone(t: Tree, actions: seq<Action>, x: nat, i: nat, p: nat)
    requires WellFormed(t) && CalmBelow(t, actions, x, i)
    ensures !ErrorReceived(actions, p) && Run(i, Succeeds) !in actions
  {
    hide WellFormed, Descends;
    forall c ensures ReceiveError(p, c) !in actions {
      assert !Calm(ReceiveError(p, c), i);
    }
    assert !Calm(Run(i, Succeeds), i);
  }

  /** In every tree, for every leaf with work to do: there is an execution in which it returns an error and
      the dashboard's Execute returns with all containers complete. */
  lemma ErrorCanBeMissed(t: Tree, i: nat) returns (actions: seq<Action>)
    requires WellFormed(t) && i < |t.nodes| && t.nodes[i].Leaf? && t.nodes[i].ready
    ensures Legal(t, Init(t), actions)
    ensures var s := After(t, Init(t), actions);
            && s.status[i] == Error && Erred(s.pcs[i]) && s.pcs[0].Finished?
            && forall p :: 0 <= p < |t.nodes| && t.nodes[p].Container? ==> s.status[p] == Complete
  {
    hide Inv, Enabled, Apply, Init, WellFormed, NoneGaveUp, CalmBelow, ErrorReceived;
    InvInit(t);
    ReadyAtFirst(t, i);
    NodesExist(t);
    RootStarts(t, i);
    var s1 := Apply(t, Init(t), Start);
    InvStep(t, Init(t), Start);
    var rest := Drive(t, s1, 0, i);
    actions := [Start] + rest;
    assert actions[0] == Start && actions[1..] == rest;
    var s := After(t, Init(t), actions);
    FailingStep(t, Init(t), Start, i);
    CalmReceivesNone(t, rest, 0, i, 0);
    FailingAfter(t, s1, rest, i);
    ReturnedAllTerminal(t, actions, i);
    forall p | 0 <= p < |t.nodes| && t.nodes[p].Container? ensures s.status[p] == Complete {
      CalmReceivesNone(t, rest, 0, i, p);
      ReceivedFirstOrLater(Start, rest, p);
      ErrorShowsIfReceived(t, actions, p);
      ReturnedAllTerminal(t, actions, p);
    }
  }

  /** A dashboard with work to do starts its children. */
  lemma RootStarts(t: Tree, i: nat)
    requires WellFormed(t) && i < |t.nodes| && t.nodes[i].Leaf? && t.nodes[i].ready
    ensures Enabled(t, Init(t), Start)
    ensures Apply(t, Init(t), Start) == Goto(Init(t), 0, Spawn(0)) && NoneGaveUp(t, Apply(t, Init(t), Start))
  {
    hide WellFormed, Init, Inv;
    InvInit(t);
    InvShaped(t, Init(t));
    ReadyAtFirst(t, i);
    NodesExist(t);
    AllBelowRoot(t, i);
    ReadyAbove(t, i, 0);
    RootIsContainer(t);
    var s' := Apply(t, Init(t), Start);
    forall j | 0 <= j < |t.nodes| ensures !GaveUp(t, s', j) {
      assert s'.pcs[j] == if j == 0 then Spawn(0) else Init(t).pcs[j];
    }
  }

  lemma RootIsContainer(t: Tree)
    requires WellFormed(t)
    ensures t.nodes[0].Container?
  {
  }

  lemma {:induction false} AllBelowRoot(t: Tree, i: nat)
    requires WellFormed(t) && i < |t.nodes|
    ensures Descends(t, i, 0)
  {
    if i > 0 {
      AllBelowRoot(t, t.parent[i]);
    }
  }

  // ---------- Bringing all containers above a node to wait ----------

  /** Where the goroutine of a started node begins. */
  function First(t: Tree, i: nat): PC
    requires i < |t.nodes|
  {
    if t.nodes[i].Container? then Spawn(0) else Exec
  }

  /** Nothing has run or has been decided: statuses are those at the start. */
  ghost predicate Untouched(t: Tree, s: State) {
    Shaped(t, s) && Inv(t, s) && s.status == Init(t).status && NoneGaveUp(t, s)
  }

  /** s' differs from s in the position of p only, and in those of p's children from number k on. */
  ghost predicate MovedOnly(t: Tree, s: State, s': State, p: nat, k: nat)
    requires Shaped(t, s) && Shaped(t, s') && p < |t.nodes|
  {
    && s'.status == s.status
    && (forall q :: 0 <= q < |t.nodes| && q != p && !IsChild(t, p, q) ==> s'.pcs[q] == s.pcs[q])
    && (forall j :: 0 <= j < k && j < |Children(t, p)| ==> s'.pcs[Child(t, p, j)] == s.pcs[Child(t, p, j)])
  }

  lemma SpawnOne(t: Tree, s: State, p: nat)
    requires Untouched(t, s) && p < |t.nodes| && s.pcs[p].Spawn? && s.pcs[p].k <= |Children(t, p)|
    ensures Enabled(t, s, SpawnNext(p))
    ensures var k, s' := s.pcs[p].k, Apply(t, s, SpawnNext(p));
            && Untouched(t, s') && MovedOnly(t, s, s', p, k)
            && if k == |Children(t, p)| then s'.pcs[p] == Scan(0)
               else s'.pcs[p] == Spawn(k + 1) && s'.pcs[Child(t, p, k)] == First(t, Child(t, p, k))
  {
    assert t.nodes[0].Container?;
    InvStep(t, s, SpawnNext(p));
    CalmStep(t, s, SpawnNext(p));
    hide Inv, NoneGaveUp, Init;
    if s.pcs[p].k < |Children(t, p)| {
      var c := Child(t, p, s.pcs[p].k);
      forall j | 0 <= j < s.pcs[p].k ensures Child(t, p, j) != c {
        ChildrenDiffer(t, p, j, s.pcs[p].k);
      }
    }
  }

  lemma {:induction false} SpawnAll(t: Tree, s: State, p: nat) returns (actions: seq<Action>)
    requires Shaped(t, s) && Untouched(t, s) && p < |t.nodes| && s.pcs[p].Spawn? && s.pcs[p].k <= |Children(t, p)|
    ensures Legal(t, s, actions)
    ensures var s' := After(t, s, actions);
            && Untouched(t, s') && MovedOnly(t, s, s', p, s.pcs[p].k) && s'.pcs[p] == Scan(0)
            && forall j :: s.pcs[p].k <= j < |Children(t, p)| ==> s'.pcs[Child(t, p, j)] == First(t, Child(t, p, j))
    decreases |Children(t, p)| - s.pcs[p].k
  {
    hide Untouched, Enabled, Apply, WellFormed, First, Children;
    SpawnOne(t, s, p);
    var s1 := Apply(t, s, SpawnNext(p));
    if s.pcs[p].k == |Children(t, p)| {
      actions := [SpawnNext(p)];
    } else {
      var rest := SpawnAll(t, s1, p);
      actions := [SpawnNext(p)] + rest;
      assert actions[0] == SpawnNext(p) && actions[1..] == rest;
    }
  }

  /** A container scans its children up to one that is not complete, and waits. */
  lemma {:induction false} ScanToWait(t: Tree, s: State, p: nat, m: nat) returns (actions: seq<Action>)
    requires Shaped(t, s) && Untouched(t, s) && p < |t.nodes| && s.pcs[p].Scan? && s.pcs[p].k <= m < |Children(t, p)|
    requires s.status[Child(t, p, m)] == Ready
    ensures Legal(t, s, actions)
    ensures var s' := After(t, s, actions);
            && Untouched(t, s') && s'.pcs[p].Wait?
            && forall q :: 0 <= q < |t.nodes| && q != p ==> s'.pcs[q] == s.pcs[q]
    decreases m - s.pcs[p].k
  {
    hide Untouched, Enabled, Apply, WellFormed, Children;
    ScanOne(t, s, p, m);
    var s1 := Apply(t, s, ScanNext(p));
    if s1.pcs[p].Wait? {
      actions := [ScanNext(p)];
    } else {
      UntouchedStatus(t, s, s1);
      var rest := ScanToWait(t, s1, p, m);
      actions := [ScanNext(p)] + rest;
      assert actions[0] == ScanNext(p) && actions[1..] == rest;
    }
  }

  lemma ScanOne(t: Tree, s: State, p: nat, m: nat)
    requires Untouched(t, s) && p < |t.nodes| && s.pcs[p].Scan? && s.pcs[p].k <= m < |Children(t, p)|
    requires s.status[Child(t, p, m)] == Ready
    ensures Enabled(t, s, ScanNext(p))
    ensures var s' := Apply(t, s, ScanNext(p));
            && Untouched(t, s')
            && (s'.pcs[p].Wait? || (s'.pcs[p] == Scan(s.pcs[p].k + 1) && s.pcs[p].k < m))
            && forall q :: 0 <= q < |t.nodes| && q != p ==> s'.pcs[q] == s.pcs[q]
  {
    assert t.nodes[0].Container?;
    InvStep(t, s, ScanNext(p));
    CalmStep(t, s, ScanNext(p));
    hide Inv, NoneGaveUp, Init;
  }

  lemma UntouchedStatus(t: Tree, s: State, s': State)
    requires Untouched(t, s) && Untouched(t, s')
    ensures s'.status == s.status
  {
  }

  /** All containers above x wait for a child. */
  ghost predicate WaitAbove(t: Tree, s: State, x: nat)
    requires Shaped(t, s) && x < |t.nodes|
  {
    forall q :: 0 <= q < |t.nodes| && q != x && Descends(t, x, q) ==> s.pcs[q].Wait?
  }

  lemma {:induction false} DescendsLess(t: Tree, a: nat, b: nat)
    requires WellFormed(t) && a < |t.nodes| && Descends(t, a, b)
    ensures b <= a
  {
    if a != b {
      DescendsLess(t, t.parent[a], b);
    }
  }

  lemma ParentAbove(t: Tree, x: nat)
    requires WellFormed(t) && 0 < x < |t.nodes|
    ensures t.parent[x] < x && t.nodes[t.parent[x]].Container? && Descends(t, x, t.parent[x])
  {
  }

  /** The parent starts all its children and waits. */
  lemma OpenParent(t: Tree, s: State, x: nat) returns (actions: seq<Action>)
    requires Shaped(t, s) && Untouched(t, s) && 0 < x < |t.nodes| && t.parent[x] < |t.nodes|
    requires s.pcs[t.parent[x]] == Spawn(0) && WaitAbove(t, s, t.parent[x]) && s.status[x] == Ready
    ensures Legal(t, s, actions)
    ensures var s' := After(t, s, actions); Untouched(t, s') && s'.pcs[x] == First(t, x) && WaitAbove(t, s', x)
  {
    var p := t.parent[x];
    ParentAbove(t, x);
    ParentInRange(t, x);
    hide Untouched, Enabled, Apply, WellFormed, Children, First, Legal, After;
    var j: nat :| j < |Children(t, p)| && Child(t, p, j) == x;
    var spawns := SpawnAll(t, s, p);
    var s1 := After(t, s, spawns);
    assert s1.pcs[Child(t, p, j)] == First(t, x);
    var scans := ScanToWait(t, s1, p, j);
    actions := spawns + scans;
    LegalConcat(t, s, spawns, scans);
    var s2 := After(t, s1, scans);
    forall q | 0 <= q < |t.nodes| && q != x && Descends(t, x, q) ensures s2.pcs[q].Wait? {
      if q != p {
        DescendsLess(t, p, q);
        assert Descends(t, p, q);
      }
    }
  }

  /** Every node with work at or below it can be reached with all containers above it waiting, and nothing run. */
  lemma {:induction false} Reach(t: Tree, x: nat, i: nat) returns (actions: seq<Action>)
    requires WellFormed(t) && i < |t.nodes| && t.nodes[i].Leaf? && t.nodes[i].ready
    requires x < |t.nodes| && Descends(t, i, x)
    ensures Legal(t, Init(t), actions)
    ensures var s := After(t, Init(t), actions);
            Untouched(t, s) && s.pcs[x] == First(t, x) && WaitAbove(t, s, x)
    decreases x
  {
    InvInit(t);
    InvShaped(t, Init(t));
    ReadyAtFirst(t, i);
    ReadyAbove(t, i, x);
    if x == 0 {
      actions := ReachRoot(t, i);
    } else {
      var p := t.parent[x];
      ParentAbove(t, x);
      DescendsTrans(t, i, x, p);
      hide Enabled, Apply, Init, Inv, Descends, InitialStatus, Legal, After, Untouched, WaitAbove, WellFormed;
      var up := Reach(t, p, i);
      var s := After(t, Init(t), up);
      UntouchedStatus(t, Init(t), s);
      var open := OpenParent(t, s, x);
      LegalConcat(t, Init(t), up, open);
      actions := up + open;
    }
  }

  lemma ReachRoot(t: Tree, i: nat) returns (actions: seq<Action>)
    requires WellFormed(t) && i < |t.nodes| && t.nodes[i].Leaf? && t.nodes[i].ready
    ensures Legal(t, Init(t), actions)
    ensures var s := After(t, Init(t), actions);
            Untouched(t, s) && s.pcs[0] == First(t, 0) && WaitAbove(t, s, 0)
  {
    InvInit(t);
    InvShaped(t, Init(t));
    RootIsContainer(t);
    NodesExist(t);
    hide Enabled, Apply, Init, Inv, WellFormed, NoneGaveUp;
    RootStarts(t, i);
    InvStep(t, Init(t), Start);
    actions := [Start];
    forall q: nat | q < |t.nodes| && Descends(t, 0, q) ensures q == 0 {
      DescendsLess(t, 0, q);
    }
  }

  // ---------- An error that all containers above show ----------

  lemma NotBelow(t: Tree, s: State, a: Action, x: nat, q: nat)
    requires Shaped(t, s) && Enabled(t, s, a) && q < |t.nodes|
    requires Actor(a) < |t.nodes| && Descends(t, Actor(a), x) && !Descends(t, q, x)
    ensures Apply(t, s, a).pcs[q] == s.pcs[q]
  {
    Frame(t, s, a, q);
    hide WellFormed, Apply;
  }

  /** Moves below x leave the nodes that are not below x where they are. */
  lemma {:induction false} DriveFrame(t: Tree, s: State, actions: seq<Action>, x: nat, i: nat, q: nat)
    requires Shaped(t, s) && Legal(t, s, actions) && CalmBelow(t, actions, x, i) && q < |t.nodes| && !Descends(t, q, x)
    ensures After(t, s, actions).pcs[q] == s.pcs[q]
    decreases |actions|
  {
    hide Enabled, Apply, WellFormed, Descends, Calm;
    if actions != [] {
      assert actions[0] in actions;
      NotBelow(t, s, actions[0], x, q);
      DriveFrame(t, Apply(t, s, actions[0]), actions[1..], x, i, q);
    }
  }

  /** x has an error: it is the leaf that fails, or has received one. */
  ghost predicate HasError(t: Tree, s: State, x: nat, i: nat)
    requires Shaped(t, s) && x < |t.nodes| && i < |t.nodes|
  {
    if t.nodes[x].Leaf? then x == i && Failing(s, i) else s.errors[x] > 0
  }

  lemma EndsInError(t: Tree, s: State, actions: seq<Action>, x: nat, i: nat)
    requires Inv(t, s) && Legal(t, s, actions) && x < |t.nodes| && i < |t.nodes| && HasError(t, s, x, i)
    requires CalmBelow(t, actions, x, i) && After(t, s, actions).pcs[x].Finished? && NoneGaveUp(t, After(t, s, actions))
    ensures var s' := After(t, s, actions); s'.status[x] == Error && s'.pcs[x] == Finished(true)
  {
    hide Enabled, Apply, WellFormed, SpawnInv, WakeInv, RootInv, CalmBelow, ErrorReceived, Terminal;
    InvAlways(t, s, actions);
    var s' := After(t, s, actions);
    assert NodeInv(t, s', x);
    if t.nodes[x].Leaf? {
      CalmReceivesNone(t, actions, x, i, 0);
      FailingAfter(t, s, actions, i);
      assert !GaveUp(t, s', x);
    } else {
      ErrorsReceived(t, s, actions, x);
    }
  }

  /** p receives the error of its child x. */
  lemma Receive(t: Tree, s: State, x: nat)
    requires Inv(t, s) && NoneGaveUp(t, s) && 0 < x < |t.nodes| && t.parent[x] < |t.nodes|
    requires s.pcs[t.parent[x]].Wait? && x in s.errChan[t.parent[x]]
    ensures var p := t.parent[x];
            && Enabled(t, s, ReceiveError(p, x))
            && var s' := Apply(t, s, ReceiveError(p, x));
               && Inv(t, s') && NoneGaveUp(t, s') && s'.pcs[p] == Scan(0) && s'.errors[p] > 0
               && forall q :: 0 <= q < |t.nodes| && q != p ==> s'.pcs[q] == s.pcs[q]
  {
    InvStep(t, s, ReceiveError(t.parent[x], x));
    CalmStep(t, s, ReceiveError(t.parent[x], x));
    hide Inv, NoneGaveUp, WellFormed;
  }

  /** The error of x goes up: x finishes, its parent receives it and finishes, and so on. */
  lemma {:induction false} Climb(t: Tree, s: State, x: nat, i: nat) returns (actions: seq<Action>)
    requires Inv(t, s) && NoneGaveUp(t, s) && x < |t.nodes| && i < |t.nodes| && HasError(t, s, x, i)
    requires !s.pcs[x].NotStarted? && !s.pcs[x].Finished? && WaitAbove(t, s, x)
    ensures Legal(t, s, actions)
    ensures forall q :: 0 <= q < |t.nodes| && Descends(t, x, q) ==> After(t, s, actions).status[q] == Error
    decreases x
  {
    InvShaped(t, s);
    hide Inv, Enabled, Apply, WellFormed, NoneGaveUp, Legal, After, HasError, Descends, CalmBelow;
    var run := Drive(t, s, x, i);
    var s1 := After(t, s, run);
    EndsInError(t, s, run, x, i);
    if x == 0 {
      actions := run;
      forall q: nat | q < |t.nodes| && Descends(t, 0, q) ensures s1.status[q] == Error {
        DescendsLess(t, 0, q);
      }
    } else {
      var p := t.parent[x];
      ParentAbove(t, x);
      forall q | 0 <= q < |t.nodes| && q != x && Descends(t, x, q) ensures s1.pcs[q].Wait? {
        DescendsLess(t, x, q);
        if Descends(t, q, x) {
          DescendsLess(t, q, x);
        }
        DriveFrame(t, s, run, x, i, q);
      }
      Receive(t, s1, x);
      var s2 := Apply(t, s1, ReceiveError(p, x));
      ClimbOn(t, s1, s2, x);
      var rest := Climb(t, s2, p, i);
      actions := run + ([ReceiveError(p, x)] + rest);
      LegalCons(t, s1, ReceiveError(p, x), rest);
      LegalConcat(t, s, run, [ReceiveError(p, x)] + rest);
      TerminalIsFinal(t, s1, [ReceiveError(p, x)] + rest, x);
      forall q | 0 <= q < |t.nodes| && Descends(t, x, q) ensures After(t, s, actions).status[q] == Error {
        if q != x {
          DescendsUp(t, x, q);
        }
      }
    }
  }

  lemma DescendsUp(t: Tree, x: nat, q: nat)
    requires WellFormed(t) && 0 < x < |t.nodes| && Descends(t, x, q) && q != x
    ensures Descends(t, t.parent[x], q)
  {
  }

  lemma LegalCons(t: Tree, s: State, a: Action, rest: seq<Action>)
    requires Shaped(t, s) && Enabled(t, s, a) && Legal(t, Apply(t, s, a), rest)
    ensures Legal(t, s, [a] + rest) && After(t, s, [a] + rest) == After(t, Apply(t, s, a), rest)
  {
    hide Enabled, Apply, WellFormed;
    assert ([a] + rest)[1..] == rest;
  }

  /** The parent of x takes over. */
  lemma ClimbOn(t: Tree, s: State, s': State, x: nat)
    requires Shaped(t, s) && Shaped(t, s') && 0 < x < |t.nodes| && t.nodes[t.parent[x]].Container?
    requires forall q :: 0 <= q < |t.nodes| && q != x && Descends(t, x, q) ==> s.pcs[q].Wait?
    requires forall q :: 0 <= q < |t.nodes| && q != t.parent[x] ==> s'.pcs[q] == s.pcs[q]
    requires s'.errors[t.parent[x]] > 0
    ensures WaitAbove(t, s', t.parent[x]) && forall i: nat :: i < |t.nodes| ==> HasError(t, s', t.parent[x], i)
  {
    var p := t.parent[x];
    forall q | 0 <= q < |t.nodes| && q != p && Descends(t, p, q) ensures s'.pcs[q].Wait? {
      DescendsLess(t, p, q);
    }
  }

  /** In every tree, for every leaf with work to do: there is an execution in which it fails and all the
      containers above it, the dashboard too, end in error. */
  lemma ErrorCanShow(t: Tree, i: nat) returns (actions: seq<Action>)
    requires WellFormed(t) && i < |t.nodes| && t.nodes[i].Leaf? && t.nodes[i].ready
    ensures Legal(t, Init(t), actions)
    ensures forall p :: 0 <= p < |t.nodes| && Descends(t, i, p) ==> After(t, Init(t), actions).status[p] == Error
  {
    var reach := Reach(t, i, i);
    ReadyAtFirst(t, i);
    hide Enabled, Apply, WellFormed, NoneGaveUp, Legal, After, Descends, Init, Inv, WaitAbove;
    var s := After(t, Init(t), reach);
    var climb := Climb(t, s, i, i);
    LegalConcat(t, Init(t), reach, climb);
    actions := reach + climb;
  }

  /** In every tree, every leaf with work to do that waits for inputs can give up; by GivingUpIsFatal the
      dashboard then never returns. */
  lemma LeafCanGiveUp(t: Tree, i: nat) returns (actions: seq<Action>)
    requires WellFormed(t) && i < |t.nodes| && t.nodes[i].Leaf? && t.nodes[i].ready && t.nodes[i].dependent
    ensures Legal(t, Init(t), actions) && GaveUp(t, After(t, Init(t), actions), i)
  {
    var reach := Reach(t, i, i);
    ReadyAtFirst(t, i);
    hide WellFormed, NoneGaveUp, Legal, After, Descends, Init, Inv, WaitAbove;
    var s := After(t, Init(t), reach);
    var last := [Run(i, DependencyError)];
    LegalNone(t, Apply(t, s, last[0]));
    LegalCons(t, s, last[0], []);
    assert last + [] == last;
    LegalConcat(t, Init(t), reach, last);
    actions := reach + last;
  }

  lemma LegalNone(t: Tree, s: State)
    requires Shaped(t, s)
    ensures Legal(t, s, []) && After(t, s, []) == s
  {
  }
}
