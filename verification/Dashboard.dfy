/** Executing a dashboard (dashboard/dashboardexecute: container_run.go, dashboard_run.go, leaf_run.go,
    check_run.go, execute.go, dashboard_execution_tree.go).

    A container starts a goroutine for each child and waits, on two buffered channels, until all its
    children are complete.  A child that has done something reports on childComplete, and one whose
    Execute returned an error on errChan.  An execution is a list of actions, in any interleaving.
    What the messages hold is not used, so a channel is the set of the children whose message is in it. */
module Dashboard {

  datatype Status = Ready | Complete | Error

  /** `ready`: a leaf that has a query, or a check; `dependent`: a leaf that waits for inputs, which can fail. */
  datatype Node = Container(children: seq<nat>) | Leaf(ready: bool, dependent: bool)

  /** Node 0 is the dashboard; children come after their parent. */
  datatype Tree = Tree(nodes: seq<Node>, parent: seq<nat>)

  function Children(t: Tree, p: nat): seq<nat> {
    if p < |t.nodes| && t.nodes[p].Container? then t.nodes[p].children else []
  }

  ghost predicate WellFormed(t: Tree) {
    && |t.nodes| == |t.parent| > 0 && t.nodes[0].Container?
    && (forall i :: 0 < i < |t.nodes| ==> t.parent[i] < i && i in Children(t, t.parent[i]))
    && (forall p: nat, k :: 0 <= k < |Children(t, p)| ==>
          p < Children(t, p)[k] < |t.nodes| && t.parent[Children(t, p)[k]] == p)
    && (forall p: nat, j, k :: 0 <= j < k < |Children(t, p)| ==> Children(t, p)[j] != Children(t, p)[k])
  }

  /** Where a node's goroutine is.  Send: its status is set, and it is about to report it; Return: its
      Execute is about to return; `err`: with an error. */
  datatype PC =
    | NotStarted
    | Spawn(k: nat)
    | Scan(k: nat)
    | Wait(k: nat)
    | Exec
    | Send(err: bool)
    | Return(err: bool)
    | Finished(err: bool)

  datatype State = State(
    pcs: seq<PC>, status: seq<Status>, errors: seq<nat>,
    childComplete: seq<set<nat>>, errChan: seq<set<nat>>, runComplete: nat)

  datatype Outcome = DependencyError | Fails | Succeeds

  datatype Action =
    | Start
    | SpawnNext(p: nat)
    | ScanNext(p: nat)
    | ReceiveComplete(p: nat, child: nat)
    | ReceiveError(p: nat, child: nat)
    | Run(i: nat, outcome: Outcome)
    | Report(i: nat)
    | Finish(i: nat)

  /** A container is ready when a child is. */
  function InitialStatus(t: Tree, i: nat): Status
    requires WellFormed(t) && i < |t.nodes|
    decreases |t.nodes| - i
  {
    match t.nodes[i]
    case Leaf(ready, _) => if ready then Ready else Complete
    case Container(children) =>
      if exists k :: 0 <= k < |children| && InitialStatusOfChild(t, i, k) == Ready then Ready else Complete
  }

  function InitialStatusOfChild(t: Tree, p: nat, k: nat): Status
    requires WellFormed(t) && p < |t.nodes| && k < |Children(t, p)|
    decreases |t.nodes| - p, 0
  {
    InitialStatus(t, Children(t, p)[k])
  }

  function Init(t: Tree): State
    requires WellFormed(t)
  {
    var n := |t.nodes|;
    State(seq(n, _ => NotStarted), seq(n, i requires 0 <= i < n => InitialStatus(t, i)), seq(n, _ => 0),
          seq(n, _ => {}), seq(n, _ => {}), 0)
  }

  ghost predicate Shaped(t: Tree, s: State) {
    && WellFormed(t)
    && |t.nodes| == |t.parent| == |s.pcs| == |s.status| == |s.errors| == |s.childComplete| == |s.errChan|
  }

  predicate Terminal(st: Status) {
    st != Ready
  }

  ghost predicate Enabled(t: Tree, s: State, a: Action)
    requires Shaped(t, s)
  {
    match a
    case Start => s.pcs[0].NotStarted?
    case SpawnNext(p) => p < |t.nodes| && s.pcs[p].Spawn? && s.pcs[p].k <= |Children(t, p)|
    case ScanNext(p) => p < |t.nodes| && s.pcs[p].Scan? && s.pcs[p].k <= |Children(t, p)|
    case ReceiveComplete(p, c) => p < |t.nodes| && s.pcs[p].Wait? && c in s.childComplete[p]
    case ReceiveError(p, c) => p < |t.nodes| && s.pcs[p].Wait? && c in s.errChan[p]
    case Run(i, outcome) =>
      i < |t.nodes| && t.nodes[i].Leaf? && s.pcs[i].Exec? && (outcome.DependencyError? ==> t.nodes[i].dependent)
    case Report(i) => i < |t.nodes| && s.pcs[i].Send? && HasRoom(t, s, i)
    case Finish(i) => i < |t.nodes| && s.pcs[i].Return? && (s.pcs[i].err && i > 0 ==> HasErrorRoom(t, s, i))
  }

  /** The channel a node reports on is not full. */
  ghost predicate HasRoom(t: Tree, s: State, i: nat)
    requires Shaped(t, s) && i < |t.nodes|
  {
    if i == 0 then s.runComplete < 1 else |s.childComplete[t.parent[i]]| < |Children(t, t.parent[i])|
  }

  ghost predicate HasErrorRoom(t: Tree, s: State, i: nat)
    requires Shaped(t, s) && 0 < i < |t.nodes|
  {
    |s.errChan[t.parent[i]]| < |Children(t, t.parent[i])|
  }

  function Goto(s: State, i: nat, pc: PC): State
    requires i < |s.pcs|
  {
    s.(pcs := s.pcs[i := pc])
  }

  function Set(s: State, i: nat, st: Status): State
    requires i < |s.status|
  {
    s.(status := s.status[i := st])
  }

  ghost function Apply(t: Tree, s: State, a: Action): (s': State)
    requires Shaped(t, s) && Enabled(t, s, a)
    ensures Shaped(t, s')
  {
    match a
    case Start => Goto(s, 0, if s.status[0] == Complete then Finished(false) else Spawn(0))
    case SpawnNext(p) =>
      var k, children := s.pcs[p].k, Children(t, p);
      if k == |children| then Goto(s, p, Scan(0))
      else Goto(Goto(s, p, Spawn(k + 1)), children[k], if t.nodes[children[k]].Container? then Spawn(0) else Exec)
    case ScanNext(p) =>
      var k, children := s.pcs[p].k, Children(t, p);
      if k == |children| then
        Goto(Set(s, p, if s.errors[p] == 0 then Complete else Error), p, Send(s.errors[p] > 0))
      else Goto(s, p, if Terminal(s.status[children[k]]) then Scan(k + 1) else Wait(k))
    case ReceiveComplete(p, c) =>
      Goto(s, p, Scan(0)).(childComplete := s.childComplete[p := s.childComplete[p] - {c}])
    case ReceiveError(p, c) =>
      Goto(s, p, Scan(0)).(errChan := s.errChan[p := s.errChan[p] - {c}], errors := s.errors[p := s.errors[p] + 1])
    case Run(i, outcome) =>
      if outcome.DependencyError? then Goto(s, i, Return(true))
      else if s.status[i] == Complete then Goto(s, i, Return(false))
      else if outcome.Fails? then Goto(Set(s, i, Error), i, Send(true))
      else Goto(Set(s, i, Complete), i, Send(false))
    case Report(i) =>
      var s' := Goto(s, i, Return(s.pcs[i].err));
      if i == 0 then s'.(runComplete := s.runComplete + 1)
      else s'.(childComplete := s.childComplete[t.parent[i] := s.childComplete[t.parent[i]] + {i}])
    case Finish(i) =>
      var err := s.pcs[i].err;
      if i == 0 then
        (if err && s.status[0] != Error then Goto(Set(s, 0, Error), 0, Send(true)) else Goto(s, 0, Finished(err)))
      else if err then Goto(s, i, Finished(true)).(errChan := s.errChan[t.parent[i] := s.errChan[t.parent[i]] + {i}])
      else Goto(s, i, Finished(false))
  }

  ghost predicate Legal(t: Tree, s: State, actions: seq<Action>)
    requires Shaped(t, s)
    decreases |actions|
  {
    actions == [] || (Enabled(t, s, actions[0]) && Legal(t, Apply(t, s, actions[0]), actions[1..]))
  }

  ghost function After(t: Tree, s: State, actions: seq<Action>): (s': State)
    requires Shaped(t, s) && Legal(t, s, actions)
    ensures Shaped(t, s')
    decreases |actions|
  {
    if actions == [] then s else After(t, Apply(t, s, actions[0]), actions[1..])
  }

  // ---------- The invariant ----------

  predicate Decided(pc: PC) {
    pc.Send? || pc.Return? || pc.Finished?
  }

  /** Execute returns, or has returned, an error. */
  predicate Erred(pc: PC) {
    Decided(pc) && pc.err
  }

  function Child(t: Tree, p: nat, k: nat): (c: nat)
    requires WellFormed(t) && p < |t.nodes| && k < |Children(t, p)|
    ensures p < c < |t.nodes| && t.parent[c] == p
    ensures t.nodes[p].Container?
  {
    Children(t, p)[k]
  }

  predicate IsChild(t: Tree, p: nat, c: int)
    requires WellFormed(t)
  {
    0 < c < |t.nodes| && t.parent[c] == p
  }

  /** The children are started one by one, before anything else. */
  ghost predicate SpawnInv(t: Tree, s: State, p: nat)
    requires Shaped(t, s) && p < |t.nodes|
  {
    match s.pcs[p]
    case NotStarted => forall k :: 0 <= k < |Children(t, p)| ==> s.pcs[Child(t, p, k)].NotStarted?
    case Spawn(n) =>
      n <= |Children(t, p)| && forall k :: 0 <= k < |Children(t, p)| ==> (s.pcs[Child(t, p, k)].NotStarted? <==> k >= n)
    case Scan(n) => n <= |Children(t, p)| && forall k :: 0 <= k < |Children(t, p)| ==>
        !s.pcs[Child(t, p, k)].NotStarted?
    case Wait(n) => n < |Children(t, p)| && forall k :: 0 <= k < |Children(t, p)| ==> !s.pcs[Child(t, p, k)].NotStarted?
    case _ => true
  }

  /** Statuses of a node and of its children. */
  ghost predicate StatusInv(t: Tree, s: State, i: nat)
    requires Shaped(t, s) && i < |t.nodes|
  {
    && (!Decided(s.pcs[i]) ==> s.status[i] != Error && (s.status[i] == Complete ==> s.errors[i] == 0))
    && (s.pcs[i].Send? ==> Terminal(s.status[i]))
    && (t.nodes[i].Container? ==>
          && !s.pcs[i].Exec?
          && (Decided(s.pcs[i]) ==> Terminal(s.status[i]) && (s.pcs[i].err <==> s.status[i] == Error))
          && (Terminal(s.status[i]) ==> forall k :: 0 <= k < |Children(t, i)| ==> Terminal(s.status[Child(t, i, k)]))
          && (s.pcs[i].Scan? ==> forall k :: 0 <= k < s.pcs[i].k && k < |Children(t, i)| ==>
              Terminal(s.status[Child(t, i, k)])))
    && (t.nodes[i].Leaf? ==>
          && !s.pcs[i].Spawn? && !s.pcs[i].Scan? && !s.pcs[i].Wait?
          && (s.status[i] == Ready ==> t.nodes[i].ready)
          && (!Decided(s.pcs[i]) && t.nodes[i].ready ==> s.status[i] == Ready)
          && (Decided(s.pcs[i]) && !Terminal(s.status[i]) ==> t.nodes[i].ready && t.nodes[i].dependent && s.pcs[i].err))
  }

  /** A message in a channel is from a child that has sent it; so no child sends twice. */
  ghost predicate ChannelInv(t: Tree, s: State, p: nat)
    requires Shaped(t, s) && p < |t.nodes|
  {
    && (forall c :: c in s.childComplete[p] ==> IsChild(t, p, c) && (s.pcs[c].Return? || s.pcs[c].Finished?))
    && (forall c :: c in s.errChan[p] ==> IsChild(t, p, c) && s.pcs[c] == Finished(true))
    && (s.errors[p] > 0 ==> exists c :: IsChild(t, p, c) && s.pcs[c] == Finished(true))
    && (Decided(s.pcs[p]) && t.nodes[p].Container? ==> (s.pcs[p].err <==> s.errors[p] > 0))
  }

  /** A waiting container will be woken: the child it found incomplete is so still, or is about to
      report, or has reported. */
  ghost predicate WakeInv(t: Tree, s: State, p: nat)
    requires Shaped(t, s) && p < |t.nodes|
  {
    s.pcs[p].Wait? && s.pcs[p].k < |Children(t, p)| ==>
      var c := Child(t, p, s.pcs[p].k);
      s.status[p] == Ready && (!Terminal(s.status[c]) || s.pcs[c].Send? || c in s.childComplete[p])
  }

  ghost predicate RootInv(t: Tree, s: State)
    requires Shaped(t, s)
  {
    s.runComplete <= 1 && (!s.pcs[0].Return? && !s.pcs[0].Finished? ==> s.runComplete == 0)
  }

  ghost predicate NodeInv(t: Tree, s: State, i: nat)
    requires Shaped(t, s) && i < |t.nodes|
  {
    SpawnInv(t, s, i) && StatusInv(t, s, i) && ChannelInv(t, s, i) && WakeInv(t, s, i)
  }

  ghost predicate Inv(t: Tree, s: State) {
    Shaped(t, s) && RootInv(t, s) && forall i :: 0 <= i < |t.nodes| ==> NodeInv(t, s, i)
  }

  // ---------- The invariant is kept ----------

  /** The node an action moves. */
  function Actor(a: Action): nat {
    match a
    case Start => 0
    case SpawnNext(p) => p
    case ScanNext(p) => p
    case ReceiveComplete(p, _) => p
    case ReceiveError(p, _) => p
    case Run(i, _) => i
    case Report(i) => i
    case Finish(i) => i
  }

  /** The child an action starts. */
  ghost predicate Starts(t: Tree, s: State, a: Action, c: nat)
    requires Shaped(t, s)
  {
    a.SpawnNext? && a.p < |t.nodes| && s.pcs[a.p].Spawn? && s.pcs[a.p].k < |Children(t, a.p)| &&
        c == Child(t, a.p, s.pcs[a.p].k)
  }

  /** A child is started once, by its parent, in its turn. */
  ghost predicate StartsOnce(t: Tree, s: State, a: Action)
    requires Shaped(t, s)
  {
    && (forall c: nat :: Starts(t, s, a, c) ==> s.pcs[c].NotStarted?)
    && (forall c: nat, p: nat, k :: p < |t.nodes| && 0 <= k < |Children(t, p)| && Starts(t, s, a, c) ==>
          (c == Child(t, p, k) <==> p == a.p && k == s.pcs[p].k))
  }

  /** What an action leaves alone. */
  lemma Frame(t: Tree, s: State, a: Action, j: nat)
    requires Shaped(t, s) && Enabled(t, s, a) && j < |t.nodes|
    ensures var s' := Apply(t, s, a);
            && (j != Actor(a) && !Starts(t, s, a, j) ==> s'.pcs[j] == s.pcs[j])
            && (j != Actor(a) ==> s'.status[j] == s.status[j] && s'.errors[j] == s.errors[j])
            && (Starts(t, s, a, j) ==> j > Actor(a) && s'.pcs[j] == if t.nodes[j].Container? then Spawn(0) else Exec)
            && (Terminal(s.status[j]) ==> Terminal(s'.status[j]))
  {
    hide WellFormed, HasRoom, HasErrorRoom;
  }

  lemma SpawnStep(t: Tree, s: State, a: Action, p: nat)
    requires Shaped(t, s) && Enabled(t, s, a) && p < |t.nodes| && NodeInv(t, s, p)
    requires StartsOnce(t, s, a) && Actor(a) < |t.nodes| && NodeInv(t, s, Actor(a))
    ensures SpawnInv(t, Apply(t, s, a), p)
  {
    hide SpawnInv, StatusInv, ChannelInv, WakeInv, WellFormed, HasRoom, HasErrorRoom, Apply, Enabled, Starts;
    var s' := Apply(t, s, a);
    Frame(t, s, a, p);
    StartedBefore(t, s, a, p);
    ChildrenStarted(t, s, a, p);
    if p == Actor(a) {
      ActorSpawn(t, s, a);
    } else {
      OtherSpawn(t, s, a, p);
    }
  }

  lemma StartedBefore(t: Tree, s: State, a: Action, j: nat)
    requires Shaped(t, s) && StartsOnce(t, s, a) && j < |t.nodes|
    ensures Starts(t, s, a, j) ==> s.pcs[j].NotStarted?
  {
  }

  /** Which children of p have not started, after an action. */
  lemma ChildrenStarted(t: Tree, s: State, a: Action, p: nat)
    requires Shaped(t, s) && Enabled(t, s, a) && p < |t.nodes| && StartsOnce(t, s, a)
    ensures forall k :: 0 <= k < |Children(t, p)| ==>
              (Apply(t, s, a).pcs[Child(t, p, k)].NotStarted? <==>
               s.pcs[Child(t, p, k)].NotStarted? && !(a == SpawnNext(p) && s.pcs[p].Spawn? && k == s.pcs[p].k))
  {
    hide WellFormed, HasRoom, HasErrorRoom;
    forall k | 0 <= k < |Children(t, p)|
      ensures Apply(t, s, a).pcs[Child(t, p, k)].NotStarted? <==>
              s.pcs[Child(t, p, k)].NotStarted? && !(a == SpawnNext(p) && s.pcs[p].Spawn? && k == s.pcs[p].k)
    {
      Frame(t, s, a, Child(t, p, k));
      assert Starts(t, s, a, Child(t, p, k)) ==> p == a.p && k == s.pcs[p].k;
      assert a == SpawnNext(p) && s.pcs[p].Spawn? && k == s.pcs[p].k ==> Starts(t, s, a, Child(t, p, k));
    }
  }

  lemma ActorSpawn(t: Tree, s: State, a: Action)
    requires Shaped(t, s) && Enabled(t, s, a) && Actor(a) < |t.nodes| && SpawnInv(t, s, Actor(a))
    requires var p := Actor(a);
             forall k :: 0 <= k < |Children(t, p)| ==>
               (Apply(t, s, a).pcs[Child(t, p, k)].NotStarted? <==>
                s.pcs[Child(t, p, k)].NotStarted? && !(a == SpawnNext(p) && s.pcs[p].Spawn? && k == s.pcs[p].k))
    ensures SpawnInv(t, Apply(t, s, a), Actor(a))
  {
    hide WellFormed, HasRoom, HasErrorRoom, Child;
    if a.SpawnNext? && s.pcs[a.p].k < |Children(t, a.p)| {
      assert Child(t, a.p, s.pcs[a.p].k) == Children(t, a.p)[s.pcs[a.p].k] by { ChildIs(t, a.p, s.pcs[a.p].k); }
    }
  }

  lemma ChildIs(t: Tree, p: nat, k: nat)
    requires WellFormed(t) && p < |t.nodes| && k < |Children(t, p)|
    ensures Child(t, p, k) == Children(t, p)[k]
  {
  }

  lemma OtherSpawn(t: Tree, s: State, a: Action, p: nat)
    requires Shaped(t, s) && Enabled(t, s, a) && p < |t.nodes| && p != Actor(a) && SpawnInv(t, s, p)
    requires Starts(t, s, a, p) ==> s.pcs[p].NotStarted?
    requires forall k :: 0 <= k < |Children(t, p)| ==>
               (Apply(t, s, a).pcs[Child(t, p, k)].NotStarted? <==>
                s.pcs[Child(t, p, k)].NotStarted? && !(a == SpawnNext(p) && s.pcs[p].Spawn? && k == s.pcs[p].k))
    ensures SpawnInv(t, Apply(t, s, a), p)
  {
    hide WellFormed, HasRoom, HasErrorRoom, Child, Apply, Enabled, Starts;
    Frame(t, s, a, p);
  }

  lemma StatusStep(t: Tree, s: State, a: Action, i: nat)
    requires Shaped(t, s) && Enabled(t, s, a) && i < |t.nodes| && NodeInv(t, s, i) && t.nodes[0].Container?
    requires StartsOnce(t, s, a)
    ensures StatusInv(t, Apply(t, s, a), i)
  {
    hide ChannelInv, SpawnInv, WakeInv, StatusInv, WellFormed, HasRoom, HasErrorRoom, Enabled, Apply, Starts, Terminal;
    var s' := Apply(t, s, a);
    forall k | 0 <= k < |Children(t, i)|
      ensures Terminal(s.status[Child(t, i, k)]) ==> Terminal(s'.status[Child(t, i, k)])
    {
      Frame(t, s, a, Child(t, i, k));
    }
    if i == Actor(a) {
      ActorStatus(t, s, a);
    } else {
      Frame(t, s, a, i);
      OtherStatus(t, s, s', i);
    }
  }

  lemma ActorStatus(t: Tree, s: State, a: Action)
    requires Shaped(t, s) && Enabled(t, s, a) && Actor(a) < |t.nodes| && NodeInv(t, s, Actor(a)) &&
             t.nodes[0].Container?
    requires forall k :: 0 <= k < |Children(t, Actor(a))| && Terminal(s.status[Child(t, Actor(a), k)]) ==>
               Terminal(Apply(t, s, a).status[Child(t, Actor(a), k)])
    ensures StatusInv(t, Apply(t, s, a), Actor(a))
  {
    hide ChannelInv, WellFormed, HasRoom, HasErrorRoom;
    Frame(t, s, a, Actor(a));
  }

  /** A node that is only started, or left alone. */
  lemma OtherStatus(t: Tree, s: State, s': State, i: nat)
    requires Shaped(t, s) && Shaped(t, s') && i < |t.nodes| && StatusInv(t, s, i)
    requires s'.status[i] == s.status[i] && s'.errors[i] == s.errors[i]
    requires s'.pcs[i] == s.pcs[i] || (s.pcs[i].NotStarted? && s'.pcs[i] == if t.nodes[i].Container? then Spawn(0)
             else Exec)
    requires forall k :: 0 <= k < |Children(t, i)| && Terminal(s.status[Child(t, i, k)]) ==>
             Terminal(s'.status[Child(t, i, k)])
    ensures StatusInv(t, s', i)
  {
    hide WellFormed, Terminal;
  }

  /** What an action does to the channels of p. */
  lemma ChannelFrame(t: Tree, s: State, a: Action, p: nat)
    requires Shaped(t, s) && Enabled(t, s, a) && p < |t.nodes|
    ensures var s' := Apply(t, s, a);
            && s'.childComplete[p] == (if a.Report? && IsChild(t, p, a.i) then s.childComplete[p] + {a.i}
                                       else if a.ReceiveComplete? && a.p == p then s.childComplete[p] - {a.child}
                                       else s.childComplete[p])
            && s'.errChan[p] == (if a.Finish? && IsChild(t, p, a.i) && s.pcs[a.i].err then s.errChan[p] + {a.i}
                                 else if a.ReceiveError? && a.p == p then s.errChan[p] - {a.child}
                                 else s.errChan[p])
            && s'.errors[p] == s.errors[p] + (if a.ReceiveError? && a.p == p then 1 else 0)
  {
    hide WellFormed, HasRoom, HasErrorRoom;
  }

  lemma SentStays(t: Tree, s: State, a: Action, c: nat)
    requires Shaped(t, s) && Enabled(t, s, a) && 0 < c < |t.nodes|
    requires Starts(t, s, a, c) ==> s.pcs[c].NotStarted?
    ensures var s' := Apply(t, s, a);
            && (s.pcs[c].Finished? ==> s'.pcs[c] == s.pcs[c])
            && (s.pcs[c].Return? || s.pcs[c].Finished? ==> s'.pcs[c].Return? || s'.pcs[c].Finished?)
            && (a == Report(c) ==> s'.pcs[c].Return?)
            && (a == Finish(c) ==> s.pcs[c].Return? && s'.pcs[c] == Finished(s.pcs[c].err))
  {
    hide WellFormed, HasRoom, HasErrorRoom;
    Frame(t, s, a, c);
  }

  lemma DecidesWithErrors(t: Tree, s: State, a: Action, p: nat)
    requires Shaped(t, s) && Enabled(t, s, a) && p < |t.nodes| && NodeInv(t, s, p) && t.nodes[p].Container?
    requires Starts(t, s, a, p) ==> s.pcs[p].NotStarted?
    ensures var s' := Apply(t, s, a); Decided(s'.pcs[p]) ==> (s'.pcs[p].err <==> s'.errors[p] > 0)
  {
    hide WellFormed, HasRoom, HasErrorRoom, SpawnInv, WakeInv;
    Frame(t, s, a, p);
  }

  lemma ChannelStep(t: Tree, s: State, a: Action, p: nat)
    requires Shaped(t, s) && Enabled(t, s, a) && p < |t.nodes| && NodeInv(t, s, p)
    requires StartsOnce(t, s, a)
    ensures ChannelInv(t, Apply(t, s, a), p)
  {
    hide Apply, Enabled, StatusInv, SpawnInv, WakeInv, WellFormed, HasRoom, HasErrorRoom, Starts;
    var s' := Apply(t, s, a);
    ChannelFrame(t, s, a, p);
    if t.nodes[p].Container? {
      DecidesWithErrors(t, s, a, p);
    }
    forall c: nat | IsChild(t, p, c)
      ensures s.pcs[c].Finished? ==> s'.pcs[c] == s.pcs[c]
      ensures s.pcs[c].Return? || s.pcs[c].Finished? ==> s'.pcs[c].Return? || s'.pcs[c].Finished?
      ensures a == Report(c) ==> s'.pcs[c].Return?
      ensures a == Finish(c) ==> s.pcs[c].Return? && s'.pcs[c] == Finished(s.pcs[c].err)
    {
      SentStays(t, s, a, c);
    }
    if s'.errors[p] > 0 {
      var c := if s.errors[p] > 0 then (var c :| IsChild(t, p, c) && s.pcs[c] == Finished(true); c) else a.child;
      assert a == ReceiveError(p, c) ==> c in s.errChan[p] by { Received(t, s, p, c); }
      assert IsChild(t, p, c) && s'.pcs[c] == Finished(true);
    }
  }

  lemma Received(t: Tree, s: State, p: nat, c: nat)
    requires Shaped(t, s)
    ensures Enabled(t, s, ReceiveError(p, c)) ==> p < |t.nodes| && c in s.errChan[p]
  {
  }

  lemma WakeStep(t: Tree, s: State, a: Action, p: nat)
    requires Shaped(t, s) && Enabled(t, s, a) && p < |t.nodes| && NodeInv(t, s, p) && NodeInv(t, s, Actor(a))
    ensures WakeInv(t, Apply(t, s, a), p)
  {
    hide SpawnInv, ChannelInv, WellFormed, InitialStatus, HasRoom, HasErrorRoom;
    var s' := Apply(t, s, a);
    Frame(t, s, a, p);
    if s.pcs[p].Wait? && s.pcs[p].k < |Children(t, p)| {
      var c := Child(t, p, s.pcs[p].k);
      Frame(t, s, a, c);
    }
  }

  lemma ChildrenDiffer(t: Tree, p: nat, j: nat, k: nat)
    requires WellFormed(t) && p < |t.nodes| && j < |Children(t, p)| && k < |Children(t, p)|
    ensures Child(t, p, j) == Child(t, p, k) <==> j == k
  {
  }

  lemma StartsNew(t: Tree, s: State, a: Action)
    requires Inv(t, s) && Enabled(t, s, a)
    ensures StartsOnce(t, s, a)
  {
    hide StatusInv, ChannelInv, WakeInv, WellFormed, HasRoom, HasErrorRoom, RootInv, Child, Children;
    forall c: nat | Starts(t, s, a, c) ensures s.pcs[c].NotStarted? {
      assert NodeInv(t, s, a.p);
    }
    forall c: nat, p: nat, k | p < |t.nodes| && 0 <= k < |Children(t, p)| && Starts(t, s, a, c)
      ensures c == Child(t, p, k) <==> p == a.p && k == s.pcs[p].k
    {
      if c == Child(t, p, k) {
        ChildrenDiffer(t, p, k, s.pcs[p].k);
      }
    }
  }

  lemma RootStep(t: Tree, s: State, a: Action)
    requires Shaped(t, s) && Enabled(t, s, a) && RootInv(t, s) && NodeInv(t, s, 0) && t.nodes[0].Container?
    ensures RootInv(t, Apply(t, s, a))
  {
    hide SpawnInv, ChannelInv, WakeInv, WellFormed, HasErrorRoom;
    Frame(t, s, a, 0);
  }

  lemma InvStep(t: Tree, s: State, a: Action)
    requires Inv(t, s) && Enabled(t, s, a)
    ensures Inv(t, Apply(t, s, a))
  {
    hide Apply, Enabled, NodeInv, RootInv, HasRoom, HasErrorRoom, StartsOnce;
    var s' := Apply(t, s, a);
    assert t.nodes[0].Container?;
    hide WellFormed;
    ActorInRange(t, s, a);
    StartsNew(t, s, a);
    RootStep(t, s, a);
    forall i | 0 <= i < |t.nodes| ensures NodeInv(t, s', i) {
      SpawnStep(t, s, a, i);
      StatusStep(t, s, a, i);
      ChannelStep(t, s, a, i);
      WakeStep(t, s, a, i);
      NodeInvParts(t, s', i);
    }
  }

  lemma NodeInvParts(t: Tree, s: State, i: nat)
    requires Shaped(t, s) && i < |t.nodes|
    ensures NodeInv(t, s, i) <==> SpawnInv(t, s, i) && StatusInv(t, s, i) && ChannelInv(t, s, i) && WakeInv(t, s, i)
  {
    hide SpawnInv, StatusInv, ChannelInv, WakeInv;
  }

  lemma ActorInRange(t: Tree, s: State, a: Action)
    requires Shaped(t, s) && Enabled(t, s, a)
    ensures Actor(a) < |t.nodes| && (Actor(a) > 0 ==> t.parent[Actor(a)] < Actor(a))
  {
  }

  lemma InvInit(t: Tree)
    requires WellFormed(t)
    ensures Inv(t, Init(t))
  {
    var s := Init(t);
    forall i | 0 <= i < |t.nodes| ensures NodeInv(t, s, i) {
      assert s.status[i] == InitialStatus(t, i);
      forall k | 0 <= k < |Children(t, i)|
          ensures InitialStatus(t, i) == Complete ==> s.status[Child(t, i, k)] == Complete {
        assert InitialStatusOfChild(t, i, k) == InitialStatus(t, Child(t, i, k));
      }
    }
  }

  /** Every execution keeps the invariant, whatever the interleaving. */
  lemma {:induction false} InvAlways(t: Tree, s: State, actions: seq<Action>)
    requires Inv(t, s) && Legal(t, s, actions)
    ensures Inv(t, After(t, s, actions))
    decreases |actions|
  {
    hide Inv, Enabled, Apply;
    InvShaped(t, s);
    if actions != [] {
      InvStep(t, s, actions[0]);
      InvAlways(t, Apply(t, s, actions[0]), actions[1..]);
    }
  }

  lemma InvShaped(t: Tree, s: State)
    requires Inv(t, s)
    ensures Shaped(t, s)
  {
  }

  // ---------- Channels ----------

  /** What can be sent on a channel with room for all children, by a child that has not sent yet. */
  lemma RoomForOneMore(t: Tree, p: nat, sent: set<nat>, i: nat)
    requires WellFormed(t) && IsChild(t, p, i) && i !in sent && forall c :: c in sent ==> IsChild(t, p, c)
    ensures |sent| < |Children(t, p)|
  {
    var all := set c | c in Children(t, p);
    assert sent + {i} <= all;
    assert |sent + {i}| == |sent| + 1;
    SubsetSize(sent + {i}, all);
    SeqSetSize(Children(t, p), all);
  }

  lemma {:induction false} SubsetSize(a: set<nat>, b: set<nat>)
    requires a <= b
    ensures |a| <= |b|
    decreases a
  {
    if a != {} {
      var x :| x in a;
      SubsetSize(a - {x}, b - {x});
    }
  }

  lemma {:induction false} SeqSetSize(xs: seq<nat>, all: set<nat>)
    requires forall x :: x in all ==> x in xs
    ensures |all| <= |xs|
  {
    if xs != [] {
      var init, x := xs[..|xs| - 1], xs[|xs| - 1];
      assert xs == init + [x];
      SeqSetSize(init, all - {x});
    } else {
      assert all == {};
    }
  }

  lemma CanSend(t: Tree, s: State, i: nat)
    requires Inv(t, s) && i < |t.nodes|
    ensures s.pcs[i].Send? ==> HasRoom(t, s, i)
    ensures s.pcs[i] == Return(true) && i > 0 ==> HasErrorRoom(t, s, i)
  {
    hide WellFormed, SpawnInv, StatusInv, WakeInv;
    if i > 0 {
      var p := t.parent[i];
      assert p < |t.nodes| by { ParentInRange(t, i); }
      assert NodeInv(t, s, p);
      if s.pcs[i].Send? {
        RoomForOneMore(t, p, s.childComplete[p], i);
      } else if s.pcs[i] == Return(true) {
        RoomForOneMore(t, p, s.errChan[p], i);
      }
    }
  }

  lemma ParentInRange(t: Tree, i: nat)
    requires WellFormed(t) && 0 < i < |t.nodes|
    ensures t.parent[i] < i && t.nodes[t.parent[i]].Container?
    ensures exists k :: 0 <= k < |Children(t, t.parent[i])| && Child(t, t.parent[i], k) == i
  {
    var k :| 0 <= k < |Children(t, t.parent[i])| && Children(t, t.parent[i])[k] == i;
    assert Child(t, t.parent[i], k) == i;
  }

  /** No sender ever blocks: a node about to report, or about to return an error, finds room. */
  lemma SendersNeverBlock(t: Tree, actions: seq<Action>, i: nat)
    requires WellFormed(t) && Legal(t, Init(t), actions) && i < |t.nodes|
    ensures var s := After(t, Init(t), actions);
            && (s.pcs[i].Send? ==> Enabled(t, s, Report(i)))
            && (s.pcs[i].Return? ==> Enabled(t, s, Finish(i)))
  {
    hide Inv, Init, HasRoom, HasErrorRoom;
    InvInit(t);
    InvAlways(t, Init(t), actions);
    CanSend(t, After(t, Init(t), actions), i);
  }

  function ReportsLeft(pc: PC): nat {
    if pc.Return? || pc.Finished? then 0 else 1
  }

  function FinishesLeft(pc: PC): nat {
    if pc.Finished? then 0 else 1
  }

  lemma SendsOnceStep(t: Tree, s: State, a: Action, i: nat)
    requires Inv(t, s) && Enabled(t, s, a) && i < |t.nodes|
    ensures ReportsLeft(Apply(t, s, a).pcs[i]) + (if a == Report(i) then 1 else 0) <= ReportsLeft(s.pcs[i])
    ensures FinishesLeft(Apply(t, s, a).pcs[i]) + (if a == Finish(i) then 1 else 0) <= FinishesLeft(s.pcs[i])
  {
    assert t.nodes[0].Container?;
    hide WellFormed, SpawnInv, ChannelInv, WakeInv, HasRoom, HasErrorRoom, RootInv, Starts;
    StartsNew(t, s, a);
    Frame(t, s, a, i);
    assert NodeInv(t, s, i);
    assert t.nodes[0].Container?;
  }

  lemma {:induction false} SendsOnceFrom(t: Tree, s: State, actions: seq<Action>, i: nat)
    requires Inv(t, s) && Legal(t, s, actions) && i < |t.nodes|
    ensures multiset(actions)[Report(i)] <= ReportsLeft(s.pcs[i])
    ensures multiset(actions)[Finish(i)] <= FinishesLeft(s.pcs[i])
    decreases |actions|
  {
    hide Inv, Enabled, Apply;
    InvShaped(t, s);
    if actions != [] {
      var a, rest := actions[0], actions[1..];
      InvStep(t, s, a);
      SendsOnceStep(t, s, a, i);
      SendsOnceFrom(t, Apply(t, s, a), rest, i);
      assert actions == [a] + rest;
      assert multiset(actions) == multiset{a} + multiset(rest);
    }
  }

  /** A node reports at most once, and returns, with or without an error to send, at most once; so the
      dashboard itself sends at most once on runComplete. */
  lemma SendsAtMostOnce(t: Tree, actions: seq<Action>, i: nat)
    requires WellFormed(t) && Legal(t, Init(t), actions) && i < |t.nodes|
    ensures multiset(actions)[Report(i)] <= 1 && multiset(actions)[Finish(i)] <= 1
    ensures After(t, Init(t), actions).runComplete <= 1
  {
    hide Enabled, Apply, Init, WellFormed, NodeInv;
    InvInit(t);
    SendsOnceFrom(t, Init(t), actions, i);
    InvAlways(t, Init(t), actions);
  }

  /** No wake-up is lost: when a container waits and nothing is in its channels, some child is not
      complete, or is about to report. */
  lemma NoLostWakeUp(t: Tree, actions: seq<Action>, p: nat) returns (k: nat)
    requires WellFormed(t) && Legal(t, Init(t), actions) && p < |t.nodes|
    ensures var s := After(t, Init(t), actions);
            s.pcs[p].Wait? && s.childComplete[p] == {} && s.errChan[p] == {} ==>
              && k < |Children(t, p)|
              && (!Terminal(s.status[Child(t, p, k)]) || s.pcs[Child(t, p, k)].Send?)
  {
    hide Enabled, Apply, Init, WellFormed, StatusInv, ChannelInv, RootInv;
    InvInit(t);
    InvAlways(t, Init(t), actions);
    var s := After(t, Init(t), actions);
    assert NodeInv(t, s, p);
    k := if s.pcs[p].Wait? then s.pcs[p].k else 0;
  }

  // ---------- Statuses ----------

  lemma StatusStays(t: Tree, s: State, a: Action, i: nat)
    requires Inv(t, s) && Enabled(t, s, a) && i < |t.nodes| && Terminal(s.status[i])
    ensures Apply(t, s, a).status[i] == s.status[i]
  {
    assert t.nodes[0].Container?;
    hide WellFormed, SpawnInv, ChannelInv, WakeInv, HasRoom, HasErrorRoom, RootInv;
    Frame(t, s, a, i);
    assert NodeInv(t, s, i);
  }

  /** Once a node is complete or in error, its status never changes. */
  lemma {:induction false} TerminalIsFinal(t: Tree, s: State, actions: seq<Action>, i: nat)
    requires Inv(t, s) && Legal(t, s, actions) && i < |t.nodes| && Terminal(s.status[i])
    ensures After(t, s, actions).status[i] == s.status[i]
    decreases |actions|
  {
    hide Inv, Enabled, Apply;
    InvShaped(t, s);
    if actions != [] {
      InvStep(t, s, actions[0]);
      StatusStays(t, s, actions[0], i);
      TerminalIsFinal(t, Apply(t, s, actions[0]), actions[1..], i);
    }
  }

  lemma {:induction false} TerminalBelow(t: Tree, s: State, i: nat)
    requires Inv(t, s) && i < |t.nodes| && Terminal(s.status[0])
    ensures Terminal(s.status[i])
    decreases i
  {
    hide WellFormed, SpawnInv, ChannelInv, WakeInv, RootInv;
    if i > 0 {
      ParentInRange(t, i);
      TerminalBelow(t, s, t.parent[i]);
      assert NodeInv(t, s, t.parent[i]);
    }
  }

  /** When the dashboard's Execute returns, every node is complete or in error. */
  lemma ReturnedAllTerminal(t: Tree, actions: seq<Action>, i: nat)
    requires WellFormed(t) && Legal(t, Init(t), actions) && i < |t.nodes|
    ensures var s := After(t, Init(t), actions); Decided(s.pcs[0]) ==> Terminal(s.status[i])
  {
    assert t.nodes[0].Container?;
    hide Enabled, Apply, Init, WellFormed, SpawnInv, ChannelInv, WakeInv, RootInv;
    InvInit(t);
    InvAlways(t, Init(t), actions);
    var s := After(t, Init(t), actions);
    assert NodeInv(t, s, 0);
    if Decided(s.pcs[0]) {
      TerminalBelow(t, s, i);
    }
  }

  predicate Descends(t: Tree, i: nat, p: nat)
    requires WellFormed(t) && i < |t.nodes|
  {
    i == p || (i > 0 && Descends(t, t.parent[i], p))
  }

  lemma {:induction false} DescendsTrans(t: Tree, i: nat, q: nat, p: nat)
    requires WellFormed(t) && i < |t.nodes| && q < |t.nodes| && Descends(t, i, q) && Descends(t, q, p)
    ensures Descends(t, i, p)
  {
    if i != q {
      DescendsTrans(t, t.parent[i], q, p);
    }
  }

  lemma {:induction false} ErredBelow(t: Tree, s: State, p: nat) returns (i: nat)
    requires Inv(t, s) && p < |t.nodes| && Erred(s.pcs[p])
    ensures i < |t.nodes| && t.nodes[i].Leaf? && Erred(s.pcs[i]) && Descends(t, i, p)
    decreases |t.nodes| - p
  {
    hide WellFormed, SpawnInv, StatusInv, WakeInv, RootInv;
    if t.nodes[p].Leaf? {
      i := p;
    } else {
      assert NodeInv(t, s, p);
      var c :| IsChild(t, p, c) && s.pcs[c] == Finished(true);
      ParentInRange(t, c);
      i := ErredBelow(t, s, c);
      DescendsTrans(t, i, c, p);
    }
  }

  /** A container ends in error only if the Execute of some leaf or check below it returned an error. */
  lemma ErrorComesFromLeaf(t: Tree, actions: seq<Action>, p: nat) returns (i: nat)
    requires WellFormed(t) && Legal(t, Init(t), actions) && p < |t.nodes|
    requires t.nodes[p].Container? && After(t, Init(t), actions).status[p] == Error
    ensures i < |t.nodes| && t.nodes[i].Leaf? && Erred(After(t, Init(t), actions).pcs[i]) && Descends(t, i, p)
  {
    hide Enabled, Apply, Init, WellFormed, SpawnInv, ChannelInv, WakeInv, RootInv;
    InvInit(t);
    InvAlways(t, Init(t), actions);
    assert NodeInv(t, After(t, Init(t), actions), p);
    i := ErredBelow(t, After(t, Init(t), actions), p);
  }

  /** Some child's error was received by p in an execution. */
  ghost predicate ErrorReceived(actions: seq<Action>, p: nat) {
    exists c :: ReceiveError(p, c) in actions
  }

  lemma ReceivedFirstOrLater(a: Action, rest: seq<Action>, p: nat)
    ensures ErrorReceived([a] + rest, p) <==> (a.ReceiveError? && a.p == p) || ErrorReceived(rest, p)
  {
    if a.ReceiveError? && a.p == p {
      assert ReceiveError(p, a.child) in [a] + rest;
    }
    if ErrorReceived(rest, p) {
      var c :| ReceiveError(p, c) in rest;
      assert ReceiveError(p, c) in [a] + rest;
    }
  }

  lemma {:induction false} ErrorsReceived(t: Tree, s: State, actions: seq<Action>, p: nat)
    requires Inv(t, s) && Legal(t, s, actions) && p < |t.nodes|
    ensures After(t, s, actions).errors[p] > 0 <==> s.errors[p] > 0 || ErrorReceived(actions, p)
    decreases |actions|
  {
    hide Inv, Enabled, Apply, ErrorReceived;
    InvShaped(t, s);
    if actions != [] {
      InvStep(t, s, actions[0]);
      ChannelFrame(t, s, actions[0], p);
      ErrorsReceived(t, Apply(t, s, actions[0]), actions[1..], p);
      ReceivedFirstOrLater(actions[0], actions[1..], p);
      assert actions == [actions[0]] + actions[1..];
    } else {
      NoneReceived(p);
    }
  }

  lemma NoneReceived(p: nat)
    ensures !ErrorReceived([], p)
  {
  }

  /** A container ends in error exactly when it received some child's error before it found all its
      children complete. */
  lemma ErrorShowsIfReceived(t: Tree, actions: seq<Action>, p: nat)
    requires WellFormed(t) && Legal(t, Init(t), actions) && p < |t.nodes| && t.nodes[p].Container?
    ensures var s := After(t, Init(t), actions);
            s.status[p] == Error <==> Decided(s.pcs[p]) && ErrorReceived(actions, p)
  {
    hide Enabled, Apply, WellFormed, SpawnInv, WakeInv, RootInv, ErrorReceived, InitialStatus, Terminal;
    InvInit(t);
    assert Init(t).errors[p] == 0;
    hide Init;
    InvAlways(t, Init(t), actions);
    ErrorsReceived(t, Init(t), actions, p);
    assert NodeInv(t, After(t, Init(t), actions), p);
  }

  // ---------- Work to do ----------

  /** A leaf with work to do, at or below p. */
  ghost predicate WorkBelow(t: Tree, i: nat, p: nat)
    requires WellFormed(t)
  {
    i < |t.nodes| && t.nodes[i].Leaf? && t.nodes[i].ready && Descends(t, i, p)
  }

  /** A node is ready at the start exactly if there is work to do at or below it. */
  lemma {:induction false} ReadyExactly(t: Tree, p: nat)
    requires WellFormed(t) && p < |t.nodes|
    ensures InitialStatus(t, p) == Ready <==> exists i :: WorkBelow(t, i, p)
    decreases |t.nodes| - p
  {
    if t.nodes[p].Leaf? {
      LeavesHaveNothingBelow(t, p);
      if t.nodes[p].ready {
        assert WorkBelow(t, p, p);
      }
    } else {
      forall k | 0 <= k < |Children(t, p)|
        ensures InitialStatusOfChild(t, p, k) == Ready <==> exists i :: WorkBelow(t, i, Child(t, p, k))
      {
        ReadyExactly(t, Child(t, p, k));
      }
      if exists k :: 0 <= k < |Children(t, p)| && InitialStatusOfChild(t, p, k) == Ready {
        var k :| 0 <= k < |Children(t, p)| && InitialStatusOfChild(t, p, k) == Ready;
        var i :| WorkBelow(t, i, Child(t, p, k));
        DescendsTrans(t, i, Child(t, p, k), p);
        assert WorkBelow(t, i, p);
      }
      if exists i :: WorkBelow(t, i, p) {
        var i :| WorkBelow(t, i, p);
        var k := ThroughChild(t, i, p);
        assert WorkBelow(t, i, Child(t, p, k));
        assert InitialStatusOfChild(t, p, k) == Ready;
      }
    }
  }

  lemma {:induction false} ThroughChild(t: Tree, i: nat, p: nat) returns (k: nat)
    requires WellFormed(t) && i < |t.nodes| && p < |t.nodes| && Descends(t, i, p) && i != p
    ensures k < |Children(t, p)| && Descends(t, i, Child(t, p, k))
  {
    ParentInRange(t, i);
    if t.parent[i] == p {
      k :| 0 <= k < |Children(t, p)| && Child(t, p, k) == i;
    } else {
      k := ThroughChild(t, t.parent[i], p);
    }
  }

  lemma LeavesHaveNothingBelow(t: Tree, p: nat)
    requires WellFormed(t) && p < |t.nodes| && t.nodes[p].Leaf?
    ensures forall i :: WorkBelow(t, i, p) ==> i == p
  {
    forall i | WorkBelow(t, i, p) ensures i == p {
      if i != p {
        var k := ThroughChild(t, i, p);
      }
    }
  }

  /** A dashboard without work is done at once: its Execute returns without starting any node. */
  lemma NothingToDo(t: Tree, actions: seq<Action>)
    requires WellFormed(t) && Legal(t, Init(t), actions) && forall i :: !WorkBelow(t, i, 0)
    ensures actions == [] || actions == [Start]
    ensures var s := After(t, Init(t), actions);
            && s.status[0] == Complete && s.runComplete == 0
            && (actions != [] ==> s.pcs[0] == Finished(false))
            && forall i :: 0 < i < |t.nodes| ==> s.pcs[i].NotStarted?
  {
    ReadyExactly(t, 0);
    assert InitialStatus(t, 0) != Ready;
    StatusAtFirst(t, 0);
    if actions != [] {
      var s0 := Init(t);
      assert actions[0] == Start by { OnlyStart(t, s0, actions[0]); }
      assert Apply(t, s0, Start) == Goto(s0, 0, Finished(false));
      if actions[1..] != [] {
        NoneCanMove(t, Goto(s0, 0, Finished(false)), actions[1]);
      }
    }
  }

  /** The dashboard has signalled its end once, or not yet. */
  ghost predicate Signalled(t: Tree, s: State)
    requires Shaped(t, s)
  {
    && s.runComplete == (if s.pcs[0].Return? || s.pcs[0].Finished? then 1 else 0)
    && (s.pcs[0].NotStarted? ==> s.status[0] == Ready)
  }

  lemma SignalledStep(t: Tree, s: State, a: Action)
    requires Inv(t, s) && Enabled(t, s, a) && Signalled(t, s)
    ensures Signalled(t, Apply(t, s, a))
  {
    assert t.nodes[0].Container? && NodeInv(t, s, 0);
    hide WellFormed, NodeInv, RootInv, Apply, Enabled, Starts;
    ActorInRange(t, s, a);
    NodeInvParts(t, s, 0);
    if Actor(a) == 0 {
      SignalledRoot(t, s, a);
    } else {
      Frame(t, s, a, 0);
      SignalledOther(t, s, a);
    }
  }

  lemma SignalledRoot(t: Tree, s: State, a: Action)
    requires Shaped(t, s) && Enabled(t, s, a) && Actor(a) == 0 && t.nodes[0].Container? && StatusInv(t, s, 0)
    requires Signalled(t, s)
    ensures Signalled(t, Apply(t, s, a))
  {
    hide WellFormed, HasRoom, HasErrorRoom, Children;
    ChildIsLater(t, s, a);
  }

  lemma SignalledOther(t: Tree, s: State, a: Action)
    requires Shaped(t, s) && Enabled(t, s, a) && Actor(a) != 0
    ensures Apply(t, s, a).runComplete == s.runComplete
  {
    hide WellFormed, HasRoom, HasErrorRoom, Children, Terminal;
  }

  lemma {:induction false} SignalledAfter(t: Tree, s: State, actions: seq<Action>)
    requires Inv(t, s) && Legal(t, s, actions) && Signalled(t, s)
    ensures Signalled(t, After(t, s, actions))
    decreases |actions|
  {
    hide Inv, Enabled, Apply, Signalled;
    InvShaped(t, s);
    if actions != [] {
      InvStep(t, s, actions[0]);
      SignalledStep(t, s, actions[0]);
      SignalledAfter(t, Apply(t, s, actions[0]), actions[1..]);
    }
  }

  /** A dashboard with work signals its end exactly once, before its Execute returns and not earlier. */
  lemma SignalsItsEnd(t: Tree, actions: seq<Action>, i: nat)
    requires WellFormed(t) && Legal(t, Init(t), actions) && WorkBelow(t, i, 0)
    ensures var s := After(t, Init(t), actions);
            s.runComplete == if s.pcs[0].Return? || s.pcs[0].Finished? then 1 else 0
  {
    ReadyExactly(t, 0);
    NodesExist(t);
    assert Signalled(t, Init(t));
    InvInit(t);
    SignalledAfter(t, Init(t), actions);
  }

  lemma StatusAtFirst(t: Tree, p: nat)
    requires WellFormed(t) && p < |t.nodes|
    ensures InitialStatus(t, p) != Error
  {
  }

  lemma OnlyStart(t: Tree, s: State, a: Action)
    requires Shaped(t, s) && Enabled(t, s, a) && forall i :: 0 <= i < |t.nodes| ==> s.pcs[i].NotStarted?
    ensures a == Start
  {
  }

  lemma NoneCanMove(t: Tree, s: State, a: Action)
    requires Shaped(t, s) && forall i :: 0 <= i < |t.nodes| ==> s.pcs[i].NotStarted? || s.pcs[i].Finished?
    requires s.pcs[0].Finished?
    ensures !Enabled(t, s, a)
  {
  }

  // ---------- Progress and termination ----------

  /** A leaf with work to do, whose wait for its inputs failed: it returns without setting its status. */
  ghost predicate GaveUp(t: Tree, s: State, i: nat)
    requires Shaped(t, s) && i < |t.nodes|
  {
    t.nodes[i].Leaf? && Decided(s.pcs[i]) && s.status[i] == Ready
  }

  /** A node that has started and not finished can move, or some node it waits for can. */
  lemma {:induction false} CanMove(t: Tree, s: State, i: nat) returns (a: Action)
    requires Inv(t, s) && i < |t.nodes| && !s.pcs[i].NotStarted? && !s.pcs[i].Finished?
    requires forall j :: 0 <= j < |t.nodes| ==> !GaveUp(t, s, j)
    ensures Enabled(t, s, a) && Actor(a) < |t.nodes| && Descends(t, Actor(a), i)
    ensures !a.ReceiveError? && (a.Run? ==> a.outcome == Succeeds)
    decreases |t.nodes| - i
  {
    hide WellFormed, HasRoom, HasErrorRoom, RootInv, ChannelInv;
    assert NodeInv(t, s, i);
    CanSend(t, s, i);
    match s.pcs[i]
    case Spawn(_) => a := SpawnNext(i);
    case Scan(_) => a := ScanNext(i);
    case Exec => a := Run(i, Succeeds);
    case Send(_) => a := Report(i);
    case Return(_) => a := Finish(i);
    case Wait(k) =>
      var c := Child(t, i, k);
      if c in s.childComplete[i] {
        a := ReceiveComplete(i, c);
      } else {
        assert NodeInv(t, s, c) && !GaveUp(t, s, c);
        a := CanMove(t, s, c);
        DescendsTrans(t, Actor(a), c, i);
      }
  }

  ghost predicate Over(t: Tree, s: State)
    requires Shaped(t, s)
  {
    forall a :: !Enabled(t, s, a)
  }

  lemma GaveUpStays(t: Tree, s: State, a: Action, i: nat)
    requires Inv(t, s) && Enabled(t, s, a) && i < |t.nodes| && GaveUp(t, s, i)
    ensures GaveUp(t, Apply(t, s, a), i)
  {
    assert t.nodes[0].Container?;
    hide WellFormed, SpawnInv, ChannelInv, WakeInv, HasRoom, HasErrorRoom, RootInv, Starts;
    StartsNew(t, s, a);
    Frame(t, s, a, i);
    assert NodeInv(t, s, i);
  }

  lemma {:induction false} GaveUpForever(t: Tree, s: State, actions: seq<Action>, i: nat)
    requires Inv(t, s) && Legal(t, s, actions) && i < |t.nodes| && GaveUp(t, s, i)
    ensures GaveUp(t, After(t, s, actions), i) && !Decided(After(t, s, actions).pcs[0])
    decreases |actions|
  {
    hide Enabled, Apply, NodeInv, RootInv, WellFormed;
    if actions != [] {
      InvStep(t, s, actions[0]);
      GaveUpStays(t, s, actions[0], i);
      GaveUpForever(t, Apply(t, s, actions[0]), actions[1..], i);
    } else {
      NotDecidedUntilTerminal(t, s, i);
    }
  }

  lemma NotDecidedUntilTerminal(t: Tree, s: State, i: nat)
    requires Inv(t, s) && i < |t.nodes| && s.status[i] == Ready
    ensures !Decided(s.pcs[0])
  {
    assert t.nodes[0].Container? && NodeInv(t, s, 0);
    hide Inv, WellFormed, SpawnInv, ChannelInv, WakeInv, RootInv;
    if Decided(s.pcs[0]) {
      TerminalBelow(t, s, i);
    }
  }

  /** Once a leaf has given up, the dashboard's Execute never returns, whatever follows. */
  lemma GivingUpIsFatal(t: Tree, actions: seq<Action>, more: seq<Action>, i: nat)
    requires WellFormed(t) && Legal(t, Init(t), actions) && i < |t.nodes| && GaveUp(t, After(t, Init(t), actions), i)
    requires Legal(t, After(t, Init(t), actions), more)
    ensures !Decided(After(t, After(t, Init(t), actions), more).pcs[0])
  {
    hide Enabled, Apply, Init, WellFormed, NodeInv, RootInv, GaveUp;
    InvInit(t);
    InvAlways(t, Init(t), actions);
    GaveUpForever(t, After(t, Init(t), actions), more, i);
  }

  lemma GivesUpStep(t: Tree, s: State, a: Action, i: nat)
    requires Inv(t, s) && Enabled(t, s, a) && i < |t.nodes| && t.nodes[i].Leaf?
    ensures GaveUp(t, Apply(t, s, a), i) <==> GaveUp(t, s, i) || (t.nodes[i].ready && a == Run(i, DependencyError))
  {
    if GaveUp(t, s, i) {
      GaveUpStays(t, s, a, i);
    } else {
      assert t.nodes[0].Container?;
      hide WellFormed, SpawnInv, ChannelInv, WakeInv, HasRoom, HasErrorRoom, RootInv, Starts;
      StartsNew(t, s, a);
      Frame(t, s, a, i);
      assert NodeInv(t, s, i);
    }
  }

  lemma {:induction false} GivesUpFrom(t: Tree, s: State, actions: seq<Action>, i: nat)
    requires Inv(t, s) && Legal(t, s, actions) && i < |t.nodes| && t.nodes[i].Leaf?
    ensures GaveUp(t, After(t, s, actions), i) <==>
            GaveUp(t, s, i) || (t.nodes[i].ready && Run(i, DependencyError) in actions)
    decreases |actions|
  {
    hide Inv, Enabled, Apply, GaveUp;
    InvShaped(t, s);
    if actions != [] {
      InvStep(t, s, actions[0]);
      GivesUpStep(t, s, actions[0], i);
      GivesUpFrom(t, Apply(t, s, actions[0]), actions[1..], i);
      assert actions == [actions[0]] + actions[1..];
    }
  }

  /** A leaf has given up exactly when it had work to do and its wait for inputs failed. */
  lemma GivesUpExactly(t: Tree, actions: seq<Action>, i: nat)
    requires WellFormed(t) && Legal(t, Init(t), actions) && i < |t.nodes| && t.nodes[i].Leaf?
    ensures GaveUp(t, After(t, Init(t), actions), i) <==> t.nodes[i].ready && Run(i, DependencyError) in actions
  {
    InvInit(t);
    assert Init(t).pcs[i].NotStarted?;
    hide Inv, Enabled, Apply, Init, WellFormed;
    GivesUpFrom(t, Init(t), actions, i);
  }

  /** What one action does to a leaf. */
  lemma LeafStep(t: Tree, s: State, a: Action, i: nat)
    requires Inv(t, s) && Enabled(t, s, a) && i < |t.nodes| && t.nodes[i].Leaf?
    ensures var s', ready := Apply(t, s, a), t.nodes[i].ready;
            && (s'.status[i] == Error <==> s.status[i] == Error || (ready && a == Run(i, Fails)))
            && (s'.status[i] == Complete <==> s.status[i] == Complete || (ready && a == Run(i, Succeeds)))
            && (Erred(s'.pcs[i]) <==> Erred(s.pcs[i]) || (s.status[i] == Ready && a == Run(i, Fails))
                                      || a == Run(i, DependencyError))
            && (!ready ==> (s.status[i] == Complete ==> s'.status[i] == Complete))
  {
    assert t.nodes[0].Container?;
    hide WellFormed, SpawnInv, StatusInv, ChannelInv, WakeInv, HasRoom, HasErrorRoom, RootInv, Starts, Apply, Enabled;
    StartsNew(t, s, a);
    Frame(t, s, a, i);
    assert NodeInv(t, s, i);
    NodeInvParts(t, s, i);
    if i == Actor(a) {
      LeafActs(t, s, a);
    }
  }

  lemma LeafActs(t: Tree, s: State, a: Action)
    requires Shaped(t, s) && Enabled(t, s, a) && Actor(a) < |t.nodes| && t.nodes[Actor(a)].Leaf?
    requires StatusInv(t, s, Actor(a)) && t.nodes[0].Container?
    ensures var s', i := Apply(t, s, a), Actor(a); var ready := t.nodes[i].ready;
            && (s'.status[i] == Error <==> s.status[i] == Error || (ready && a == Run(i, Fails)))
            && (s'.status[i] == Complete <==> s.status[i] == Complete || (ready && a == Run(i, Succeeds)))
            && (Erred(s'.pcs[i]) <==> Erred(s.pcs[i]) || (s.status[i] == Ready && a == Run(i, Fails))
                                      || a == Run(i, DependencyError))
  {
    hide WellFormed, HasRoom, HasErrorRoom, Children;
    match a
    case Run(_, _) =>
    case Report(_) =>
    case Finish(_) =>
    case _ => assert false;
  }

  lemma {:induction false} LeafFrom(t: Tree, s: State, actions: seq<Action>, i: nat)
    requires Inv(t, s) && Legal(t, s, actions) && i < |t.nodes| && t.nodes[i].Leaf?
    requires t.nodes[i].ready || s.status[i] == Complete
    ensures var s', ready := After(t, s, actions), t.nodes[i].ready;
            && (s'.status[i] == Error <==> s.status[i] == Error || (ready && Run(i, Fails) in actions))
            && (s'.status[i] == Complete <==> s.status[i] == Complete || (ready && Run(i, Succeeds) in actions))
            && (Erred(s'.pcs[i]) <==> Erred(s.pcs[i]) || (ready && Run(i, Fails) in actions)
                                      || Run(i, DependencyError) in actions)
    decreases |actions|
  {
    hide Inv, Enabled, Apply, Erred;
    InvShaped(t, s);
    if actions != [] {
      var s1 := Apply(t, s, actions[0]);
      InvStep(t, s, actions[0]);
      LeafStep(t, s, actions[0], i);
      RunsWhenReady(t, s, actions[0], i);
      LeafFrom(t, s1, actions[1..], i);
      assert actions == [actions[0]] + actions[1..];
    }
  }

  lemma RunsWhenReady(t: Tree, s: State, a: Action, i: nat)
    requires Inv(t, s) && Enabled(t, s, a) && i < |t.nodes| && t.nodes[i].Leaf?
    ensures a.Run? && a.i == i && t.nodes[i].ready ==> s.status[i] == Ready
  {
    hide WellFormed, SpawnInv, ChannelInv, WakeInv, RootInv;
    assert NodeInv(t, s, i);
  }

  /** A leaf ends in error exactly if it had work to do and that failed, complete exactly if it had none or that
      succeeded; and its Execute returns an error exactly if the work or the wait for inputs failed. */
  lemma LeafStatusExactly(t: Tree, actions: seq<Action>, i: nat)
    requires WellFormed(t) && Legal(t, Init(t), actions) && i < |t.nodes| && t.nodes[i].Leaf?
    ensures var s, ready := After(t, Init(t), actions), t.nodes[i].ready;
            && (s.status[i] == Error <==> ready && Run(i, Fails) in actions)
            && (s.status[i] == Complete <==> !ready || Run(i, Succeeds) in actions)
            && (Erred(s.pcs[i]) <==> (ready && Run(i, Fails) in actions) || Run(i, DependencyError) in actions)
  {
    InvInit(t);
    assert Init(t).pcs[i].NotStarted? && Init(t).status[i] == if t.nodes[i].ready then Ready else Complete;
    hide Inv, Enabled, Apply, Init, WellFormed;
    LeafFrom(t, Init(t), actions, i);
  }

  lemma SendsWork(t: Tree, s: State, a: Action, i: nat)
    requires Inv(t, s) && Enabled(t, s, a) && i < |t.nodes| && t.nodes[i].Leaf?
    requires s.pcs[i].Send? ==> t.nodes[i].ready
    ensures Apply(t, s, a).pcs[i].Send? ==> t.nodes[i].ready
    ensures a == Report(i) ==> t.nodes[i].ready
  {
    assert t.nodes[0].Container?;
    hide WellFormed, SpawnInv, ChannelInv, WakeInv, HasRoom, HasErrorRoom, RootInv, Starts, Children;
    assert NodeInv(t, s, i);
    Frame(t, s, a, i);
  }

  lemma {:induction false} ReportsWorkFrom(t: Tree, s: State, actions: seq<Action>, i: nat)
    requires Inv(t, s) && Legal(t, s, actions) && i < |t.nodes| && t.nodes[i].Leaf?
    requires s.pcs[i].Send? ==> t.nodes[i].ready
    ensures Report(i) in actions ==> t.nodes[i].ready
    decreases |actions|
  {
    hide Inv, Enabled, Apply;
    InvShaped(t, s);
    if actions != [] {
      InvStep(t, s, actions[0]);
      SendsWork(t, s, actions[0], i);
      ReportsWorkFrom(t, Apply(t, s, actions[0]), actions[1..], i);
      assert actions == [actions[0]] + actions[1..];
    }
  }

  /** A leaf without work never reports to its parent. */
  lemma OnlyWorkIsReported(t: Tree, actions: seq<Action>, i: nat)
    requires WellFormed(t) && Legal(t, Init(t), actions) && i < |t.nodes| && t.nodes[i].Leaf?
    ensures Report(i) in actions ==> t.nodes[i].ready
  {
    InvInit(t);
    assert Init(t).pcs[i].NotStarted?;
    hide Inv, Enabled, Apply, Init, WellFormed;
    ReportsWorkFrom(t, Init(t), actions, i);
  }

  /** When nothing more can happen, the dashboard's Execute has returned exactly if no leaf with work
      to do failed in its wait for inputs. */
  lemma ReturnsUnlessALeafGaveUp(t: Tree, actions: seq<Action>)
    requires WellFormed(t) && Legal(t, Init(t), actions) && Over(t, After(t, Init(t), actions))
    ensures var s := After(t, Init(t), actions);
            s.pcs[0].Finished? <==> forall j :: 0 <= j < |t.nodes| ==> !GaveUp(t, s, j)
  {
    hide Enabled, Apply, Init, WellFormed, NodeInv, RootInv, InitialStatus, GaveUp;
    InvInit(t);
    InvAlways(t, Init(t), actions);
    var s := After(t, Init(t), actions);
    assert |s.pcs| > 0 by { NodesExist(t); }
    if s.pcs[0].Finished? {
      forall j | 0 <= j < |t.nodes| ensures !GaveUp(t, s, j) {
        ReturnedAllTerminal(t, actions, j);
        GaveUpReady(t, s, j);
      }
    } else if forall j :: 0 <= j < |t.nodes| ==> !GaveUp(t, s, j) {
      if s.pcs[0].NotStarted? {
        CanStart(t, s);
      } else {
        var a := CanMove(t, s, 0);
      }
    }
  }

  lemma GaveUpReady(t: Tree, s: State, j: nat)
    requires Shaped(t, s) && j < |t.nodes|
    ensures GaveUp(t, s, j) ==> !Terminal(s.status[j])
  {
  }

  lemma NodesExist(t: Tree)
    requires WellFormed(t)
    ensures |t.nodes| > 0
  {
  }

  lemma CanStart(t: Tree, s: State)
    requires Shaped(t, s) && s.pcs[0].NotStarted?
    ensures Enabled(t, s, Start)
  {
  }

  /** The weight of a message to p: receiving it, p scans its children again. */
  function Weight(t: Tree, p: nat): nat {
    |Children(t, p)| + 2
  }

  /** The messages a node may still send, weighted. */
  function Unsent(pc: PC, weight: nat): nat {
    if pc.Finished? then 0 else if pc.Return? then weight else weight + weight
  }

  function Position(pc: PC, children: nat): int {
    match pc
    case NotStarted => 8 + children + children
    case Spawn(k) => 6 + children + children - k
    case Scan(k) => 4 + children - k
    case Wait(_) => 3
    case Exec => 3
    case Send(_) => 2
    case Return(_) => 1
    case Finished(_) => 0
  }

  function Weights(n: nat, weight: nat): nat {
    if n == 0 then 0 else Weights(n - 1, weight) + weight
  }

  function Queued(t: Tree, s: State, p: nat): nat
    requires Shaped(t, s) && p < |t.nodes|
  {
    Weights(|s.childComplete[p]| + |s.errChan[p]|, Weight(t, p))
  }

  function Own(t: Tree, s: State, i: nat): int
    requires Shaped(t, s) && i < |t.nodes|
  {
    Position(s.pcs[i], |Children(t, i)|) + if i == 0 then 0 else Unsent(s.pcs[i], Weight(t, t.parent[i]))
  }

  function Rank(t: Tree, s: State, i: nat): int
    requires Shaped(t, s) && i < |t.nodes|
  {
    Own(t, s, i) + Queued(t, s, i)
  }

  function Ranks(t: Tree, s: State): seq<int>
    requires Shaped(t, s)
  {
    seq(|t.nodes|, i requires 0 <= i < |t.nodes| => Rank(t, s, i))
  }

  function Sum(xs: seq<int>, n: nat): int
    requires n <= |xs|
  {
    if n == 0 then 0 else Sum(xs, n - 1) + xs[n - 1]
  }

  function SumRank(t: Tree, s: State): int
    requires Shaped(t, s)
  {
    Sum(Ranks(t, s), |t.nodes|)
  }

  /** Lowering one entry by w + 1 and raising another by w lowers the sum. */
  lemma {:induction false} SumStep(a: seq<int>, b: seq<int>, n: nat, x: nat, y: int, w: nat)
    requires n <= |a| == |b|
    requires forall j :: 0 <= j < |a| ==> b[j] <= a[j] - (if j == x then 1 + w else 0) + (if j == y then w else 0)
    ensures Sum(b, n) <= Sum(a, n) - (if x < n then 1 + w else 0) + (if 0 <= y < n then w else 0)
  {
    if n > 0 {
      SumStep(a, b, n - 1, x, y, w);
    }
  }

  /** The action puts a message in the channels of the actor's parent. */
  predicate Sends(s: State, a: Action) {
    (a.Report? && a.i > 0) || (a.Finish? && 0 < a.i < |s.pcs| && s.pcs[a.i] == Return(true))
  }

  predicate Receives(a: Action) {
    a.ReceiveComplete? || a.ReceiveError?
  }

  lemma QueuedStep(t: Tree, s: State, a: Action, j: nat)
    requires Inv(t, s) && Enabled(t, s, a) && j < |t.nodes| && Actor(a) < |t.nodes|
    ensures Queued(t, Apply(t, s, a), j) <= Queued(t, s, j)
              + (if Sends(s, a) && IsChild(t, j, Actor(a)) then Weight(t, j) else 0)
              - (if Receives(a) && Actor(a) == j then Weight(t, j) else 0)
  {
    hide WellFormed, NodeInv, Weight, HasRoom, HasErrorRoom, RootInv, Apply, Children;
    var s' := Apply(t, s, a);
    ChannelFrame(t, s, a, j);
    var m, m' := |s.childComplete[j]| + |s.errChan[j]|, |s'.childComplete[j]| + |s'.errChan[j]|;
    if Receives(a) && Actor(a) == j {
      assert m' == m - 1;
    } else if Sends(s, a) && IsChild(t, j, Actor(a)) {
      AddOne(s.childComplete[j], Actor(a));
      AddOne(s.errChan[j], Actor(a));
    } else {
      assert m' == m;
    }
  }

  lemma AddOne(xs: set<nat>, x: nat)
    ensures |xs| <= |xs + {x}| <= |xs| + 1
  {
    if x in xs {
      assert xs + {x} == xs;
    }
  }

  lemma ActorRankStep(t: Tree, s: State, a: Action)
    requires Shaped(t, s) && Enabled(t, s, a) && Actor(a) < |t.nodes| && t.nodes[0].Container?
    requires SpawnInv(t, s, Actor(a)) && StatusInv(t, s, Actor(a))
    ensures var i := Actor(a);
            Own(t, Apply(t, s, a), i) <= Own(t, s, i) - 1
              - (if Sends(s, a) && i > 0 then Weight(t, t.parent[i]) else 0) + (if Receives(a) then Weight(t, i) else 0)
  {
    hide WellFormed, HasRoom, HasErrorRoom, Children, Terminal, InitialStatus;
    ChildIsLater(t, s, a);
  }

  lemma ChildIsLater(t: Tree, s: State, a: Action)
    requires Shaped(t, s) && Enabled(t, s, a)
    ensures a.SpawnNext? && s.pcs[a.p].k < |Children(t, a.p)| ==> Children(t, a.p)[s.pcs[a.p].k] != a.p
    ensures forall i: nat :: i < |t.nodes| && t.nodes[i].Leaf? ==> |Children(t, i)| == 0
  {
  }

  lemma OtherRankStep(t: Tree, s: State, a: Action, j: nat)
    requires Shaped(t, s) && Enabled(t, s, a) && j < |t.nodes| && j != Actor(a)
    requires Starts(t, s, a, j) ==> s.pcs[j].NotStarted?
    ensures Own(t, Apply(t, s, a), j) <= Own(t, s, j)
  {
    hide WellFormed, Apply, Enabled, Weight, Starts;
    Frame(t, s, a, j);
  }

  lemma OwnRankStep(t: Tree, s: State, a: Action, j: nat)
    requires Inv(t, s) && Enabled(t, s, a) && j < |t.nodes| && Actor(a) < |t.nodes|
    ensures Own(t, Apply(t, s, a), j) <= Own(t, s, j)
                     - (if j == Actor(a) then 1 else 0)
                     - (if j == Actor(a) && Sends(s, a) && j > 0 then Weight(t, t.parent[j]) else 0)
                     + (if Receives(a) && Actor(a) == j then Weight(t, j) else 0)
  {
    StartsNew(t, s, a);
    assert t.nodes[0].Container?;
    assert NodeInv(t, s, Actor(a));
    hide WellFormed, Own, Apply, Enabled, RootInv, StatusInv, SpawnInv, ChannelInv, WakeInv, Starts, Weight;
    if j == Actor(a) {
      ActorRankStep(t, s, a);
    } else {
      OtherRankStep(t, s, a, j);
    }
  }

  /** The weight of the message an action sends. */
  function Sent(t: Tree, s: State, a: Action): nat
    requires Actor(a) < |t.parent|
  {
    if Sends(s, a) && Actor(a) > 0 then Weight(t, t.parent[Actor(a)]) else 0
  }

  lemma RankStep(t: Tree, s: State, a: Action, j: nat)
    requires Inv(t, s) && Enabled(t, s, a) && j < |t.nodes| && Actor(a) < |t.nodes|
    ensures Rank(t, Apply(t, s, a), j) <= Rank(t, s, j)
              - (if j == Actor(a) then 1 + Sent(t, s, a) else 0)
              + (if Actor(a) > 0 && t.parent[Actor(a)] == j then Sent(t, s, a) else 0)
  {
    InvShaped(t, s);
    hide Inv, Enabled, Apply, WellFormed, Weight, Queued, Own, Sends, Receives;
    OwnRankStep(t, s, a, j);
    QueuedStep(t, s, a, j);
  }

  lemma SumRankStep(t: Tree, s: State, a: Action)
    requires Inv(t, s) && Enabled(t, s, a)
    ensures SumRank(t, Apply(t, s, a)) < SumRank(t, s)
  {
    InvShaped(t, s);
    ActorInRange(t, s, a);
    hide Inv, Enabled, Apply, WellFormed, Rank, Sent, Actor, Sum;
    var s' := Apply(t, s, a);
    var x := Actor(a);
    var y: int := if x > 0 then t.parent[x] else -1;
    forall j | 0 <= j < |t.nodes|
      ensures Rank(t, s', j) <= Rank(t, s, j) - (if j == x then 1 + Sent(t, s, a) else 0) +
              (if j == y then Sent(t, s, a) else 0)
    {
      RankStep(t, s, a, j);
    }
    SumStep(Ranks(t, s), Ranks(t, s'), |t.nodes|, x, y, Sent(t, s, a));
  }

  lemma OwnNotNegative(t: Tree, s: State, j: nat)
    requires Shaped(t, s) && j < |t.nodes| && SpawnInv(t, s, j)
    ensures Own(t, s, j) >= 0
  {
    hide WellFormed, Weight;
  }

  lemma {:induction false} RankNotNegative(t: Tree, s: State, n: nat)
    requires Inv(t, s) && n <= |t.nodes|
    ensures Sum(Ranks(t, s), n) >= 0
  {
    hide WellFormed, SpawnInv, ChannelInv, StatusInv, WakeInv, Queued, Own, RootInv;
    if n > 0 {
      RankNotNegative(t, s, n - 1);
      assert NodeInv(t, s, n - 1);
      OwnNotNegative(t, s, n - 1);
    }
  }

  lemma {:induction false} RankAfter(t: Tree, s: State, actions: seq<Action>)
    requires Inv(t, s) && Legal(t, s, actions)
    ensures SumRank(t, After(t, s, actions)) <= SumRank(t, s) - |actions|
    ensures Inv(t, After(t, s, actions))
    decreases |actions|
  {
    hide Inv, Enabled, Apply, SumRank;
    InvShaped(t, s);
    if actions != [] {
      InvStep(t, s, actions[0]);
      SumRankStep(t, s, actions[0]);
      RankAfter(t, Apply(t, s, actions[0]), actions[1..]);
    }
  }

  /** Every execution is over after a number of steps that depends on the tree only. */
  lemma ExecutionIsFinite(t: Tree, actions: seq<Action>)
    requires WellFormed(t) && Legal(t, Init(t), actions)
    ensures |actions| <= SumRank(t, Init(t))
  {
    hide Inv, Enabled, Apply, Ranks, Sum, Legal, After, Init;
    InvInit(t);
    RankAfter(t, Init(t), actions);
    RankNotNegative(t, After(t, Init(t), actions), |t.nodes|);
  }
}
