/** Starting each plugin once (pluginmanager/plugin_manager.go, getPlugin).

    Any number of goroutines ask for the plugins of connections.  The first to ask for a connection puts
    a placeholder into the map and starts the plugin; the others wait for the placeholder's channel to be
    closed.  What a goroutine does while holding the map's lock is one step.  */
module PluginManager {
  import opened Options

  /** A runningPlugin: the process to reattach to, and whether `initialized` is closed. */
  datatype Entry = Entry(connection: string, reattach: Option<nat>, closed: bool)

  /** Where a getPlugin call is. */
  datatype PC =
    | Called
    | Waiting(entry: nat)
    | Loaded(entry: nat)
    | Removing(entry: nat)
    | Starting
    | Started(process: nat)
    | Returned(process: nat)
    | Failed

  /** `processes`: the connection each process was started for; `starts`: the connections startPlugin was
      entered for; `closes`: the entries whose channel was closed. */
  datatype State = State(
    pcs: seq<PC>, plugins: map<string, nat>, entries: seq<Entry>,
    processes: seq<string>, dead: set<nat>, starts: multiset<string>, closes: multiset<nat>)

  datatype Action =
    | Lookup(t: nat)
    | WaitOver(t: nat)
    | TimeOut(t: nat)
    | CheckProcess(t: nat)
    | Remove(t: nat)
    | StartPlugin(t: nat, ok: bool)
    | StoreClient(t: nat)
    | Die(process: nat)

  /** One call for each of these connections. */
  function Init(calls: seq<string>): State {
    State(seq(|calls|, _ => Called), map[], [], [], {}, multiset{}, multiset{})
  }

  ghost predicate Enabled(calls: seq<string>, s: State, a: Action)
    requires |s.pcs| == |calls|
  {
    match a
    case Lookup(t) => t < |calls| && s.pcs[t].Called?
    case WaitOver(t) => t < |calls| && s.pcs[t].Waiting? && s.pcs[t].entry < |s.entries| &&
        s.entries[s.pcs[t].entry].closed
    case TimeOut(t) => t < |calls| && s.pcs[t].Waiting?
    case CheckProcess(t) => t < |calls| && s.pcs[t].Loaded? && s.pcs[t].entry < |s.entries|
    case Remove(t) => t < |calls| && s.pcs[t].Removing?
    case StartPlugin(t, _) => t < |calls| && s.pcs[t].Starting?
    case StoreClient(t) => t < |calls| && s.pcs[t].Started?
    case Die(p) => p < |s.processes| && p !in s.dead
  }

  function Goto(s: State, t: nat, pc: PC): State
    requires t < |s.pcs|
  {
    s.(pcs := s.pcs[t := pc])
  }

  /** A nil entry, or a channel closed twice, is a panic, which getPlugin turns into an error. */
  ghost function Apply(calls: seq<string>, s: State, a: Action): (s': State)
    requires |s.pcs| == |calls| && Enabled(calls, s, a)
    ensures |s'.pcs| == |calls|
  {
    match a
    case Lookup(t) =>
      if calls[t] in s.plugins then Goto(s, t, Waiting(s.plugins[calls[t]]))
      else Goto(s, t, Starting).(plugins := s.plugins[calls[t] := |s.entries|],
                                 entries := s.entries + [Entry(calls[t], None, false)])
    case WaitOver(t) => Goto(s, t, Loaded(s.pcs[t].entry))
    case TimeOut(t) => Goto(s, t, Failed)
    case CheckProcess(t) =>
      (match s.entries[s.pcs[t].entry].reattach
       case None => Goto(s, t, Failed)
       case Some(p) => Goto(s, t, if p in s.dead then Removing(s.pcs[t].entry) else Returned(p)))
    case Remove(t) => Goto(s, t, Starting).(plugins := s.plugins - {calls[t]})
    case StartPlugin(t, ok) =>
      var s' := s.(starts := s.starts + multiset{calls[t]});
      if ok then Goto(s', t, Started(|s.processes|)).(processes := s.processes + [calls[t]]) else Goto(s', t, Failed)
    case StoreClient(t) =>
      if calls[t] !in s.plugins || s.plugins[calls[t]] >= |s.entries| then Goto(s, t, Failed)
      else
        var e := s.plugins[calls[t]];
        var s' := s.(entries := s.entries[e := s.entries[e].(reattach := Some(s.pcs[t].process))]);
        if s.entries[e].closed then Goto(s', t, Failed)
        else Goto(s', t, Returned(s.pcs[t].process))
             .(entries := s'.entries[e := s'.entries[e].(closed := true)], closes := s.closes + multiset{e})
    case Die(p) => s.(dead := s.dead + {p})
  }

  ghost predicate Legal(calls: seq<string>, s: State, actions: seq<Action>)
    requires |s.pcs| == |calls|
    decreases |actions|
  {
    actions == [] || (Enabled(calls, s, actions[0]) && Legal(calls, Apply(calls, s, actions[0]), actions[1..]))
  }

  ghost function After(calls: seq<string>, s: State, actions: seq<Action>): (s': State)
    requires |s.pcs| == |calls| && Legal(calls, s, actions)
    ensures |s'.pcs| == |calls|
    decreases |actions|
  {
    if actions == [] then s else After(calls, Apply(calls, s, actions[0]), actions[1..])
  }

  // ---------- In every execution ----------

  /** Entries and processes belong to connections. */
  ghost predicate MapsTo(s: State, c: string) {
    c in s.plugins ==> s.plugins[c] < |s.entries| && s.entries[s.plugins[c]].connection == c
  }

  ghost predicate StartedFor(s: State, process: nat, c: string) {
    process < |s.processes| && s.processes[process] == c
  }

  ghost predicate EntryInv(s: State, e: nat) {
    if e >= |s.entries| then s.closes[e] == 0
    else
      && s.closes[e] == (if s.entries[e].closed then 1 else 0)
      && (s.entries[e].closed ==> s.entries[e].reattach.Some?)
      && (s.entries[e].reattach.Some? ==> StartedFor(s, s.entries[e].reattach.value, s.entries[e].connection))
  }

  ghost predicate CallInv(calls: seq<string>, s: State, t: nat)
    requires t < |s.pcs| == |calls|
  {
    match s.pcs[t]
    case Waiting(e) => e < |s.entries| && s.entries[e].connection == calls[t]
    case Loaded(e) => e < |s.entries| && s.entries[e].connection == calls[t] && s.entries[e].closed
    case Removing(e) => e < |s.entries| && s.entries[e].connection == calls[t] && s.entries[e].closed
    case Started(p) => StartedFor(s, p, calls[t])
    case Returned(p) => StartedFor(s, p, calls[t])
    case _ => true
  }

  /** Two processes of a connection take two starts. */
  ghost predicate ProcessInv(s: State, p: nat, q: nat) {
    p < |s.processes| && q < |s.processes| && s.processes[p] == s.processes[q] ==>
      s.starts[s.processes[p]] >= if p == q then 1 else 2
  }

  ghost predicate Inv(calls: seq<string>, s: State) {
    && |s.pcs| == |calls|
    && (forall c :: MapsTo(s, c))
    && (forall e: nat :: EntryInv(s, e))
    && (forall t :: 0 <= t < |calls| ==> CallInv(calls, s, t))
    && (forall p: nat, q: nat :: ProcessInv(s, p, q))
  }

  /** The connection an action is for. */
  function Target(calls: seq<string>, a: Action): string {
    if a.Die? || a.t >= |calls| then "" else calls[a.t]
  }

  lemma MapsStep(calls: seq<string>, s: State, a: Action, c: string)
    requires |s.pcs| == |calls| && Enabled(calls, s, a) && MapsTo(s, c)
    ensures MapsTo(Apply(calls, s, a), c)
  {
  }

  /** Processes and starts only grow, and entries keep their connections and stay closed. */
  lemma Frame(calls: seq<string>, s: State, a: Action)
    requires |s.pcs| == |calls| && Enabled(calls, s, a)
    ensures var s' := Apply(calls, s, a);
            && |s.entries| <= |s'.entries|
            && (forall e :: 0 <= e < |s.entries| ==>
                  s'.entries[e].connection == s.entries[e].connection && (s.entries[e].closed ==> s'.entries[e].closed))
            && s.processes <= s'.processes
            && (forall t :: 0 <= t < |calls| && (a.Die? || t != a.t) ==> s'.pcs[t] == s.pcs[t])
  {
  }

  lemma EntryStep(calls: seq<string>, s: State, a: Action, e: nat)
    requires |s.pcs| == |calls| && Enabled(calls, s, a) && EntryInv(s, e)
    requires MapsTo(s, Target(calls, a)) && (!a.Die? ==> CallInv(calls, s, a.t))
    ensures EntryInv(Apply(calls, s, a), e)
  {
  }

  lemma CallStep(calls: seq<string>, s: State, a: Action, t: nat)
    requires |s.pcs| == |calls| && Enabled(calls, s, a) && t < |calls| && CallInv(calls, s, t)
    requires MapsTo(s, Target(calls, a)) && (!a.Die? && s.pcs[a.t].Loaded? ==> EntryInv(s, s.pcs[a.t].entry))
    ensures CallInv(calls, Apply(calls, s, a), t)
  {
    Frame(calls, s, a);
  }

  lemma ProcessStep(calls: seq<string>, s: State, a: Action, p: nat, q: nat)
    requires |s.pcs| == |calls| && Enabled(calls, s, a)
    requires ProcessInv(s, p, q) && ProcessInv(s, p, p) && ProcessInv(s, q, q)
    ensures ProcessInv(Apply(calls, s, a), p, q)
  {
  }

  lemma InvStep(calls: seq<string>, s: State, a: Action)
    requires Inv(calls, s) && Enabled(calls, s, a)
    ensures Inv(calls, Apply(calls, s, a))
  {
    assert !a.Die? ==> a.t < |calls| && CallInv(calls, s, a.t);
    hide MapsTo, EntryInv, CallInv, ProcessInv, Apply, Enabled;
    var s' := Apply(calls, s, a);
    assert MapsTo(s, Target(calls, a));
    forall c ensures MapsTo(s', c) {
      assert MapsTo(s, c);
      MapsStep(calls, s, a, c);
    }
    forall e: nat ensures EntryInv(s', e) {
      assert EntryInv(s, e);
      EntryStep(calls, s, a, e);
    }
    forall t | 0 <= t < |calls| ensures CallInv(calls, s', t) {
      assert CallInv(calls, s, t);
      CallStep(calls, s, a, t);
    }
    forall p: nat, q: nat ensures ProcessInv(s', p, q) {
      assert ProcessInv(s, p, q) && ProcessInv(s, p, p) && ProcessInv(s, q, q);
      ProcessStep(calls, s, a, p, q);
    }
  }

  lemma InvInit(calls: seq<string>)
    ensures Inv(calls, Init(calls))
  {
  }

  lemma {:induction false} InvAlways(calls: seq<string>, s: State, actions: seq<Action>)
    requires Inv(calls, s) && Legal(calls, s, actions)
    ensures Inv(calls, After(calls, s, actions))
    decreases |actions|
  {
    hide Enabled, Apply;
    if actions != [] {
      InvStep(calls, s, actions[0]);
      InvAlways(calls, Apply(calls, s, actions[0]), actions[1..]);
    }
  }

  /** A channel is closed at most once, and only with a process to reattach to; a call that succeeds returns
      a process started for its connection. */
  lemma ClosedOnce(calls: seq<string>, actions: seq<Action>, e: nat, t: nat)
    requires Legal(calls, Init(calls), actions) && t < |calls|
    ensures var s := After(calls, Init(calls), actions);
            && s.closes[e] <= 1
            && (s.closes[e] == 1 <==> e < |s.entries| && s.entries[e].closed)
            && (s.closes[e] == 1 ==> s.entries[e].reattach.Some?)
            && (s.pcs[t].Returned? ==> StartedFor(s, s.pcs[t].process, calls[t]) && s.starts[calls[t]] >= 1)
  {
    hide Enabled, Apply;
    InvInit(calls);
    InvAlways(calls, Init(calls), actions);
    var s := After(calls, Init(calls), actions);
    assert EntryInv(s, e) && CallInv(calls, s, t);
    if s.pcs[t].Returned? {
      assert ProcessInv(s, s.pcs[t].process, s.pcs[t].process);
    }
  }

  /** When the plugin was started once, all calls for the connection that succeed return that process. */
  lemma SuccessesAgree(calls: seq<string>, actions: seq<Action>, t: nat, u: nat)
    requires Legal(calls, Init(calls), actions) && t < |calls| && u < |calls| && calls[t] == calls[u]
    ensures var s := After(calls, Init(calls), actions);
            s.pcs[t].Returned? && s.pcs[u].Returned? && s.starts[calls[t]] <= 1 ==> s.pcs[t] == s.pcs[u]
  {
    hide Enabled, Apply;
    InvInit(calls);
    InvAlways(calls, Init(calls), actions);
    var s := After(calls, Init(calls), actions);
    assert CallInv(calls, s, t) && CallInv(calls, s, u);
    if s.pcs[t].Returned? && s.pcs[u].Returned? {
      assert ProcessInv(s, s.pcs[t].process, s.pcs[u].process);
    }
  }

  // ---------- Until an entry of a connection is removed ----------

  predicate Owns(pc: PC) {
    pc.Starting? || pc.Started?
  }

  predicate IsRemove(calls: seq<string>, a: Action, c: string) {
    a.Remove? && a.t < |calls| && calls[a.t] == c
  }

  predicate IsStart(calls: seq<string>, a: Action, c: string) {
    a.StartPlugin? && a.t < |calls| && calls[a.t] == c
  }

  ghost predicate EntryOnce(s: State, c: string, e: nat) {
    e < |s.entries| && s.entries[e].connection == c ==>
      c in s.plugins && s.plugins[c] == e && (s.entries[e].closed ==> s.starts[c] == 1)
  }

  /** A call that starts the plugin does so for an entry that is not loaded. */
  ghost predicate OwnerOnce(calls: seq<string>, s: State, c: string, t: nat)
    requires t < |s.pcs| == |calls|
  {
    calls[t] == c && Owns(s.pcs[t]) ==>
      && c in s.plugins && s.plugins[c] < |s.entries| && !s.entries[s.plugins[c]].closed
      && s.starts[c] == if s.pcs[t].Started? then 1 else 0
  }

  /** The plugin is started by one call only. */
  ghost predicate OneOwner(calls: seq<string>, s: State, c: string, t: nat, u: nat)
    requires |s.pcs| == |calls| && t < |calls| && u < |calls|
  {
    t != u && calls[t] == c == calls[u] ==> !Owns(s.pcs[t]) || !Owns(s.pcs[u])
  }

  ghost predicate OnceInv(calls: seq<string>, s: State, c: string) {
    && Inv(calls, s)
    && s.starts[c] <= 1 && (s.starts[c] == 1 ==> c in s.plugins)
    && (forall e: nat :: EntryOnce(s, c, e))
    && (forall t :: 0 <= t < |calls| ==> OwnerOnce(calls, s, c, t))
    && (forall t, u :: 0 <= t < |calls| && 0 <= u < |calls| ==> OneOwner(calls, s, c, t, u))
  }

  lemma StartsOnceStep(calls: seq<string>, s: State, a: Action, c: string)
    requires OnceInv(calls, s, c) && Enabled(calls, s, a) && !IsRemove(calls, a, c)
    ensures var s' := Apply(calls, s, a); s'.starts[c] <= 1 && (s'.starts[c] == 1 ==> c in s'.plugins)
  {
    assert !a.Die? ==> OwnerOnce(calls, s, c, a.t);
    hide Inv, EntryOnce, OneOwner;
  }

  lemma EntryOnceStep(calls: seq<string>, s: State, a: Action, c: string, e: nat)
    requires |s.pcs| == |calls| && Enabled(calls, s, a) && !IsRemove(calls, a, c)
    requires EntryOnce(s, c, e) && MapsTo(s, c) && MapsTo(s, Target(calls, a)) &&
             (!a.Die? ==> OwnerOnce(calls, s, c, a.t))
    requires c !in s.plugins ==> forall d :: 0 <= d < |s.entries| ==> s.entries[d].connection != c
    ensures EntryOnce(Apply(calls, s, a), c, e)
  {
  }

  lemma OwnerOnceStep(calls: seq<string>, s: State, a: Action, c: string, t: nat)
    requires |s.pcs| == |calls| && Enabled(calls, s, a) && !IsRemove(calls, a, c) && t < |calls|
    requires OwnerOnce(calls, s, c, t) && (!a.Die? ==> OwnerOnce(calls, s, c, a.t) && OneOwner(calls, s, c, a.t, t))
    requires MapsTo(s, c) && MapsTo(s, Target(calls, a)) && (c !in s.plugins ==> s.starts[c] == 0)
    ensures OwnerOnce(calls, Apply(calls, s, a), c, t)
  {
  }

  lemma OneOwnerStep(calls: seq<string>, s: State, a: Action, c: string, t: nat, u: nat)
    requires |s.pcs| == |calls| && Enabled(calls, s, a) && !IsRemove(calls, a, c) && t < |calls| && u < |calls|
    requires OneOwner(calls, s, c, t, u) && OwnerOnce(calls, s, c, t) && OwnerOnce(calls, s, c, u)
    ensures OneOwner(calls, Apply(calls, s, a), c, t, u)
  {
  }

  lemma OnceStep(calls: seq<string>, s: State, a: Action, c: string)
    requires OnceInv(calls, s, c) && Enabled(calls, s, a) && !IsRemove(calls, a, c)
    ensures OnceInv(calls, Apply(calls, s, a), c)
  {
    var s' := Apply(calls, s, a);
    InvStep(calls, s, a);
    StartsOnceStep(calls, s, a, c);
    assert MapsTo(s, c) && MapsTo(s, Target(calls, a));
    assert !a.Die? ==> a.t < |calls| && OwnerOnce(calls, s, c, a.t);
    if c !in s.plugins {
      forall d: nat | d < |s.entries| ensures s.entries[d].connection != c {
        assert EntryOnce(s, c, d);
      }
    }
    hide Inv, MapsTo, EntryOnce, OwnerOnce, OneOwner, Apply, Enabled;
    forall e: nat ensures EntryOnce(s', c, e) {
      assert EntryOnce(s, c, e);
      EntryOnceStep(calls, s, a, c, e);
    }
    forall t | 0 <= t < |calls| ensures OwnerOnce(calls, s', c, t) {
      assert OwnerOnce(calls, s, c, t) && (!a.Die? ==> OneOwner(calls, s, c, a.t, t));
      OwnerOnceStep(calls, s, a, c, t);
    }
    forall t, u | 0 <= t < |calls| && 0 <= u < |calls| ensures OneOwner(calls, s', c, t, u) {
      assert OneOwner(calls, s, c, t, u) && OwnerOnce(calls, s, c, t) && OwnerOnce(calls, s, c, u);
      OneOwnerStep(calls, s, a, c, t, u);
    }
  }

  lemma OnceInit(calls: seq<string>, c: string)
    ensures OnceInv(calls, Init(calls), c)
  {
  }

  // ---------- When a plugin is started once ----------

  /** Starts of c in an execution. */
  function Starts(calls: seq<string>, actions: seq<Action>, c: string): nat {
    if actions == [] then 0 else (if IsStart(calls, actions[0], c) then 1 else 0) + Starts(calls, actions[1..], c)
  }

  lemma {:induction false} StartsCounted(calls: seq<string>, s: State, actions: seq<Action>, c: string)
    requires |s.pcs| == |calls| && Legal(calls, s, actions)
    ensures After(calls, s, actions).starts[c] == s.starts[c] + Starts(calls, actions, c)
    decreases |actions|
  {
    if actions != [] {
      StartsCounted(calls, Apply(calls, s, actions[0]), actions[1..], c);
    }
  }

  lemma {:induction false} StartsSome(calls: seq<string>, actions: seq<Action>, c: string)
    ensures Starts(calls, actions, c) == 0 <==> forall j :: 0 <= j < |actions| ==> !IsStart(calls, actions[j], c)
  {
    hide IsStart;
    if actions != [] {
      var rest := actions[1..];
      StartsSome(calls, rest, c);
      assert forall j :: 0 < j < |actions| ==> actions[j] == rest[j - 1];
      assert forall j :: 0 <= j < |rest| ==> rest[j] == actions[j + 1];
    }
  }

  /** The plugin of c is started after an entry of c was removed, its process found dead. */
  ghost predicate StartAfterRemove(calls: seq<string>, actions: seq<Action>, c: string) {
    exists i, j :: 0 <= i < j < |actions| && IsRemove(calls, actions[i], c) && IsStart(calls, actions[j], c)
  }

  lemma StartAfterFirst(calls: seq<string>, a: Action, rest: seq<Action>, c: string)
    ensures StartAfterRemove(calls, [a] + rest, c) <==>
            (IsRemove(calls, a, c) && Starts(calls, rest, c) > 0) || StartAfterRemove(calls, rest, c)
  {
    hide IsRemove, IsStart;
    var actions := [a] + rest;
    StartsSome(calls, rest, c);
    if StartAfterRemove(calls, actions, c) {
      var i, j :| 0 <= i < j < |actions| && IsRemove(calls, actions[i], c) && IsStart(calls, actions[j], c);
      assert actions[j] == rest[j - 1];
      if i > 0 {
        assert actions[i] == rest[i - 1];
      }
    }
    if StartAfterRemove(calls, rest, c) {
      var i, j :| 0 <= i < j < |rest| && IsRemove(calls, rest[i], c) && IsStart(calls, rest[j], c);
      assert actions[i + 1] == rest[i] && actions[j + 1] == rest[j];
    }
    if IsRemove(calls, a, c) && Starts(calls, rest, c) > 0 {
      var j :| 0 <= j < |rest| && IsStart(calls, rest[j], c);
      assert actions[0] == a && actions[j + 1] == rest[j];
    }
  }

  lemma RemoveWasStarted(calls: seq<string>, s: State, a: Action, c: string)
    requires OnceInv(calls, s, c) && Enabled(calls, s, a) && IsRemove(calls, a, c)
    ensures s.starts[c] == 1
  {
    assert CallInv(calls, s, a.t) && EntryOnce(s, c, s.pcs[a.t].entry);
    hide Inv, OnceInv;
  }

  lemma {:induction false} StartedOnceFrom(calls: seq<string>, s: State, actions: seq<Action>, c: string)
    requires OnceInv(calls, s, c) && Legal(calls, s, actions)
    ensures After(calls, s, actions).starts[c] <= 1 <==> !StartAfterRemove(calls, actions, c)
    decreases |actions|
  {
    if actions != [] {
      var a, rest := actions[0], actions[1..];
      assert actions == [a] + rest;
      StartAfterFirst(calls, a, rest, c);
      hide Enabled, Apply, StartAfterRemove;
      if IsRemove(calls, a, c) {
        RemoveWasStarted(calls, s, a, c);
        StartsCounted(calls, s, actions, c);
        if StartAfterRemove(calls, rest, c) {
          StartsAfterRemove(calls, rest, c);
        }
      } else {
        OnceStep(calls, s, a, c);
        StartedOnceFrom(calls, Apply(calls, s, a), rest, c);
      }
    }
  }

  lemma StartsAfterRemove(calls: seq<string>, actions: seq<Action>, c: string)
    requires StartAfterRemove(calls, actions, c)
    ensures Starts(calls, actions, c) > 0
  {
    StartsSome(calls, actions, c);
  }

  /** A connection's plugin is started at most once, exactly unless it is started after a call found its
      process dead and removed its entry.  Processes that die unnoticed make no difference. */
  lemma StartedOnceExactly(calls: seq<string>, actions: seq<Action>, c: string)
    requires Legal(calls, Init(calls), actions)
    ensures After(calls, Init(calls), actions).starts[c] <= 1 <==> !StartAfterRemove(calls, actions, c)
  {
    OnceInit(calls, c);
    StartedOnceFrom(calls, Init(calls), actions, c);
  }

  /** As long as it is not, all calls for the connection that succeed return one process. */
  lemma OneProcess(calls: seq<string>, actions: seq<Action>, t: nat, u: nat)
    requires Legal(calls, Init(calls), actions) && t < |calls| && u < |calls| && calls[t] == calls[u]
    requires !StartAfterRemove(calls, actions, calls[t])
    ensures var s := After(calls, Init(calls), actions);
            s.pcs[t].Returned? && s.pcs[u].Returned? ==> s.pcs[t] == s.pcs[u]
  {
    StartedOnceExactly(calls, actions, calls[t]);
    SuccessesAgree(calls, actions, t, u);
  }

  // ---------- When a call fails, and when it succeeds ----------

  /** What the map has for a connection. */
  datatype Slot = NoEntry | Loading | Ready

  ghost function SlotOf(s: State, c: string): Slot
    requires MapsTo(s, c)
  {
    if c !in s.plugins then NoEntry else if s.entries[s.plugins[c]].closed then Ready else Loading
  }

  /** The slot of c after an action: the first lookup makes a placeholder, storing the client in it loads it, and
      a removal empties the slot. */
  function SlotStep(calls: seq<string>, slot: Slot, a: Action, c: string): Slot {
    if Target(calls, a) != c then slot
    else
      match a
      case Lookup(_) => if slot.NoEntry? then Loading else slot
      case StoreClient(_) => if slot.Loading? then Ready else slot
      case Remove(_) => NoEntry
      case _ => slot
  }

  lemma SlotFollows(calls: seq<string>, s: State, a: Action, c: string)
    requires |s.pcs| == |calls| && Enabled(calls, s, a) && MapsTo(s, c) && MapsTo(s, Target(calls, a))
    ensures MapsTo(Apply(calls, s, a), c) && SlotOf(Apply(calls, s, a), c) == SlotStep(calls, SlotOf(s, c), a, c)
  {
  }

  /** One of the actions makes call t fail: it times out, its plugin does not start, or there is no placeholder
      to store its client in. */
  predicate Fails(calls: seq<string>, slot: Slot, actions: seq<Action>, t: nat)
    requires t < |calls|
    decreases |actions|
  {
    actions != [] &&
    (|| actions[0] == TimeOut(t)
     || actions[0] == StartPlugin(t, false)
     || (actions[0] == StoreClient(t) && !slot.Loading?)
     || Fails(calls, SlotStep(calls, slot, actions[0], calls[t]), actions[1..], t))
  }

  lemma FailStep(calls: seq<string>, s: State, a: Action, t: nat)
    requires |s.pcs| == |calls| && Enabled(calls, s, a) && t < |calls| && MapsTo(s, calls[t]) && CallInv(calls, s, t)
    requires s.pcs[t].Loaded? ==> EntryInv(s, s.pcs[t].entry)
    ensures Apply(calls, s, a).pcs[t].Failed? <==>
            s.pcs[t].Failed? || a == TimeOut(t) || a == StartPlugin(t, false)
            || (a == StoreClient(t) && !SlotOf(s, calls[t]).Loading?)
  {
  }

  lemma {:induction false} FailsFrom(calls: seq<string>, s: State, actions: seq<Action>, t: nat)
    requires Inv(calls, s) && Legal(calls, s, actions) && t < |calls| && MapsTo(s, calls[t])
    ensures After(calls, s, actions).pcs[t].Failed? <==>
            s.pcs[t].Failed? || Fails(calls, SlotOf(s, calls[t]), actions, t)
    decreases |actions|
  {
    if actions != [] {
      var a := actions[0];
      assert MapsTo(s, Target(calls, a)) && CallInv(calls, s, t);
      assert s.pcs[t].Loaded? ==> EntryInv(s, s.pcs[t].entry);
      hide Enabled, Apply, MapsTo, EntryInv, CallInv, SlotOf, SlotStep, Target;
      InvStep(calls, s, a);
      SlotFollows(calls, s, a, calls[t]);
      FailStep(calls, s, a, t);
      FailsFrom(calls, Apply(calls, s, a), actions[1..], t);
    }
  }

  /** In every execution a call has failed exactly if it timed out, its plugin did not start, or it came to
      store its client when the map had no placeholder for it. */
  lemma FailsExactly(calls: seq<string>, actions: seq<Action>, t: nat)
    requires Legal(calls, Init(calls), actions) && t < |calls|
    ensures After(calls, Init(calls), actions).pcs[t].Failed? <==> Fails(calls, NoEntry, actions, t)
  {
    InvInit(calls);
    FailsFrom(calls, Init(calls), actions, t);
  }

  ghost predicate NoRemove(calls: seq<string>, actions: seq<Action>, c: string) {
    forall i :: 0 <= i < |actions| ==> !IsRemove(calls, actions[i], c)
  }

  lemma {:induction false} FailsWithoutRemove(calls: seq<string>, s: State, actions: seq<Action>, t: nat)
    requires t < |calls| && OnceInv(calls, s, calls[t]) && Legal(calls, s, actions)
    requires NoRemove(calls, actions, calls[t])
    ensures After(calls, s, actions).pcs[t].Failed? <==>
            s.pcs[t].Failed? || TimeOut(t) in actions || StartPlugin(t, false) in actions
    decreases |actions|
  {
    if actions != [] {
      var a := actions[0];
      assert MapsTo(s, calls[t]) && CallInv(calls, s, t) && OwnerOnce(calls, s, calls[t], t);
      assert s.pcs[t].Loaded? ==> EntryInv(s, s.pcs[t].entry);
      assert !IsRemove(calls, a, calls[t]) && actions == [a] + actions[1..];
      FailStep(calls, s, a, t);
      assert a == StoreClient(t) ==> s.pcs[t].Started? && SlotOf(s, calls[t]).Loading?;
      hide Enabled, Apply, MapsTo, EntryInv, CallInv, SlotOf, Inv, OnceInv, IsRemove, OwnerOnce;
      OnceStep(calls, s, a, calls[t]);
      FailsWithoutRemove(calls, Apply(calls, s, a), actions[1..], t);
    }
  }

  /** A placeholder is being loaded by some call. */
  ghost predicate LoadingOwned(calls: seq<string>, s: State, c: string)
    requires |s.pcs| == |calls|
  {
    c in s.plugins && s.plugins[c] < |s.entries| && !s.entries[s.plugins[c]].closed ==>
      exists u :: 0 <= u < |calls| && calls[u] == c && Owns(s.pcs[u])
  }

  ghost predicate StartFailed(calls: seq<string>, actions: seq<Action>, c: string) {
    exists u :: 0 <= u < |calls| && calls[u] == c && StartPlugin(u, false) in actions
  }

  lemma LoadingOwnedStep(calls: seq<string>, s: State, a: Action, c: string)
    requires |s.pcs| == |calls| && Enabled(calls, s, a) && LoadingOwned(calls, s, c)
    requires MapsTo(s, c) && MapsTo(s, Target(calls, a)) && !IsRemove(calls, a, c)
    requires !(a.StartPlugin? && !a.ok && calls[a.t] == c)
    ensures LoadingOwned(calls, Apply(calls, s, a), c)
  {
    var s' := Apply(calls, s, a);
    if c in s.plugins && !s.entries[s.plugins[c]].closed {
      var u :| 0 <= u < |calls| && calls[u] == c && Owns(s.pcs[u]);
      assert Owns(s'.pcs[u]) || (a == StoreClient(u) && s'.entries[s'.plugins[c]].closed);
    } else if a.Lookup? && calls[a.t] == c {
      assert c !in s.plugins ==> Owns(s'.pcs[a.t]);
    }
  }

  lemma NotTheFailedStart(calls: seq<string>, actions: seq<Action>, a: Action, c: string)
    requires a in actions && !StartFailed(calls, actions, c) && (a.StartPlugin? ==> a.t < |calls|)
    ensures a.StartPlugin? && calls[a.t] == c ==> a.ok
  {
    if a.StartPlugin? && !a.ok {
      assert a == StartPlugin(a.t, false);
    }
  }

  lemma {:induction false} LoadingOwnedAfter(calls: seq<string>, s: State, actions: seq<Action>, c: string)
    requires Inv(calls, s) && Legal(calls, s, actions) && LoadingOwned(calls, s, c)
    requires NoRemove(calls, actions, c) && !StartFailed(calls, actions, c)
    ensures LoadingOwned(calls, After(calls, s, actions), c)
    decreases |actions|
  {
    if actions != [] {
      var a := actions[0];
      assert MapsTo(s, c) && MapsTo(s, Target(calls, a));
      assert a in actions;
      assert !(a.StartPlugin? && !a.ok && calls[a.t] == c) by { NotTheFailedStart(calls, actions, a, c); }
      LoadingOwnedStep(calls, s, a, c);
      hide Enabled, Apply, Inv, LoadingOwned, IsRemove;
      InvStep(calls, s, a);
      assert forall x :: x in actions[1..] ==> x in actions;
      LoadingOwnedAfter(calls, Apply(calls, s, a), actions[1..], c);
    }
  }

  /** Nothing but a time-out, or the death of a process, can happen any more. */
  ghost predicate AtRest(calls: seq<string>, s: State)
    requires |s.pcs| == |calls|
  {
    forall a :: Enabled(calls, s, a) ==> a.TimeOut? || a.Die?
  }

  /** The call waits for a channel that is not closed. */
  ghost predicate Blocked(s: State, pc: PC) {
    pc.Waiting? && pc.entry < |s.entries| && !s.entries[pc.entry].closed
  }

  lemma CallCanMove(calls: seq<string>, s: State, t: nat) returns (a: Action)
    requires |s.pcs| == |calls| && t < |calls| && CallInv(calls, s, t)
    requires !s.pcs[t].Failed? && !s.pcs[t].Returned? && !Blocked(s, s.pcs[t])
    ensures Enabled(calls, s, a) && !a.TimeOut? && !a.Die?
  {
    a := match s.pcs[t]
         case Called => Lookup(t)
         case Waiting(_) => WaitOver(t)
         case Loaded(_) => CheckProcess(t)
         case Removing(_) => Remove(t)
         case Starting => StartPlugin(t, true)
         case _ => StoreClient(t);
  }

  lemma RestingCall(calls: seq<string>, s: State, t: nat)
    requires |s.pcs| == |calls| && AtRest(calls, s) && t < |calls| && CallInv(calls, s, t)
    ensures s.pcs[t].Failed? || s.pcs[t].Returned? || Blocked(s, s.pcs[t])
  {
    if !s.pcs[t].Failed? && !s.pcs[t].Returned? && !Blocked(s, s.pcs[t]) {
      var a := CallCanMove(calls, s, t);
    }
  }

  /** With no entry of its connection removed: a call has failed exactly if it timed out or its plugin did not
      start.  And when the calls are at rest, every other call has returned a process of its connection, unless
      it waits for a placeholder left by a failed start. */
  lemma SucceedsUnlessFailed(calls: seq<string>, actions: seq<Action>, t: nat)
    requires Legal(calls, Init(calls), actions) && t < |calls| && NoRemove(calls, actions, calls[t])
    ensures var s := After(calls, Init(calls), actions);
            && (s.pcs[t].Failed? <==> TimeOut(t) in actions || StartPlugin(t, false) in actions)
            && (AtRest(calls, s) && TimeOut(t) !in actions && !StartFailed(calls, actions, calls[t]) ==>
                  s.pcs[t].Returned? && StartedFor(s, s.pcs[t].process, calls[t]))
  {
    var c := calls[t];
    OnceInit(calls, c);
    InvInit(calls);
    assert LoadingOwned(calls, Init(calls), c);
    FailsWithoutRemove(calls, Init(calls), actions, t);
    OnceAlways(calls, Init(calls), actions, c);
    var s := After(calls, Init(calls), actions);
    assert Inv(calls, s) && CallInv(calls, s, t);
    if AtRest(calls, s) && TimeOut(t) !in actions && !StartFailed(calls, actions, c) {
      LoadingOwnedAfter(calls, Init(calls), actions, c);
      hide Legal, After, Init, AtRest;
      RestingCall(calls, s, t);
      if s.pcs[t].Waiting? {
        assert EntryOnce(s, c, s.pcs[t].entry);
        var u :| 0 <= u < |calls| && calls[u] == c && Owns(s.pcs[u]);
        assert CallInv(calls, s, u);
        RestingCall(calls, s, u);
      }
    }
  }

  // ---------- A start that fails ----------

  /** The plugin of c was started, nobody is starting it any more, and it is not loaded. */
  ghost predicate Abandoned(calls: seq<string>, s: State, c: string)
    requires |s.pcs| == |calls|
  {
    && c in s.plugins && s.plugins[c] < |s.entries| && !s.entries[s.plugins[c]].closed
    && forall t :: 0 <= t < |calls| && calls[t] == c ==> !Owns(s.pcs[t]) && !s.pcs[t].Returned?
  }

  lemma AbandonedNotRemoved(calls: seq<string>, s: State, a: Action, c: string)
    requires OnceInv(calls, s, c) && Enabled(calls, s, a) && Abandoned(calls, s, c)
    ensures !IsRemove(calls, a, c) && (!a.Die? && calls[a.t] == c ==> !s.pcs[a.t].Loaded?)
  {
    if !a.Die? {
      assert CallInv(calls, s, a.t);
      if s.pcs[a.t].Loaded? || s.pcs[a.t].Removing? {
        assert EntryOnce(s, c, s.pcs[a.t].entry);
      }
    }
    hide Inv, OnceInv;
  }

  lemma AbandonedStays(calls: seq<string>, s: State, a: Action, c: string)
    requires |s.pcs| == |calls| && Enabled(calls, s, a) && Abandoned(calls, s, c)
    requires MapsTo(s, c) && MapsTo(s, Target(calls, a))
    requires !IsRemove(calls, a, c) && (!a.Die? && calls[a.t] == c ==> !s.pcs[a.t].Loaded?)
    ensures Abandoned(calls, Apply(calls, s, a), c)
  {
  }

  lemma {:induction false} AbandonedForever(calls: seq<string>, s: State, actions: seq<Action>, c: string)
    requires OnceInv(calls, s, c) && Abandoned(calls, s, c) && Legal(calls, s, actions)
    ensures Abandoned(calls, After(calls, s, actions), c)
    decreases |actions|
  {
    hide Enabled, Apply, Abandoned;
    if actions != [] {
      assert MapsTo(s, c) && MapsTo(s, Target(calls, actions[0]));
      AbandonedNotRemoved(calls, s, actions[0], c);
      OnceStep(calls, s, actions[0], c);
      AbandonedStays(calls, s, actions[0], c);
      AbandonedForever(calls, Apply(calls, s, actions[0]), actions[1..], c);
    }
  }

  lemma FailureAbandons(calls: seq<string>, s: State, t: nat)
    requires t < |calls| && OnceInv(calls, s, calls[t]) && Enabled(calls, s, StartPlugin(t, false))
    ensures Abandoned(calls, Apply(calls, s, StartPlugin(t, false)), calls[t])
  {
    var c := calls[t];
    assert OwnerOnce(calls, s, c, t);
    forall u | 0 <= u < |calls| && calls[u] == c && u != t ensures !Owns(s.pcs[u]) && !s.pcs[u].Returned? {
      assert OneOwner(calls, s, c, t, u) && CallInv(calls, s, u);
      assert s.pcs[u].Returned? ==> ProcessInv(s, s.pcs[u].process, s.pcs[u].process);
    }
    hide Inv, OnceInv;
  }

  lemma {:induction false} OnceAlways(calls: seq<string>, s: State, actions: seq<Action>, c: string)
    requires OnceInv(calls, s, c) && Legal(calls, s, actions) && forall i :: 0 <= i < |actions| ==>
             !IsRemove(calls, actions[i], c)
    ensures OnceInv(calls, After(calls, s, actions), c)
    decreases |actions|
  {
    hide Enabled, Apply, IsRemove;
    if actions != [] {
      OnceStep(calls, s, actions[0], c);
      OnceAlways(calls, Apply(calls, s, actions[0]), actions[1..], c);
    }
  }

  /** A start that fails, with no entry of the connection removed before, is final: the placeholder stays,
      nobody starts the plugin again, and no call for the connection ever succeeds. */
  lemma FailedStartIsFinal(calls: seq<string>, before: seq<Action>, t: nat, more: seq<Action>, u: nat)
    requires t < |calls| && u < |calls| && calls[u] == calls[t] && Legal(calls, Init(calls), before)
    requires forall i :: 0 <= i < |before| ==> !IsRemove(calls, before[i], calls[t])
    requires var s := After(calls, Init(calls), before);
             Enabled(calls, s, StartPlugin(t, false)) && Legal(calls, Apply(calls, s, StartPlugin(t, false)), more)
    ensures var s := After(calls, Apply(calls, After(calls, Init(calls), before), StartPlugin(t, false)), more);
            !s.pcs[u].Returned? && !Owns(s.pcs[u])
  {
    hide Enabled, Apply, IsRemove, OnceInv;
    OnceInit(calls, calls[t]);
    OnceAlways(calls, Init(calls), before, calls[t]);
    var s := After(calls, Init(calls), before);
    FailureAbandons(calls, s, t);
    assert !IsRemove(calls, StartPlugin(t, false), calls[t]) by { StartIsNoRemove(calls, t); }
    OnceStep(calls, s, StartPlugin(t, false), calls[t]);
    AbandonedForever(calls, Apply(calls, s, StartPlugin(t, false)), more, calls[t]);
  }

  lemma StartIsNoRemove(calls: seq<string>, t: nat)
    requires t < |calls|
    ensures !IsRemove(calls, StartPlugin(t, false), calls[t])
  {
  }

  // ---------- What a later call gets ----------

  lemma StoreGives(calls: seq<string>, s: State, t: nat)
    requires |s.pcs| == |calls| && t < |calls| && s.pcs[t].Started? && Inv(calls, s) && calls[t] in s.plugins
    ensures var s', e := Apply(calls, s, StoreClient(t)), s.plugins[calls[t]];
            && e < |s'.entries| && s'.plugins == s.plugins && s'.dead == s.dead
            && s'.entries[e].reattach == Some(s.pcs[t].process) && s'.entries[e].closed
            && forall v :: 0 <= v < |calls| && v != t ==> s'.pcs[v] == s.pcs[v]
  {
    assert MapsTo(s, calls[t]);
    hide Inv;
  }

  lemma LookupGives(calls: seq<string>, s: State, u: nat, e: nat, p: nat)
    requires |s.pcs| == |calls| && u < |calls| && s.pcs[u].Called?
    requires calls[u] in s.plugins && s.plugins[calls[u]] == e && e < |s.entries|
    requires s.entries[e].reattach == Some(p) && s.entries[e].closed && p !in s.dead
    ensures var actions := [Lookup(u)] + ([WaitOver(u)] + ([CheckProcess(u)] + []));
            Legal(calls, s, actions) && After(calls, s, actions).pcs[u] == Returned(p)
  {
    var s1 := Apply(calls, s, Lookup(u));
    var s2 := Apply(calls, s1, WaitOver(u));
    Then(calls, s2, CheckProcess(u), []);
    Then(calls, s1, WaitOver(u), [CheckProcess(u)] + []);
    Then(calls, s, Lookup(u), [WaitOver(u)] + ([CheckProcess(u)] + []));
  }

  /** A process that is stored serves the next call, even when storing it failed because another call had
      loaded the entry: from then on its process is the one to reattach to. */
  lemma StoredServesNext(calls: seq<string>, before: seq<Action>, t: nat, u: nat) returns (more: seq<Action>)
    requires Legal(calls, Init(calls), before) && t < |calls| && u < |calls| && t != u && calls[t] == calls[u]
    requires var s := After(calls, Init(calls), before);
             s.pcs[t].Started? && s.pcs[u].Called? && calls[t] in s.plugins && s.pcs[t].process !in s.dead
    ensures Legal(calls, Init(calls), before + more)
    ensures more == [StoreClient(t), Lookup(u), WaitOver(u), CheckProcess(u)]
    ensures After(calls, Init(calls), before + more).pcs[u]
            == Returned(After(calls, Init(calls), before).pcs[t].process)
  {
    InvInit(calls);
    InvAlways(calls, Init(calls), before);
    var s := After(calls, Init(calls), before);
    StoreGives(calls, s, t);
    var s' := Apply(calls, s, StoreClient(t));
    hide Legal, After, Init, Inv, Apply;
    LookupGives(calls, s', u, s.plugins[calls[t]], s.pcs[t].process);
    var rest := [Lookup(u)] + ([WaitOver(u)] + ([CheckProcess(u)] + []));
    more := [StoreClient(t)] + rest;
    Then(calls, s, StoreClient(t), rest);
    Joined(calls, Init(calls), before, more);
  }

  // ---------- When a process dies ----------

  lemma Then(calls: seq<string>, s: State, a: Action, rest: seq<Action>)
    requires |s.pcs| == |calls| && Enabled(calls, s, a) && Legal(calls, Apply(calls, s, a), rest)
    ensures Legal(calls, s, [a] + rest) && After(calls, s, [a] + rest) == After(calls, Apply(calls, s, a), rest)
  {
    assert ([a] + rest)[1..] == rest;
  }

  lemma {:induction false} Joined(calls: seq<string>, s: State, before: seq<Action>, more: seq<Action>)
    requires |s.pcs| == |calls| && Legal(calls, s, before) && Legal(calls, After(calls, s, before), more)
    ensures Legal(calls, s, before + more)
    ensures After(calls, s, before + more) == After(calls, After(calls, s, before), more)
    decreases |before|
  {
    hide Enabled, Apply;
    if before == [] {
      assert before + more == more;
    } else {
      assert (before + more)[0] == before[0] && (before + more)[1..] == before[1..] + more;
      Joined(calls, Apply(calls, s, before[0]), before[1..], more);
    }
  }

  lemma RemoveAndStart(calls: seq<string>, s: State, t: nat)
    requires |s.pcs| == |calls| && t < |calls| && s.pcs[t].Removing?
    ensures var actions := [Remove(t)] + ([StartPlugin(t, true)] + ([StoreClient(t)] + []));
            Legal(calls, s, actions) && var s' := After(calls, s, actions);
            s'.pcs[t].Failed? && s'.starts[calls[t]] == s.starts[calls[t]] + 1
  {
    var s1 := Apply(calls, s, Remove(t));
    var s2 := Apply(calls, s1, StartPlugin(t, true));
    Then(calls, s2, StoreClient(t), []);
    Then(calls, s1, StartPlugin(t, true), [StoreClient(t)] + []);
    Then(calls, s, Remove(t), [StartPlugin(t, true)] + ([StoreClient(t)] + []));
  }

  /** A call that finds the process of its entry dead can start the plugin again; it then fails, as it has
      just removed the entry to store the new process in. */
  lemma DeadProcessStartedAgain(calls: seq<string>, before: seq<Action>, t: nat) returns (more: seq<Action>)
    requires Legal(calls, Init(calls), before) && t < |calls|
    requires var s := After(calls, Init(calls), before);
             && s.pcs[t].Loaded? && s.pcs[t].entry < |s.entries|
             && s.entries[s.pcs[t].entry].reattach.Some? && s.entries[s.pcs[t].entry].reattach.value in s.dead
    ensures Legal(calls, Init(calls), before + more)
    ensures var s := After(calls, Init(calls), before + more);
            && s.pcs[t].Failed?
            && s.starts[calls[t]] == After(calls, Init(calls), before).starts[calls[t]] + 1
  {
    assert |Init(calls).pcs| == |calls|;
    hide After, Legal, Init;
    var s := After(calls, Init(calls), before);
    RemoveAndStart(calls, Apply(calls, s, CheckProcess(t)), t);
    more := [CheckProcess(t)] + ([Remove(t)] + ([StartPlugin(t, true)] + ([StoreClient(t)] + [])));
    Then(calls, s, CheckProcess(t), [Remove(t)] + ([StartPlugin(t, true)] + ([StoreClient(t)] + [])));
    Joined(calls, Init(calls), before, more);
  }

  /** Call 0 loads the plugin, call 1 waits for it, and the process dies. */
  const DEATH_ACTIONS := [Lookup(0), StartPlugin(0, true), StoreClient(0), Lookup(1), WaitOver(1), Die(0)]

  function DeathState(c: string, n: nat): State {
    var first := if n == 0 then Called else if n == 1 then Starting else if n == 2 then Started(0) else Returned(0);
    var second := if n < 4 then Called else if n == 4 then Waiting(0) else Loaded(0);
    var loaded := n >= 3;
    State([first, second],
          if n == 0 then map[] else map[c := 0],
          if n == 0 then [] else [Entry(c, if loaded then Some(0) else None, loaded)],
          if n < 2 then [] else [c],
          if n < 6 then {} else {0},
          if n < 2 then multiset{} else multiset{c},
          if loaded then multiset{0} else multiset{})
  }

  lemma LoadStep(c: string, n: nat)
    requires 0 <= n < 2
    ensures Enabled([c, c], DeathState(c, n), DEATH_ACTIONS[n])
    ensures Apply([c, c], DeathState(c, n), DEATH_ACTIONS[n]) == DeathState(c, n + 1)
  {
    var s, s' := Apply([c, c], DeathState(c, n), DEATH_ACTIONS[n]), DeathState(c, n + 1);
    assert s.pcs == s'.pcs && s.plugins == s'.plugins && s.entries == s'.entries && s.processes == s'.processes;
    assert s.starts == s'.starts && s.closes == s'.closes;
  }

  lemma StoreStep(c: string, n: nat)
    requires n == 2
    ensures Enabled([c, c], DeathState(c, n), DEATH_ACTIONS[n])
    ensures Apply([c, c], DeathState(c, n), DEATH_ACTIONS[n]) == DeathState(c, n + 1)
  {
    var s, s' := Apply([c, c], DeathState(c, n), DEATH_ACTIONS[n]), DeathState(c, n + 1);
    assert s.pcs == s'.pcs && s.plugins == s'.plugins && s.entries == s'.entries && s.processes == s'.processes;
    assert s.starts == s'.starts && s.closes == s'.closes;
  }

  lemma DeathStep(c: string, n: nat)
    requires 3 <= n < 6
    ensures Enabled([c, c], DeathState(c, n), DEATH_ACTIONS[n])
    ensures Apply([c, c], DeathState(c, n), DEATH_ACTIONS[n]) == DeathState(c, n + 1)
  {
    var s, s' := Apply([c, c], DeathState(c, n), DEATH_ACTIONS[n]), DeathState(c, n + 1);
    assert s.pcs == s'.pcs && s.plugins == s'.plugins && s.entries == s'.entries && s.processes == s'.processes;
    assert s.starts == s'.starts && s.closes == s'.closes;
  }

  lemma {:induction false} DeathFrom(c: string, n: nat)
    requires n <= 6
    ensures Legal([c, c], DeathState(c, n), DEATH_ACTIONS[n..])
    ensures After([c, c], DeathState(c, n), DEATH_ACTIONS[n..]) == DeathState(c, 6)
    decreases 6 - n
  {
    hide Enabled, Apply;
    if n < 6 {
      if n < 2 {
        LoadStep(c, n);
      } else if n == 2 {
        StoreStep(c, n);
      } else {
        DeathStep(c, n);
      }
      DeathFrom(c, n + 1);
      assert DEATH_ACTIONS[n..][0] == DEATH_ACTIONS[n] && DEATH_ACTIONS[n..][1..] == DEATH_ACTIONS[n + 1..];
    }
  }

  /** An execution in which a plugin is started twice, and the second call fails. */
  lemma CanBeStartedTwice(c: string) returns (actions: seq<Action>)
    ensures Legal([c, c], Init([c, c]), actions)
    ensures var s := After([c, c], Init([c, c]), actions); s.starts[c] == 2 && s.pcs[1].Failed?
  {
    var calls := [c, c];
    assert Init(calls) == DeathState(c, 0) by { assert Init(calls).pcs == DeathState(c, 0).pcs; }
    DeathFrom(c, 0);
    assert DEATH_ACTIONS[0..] == DEATH_ACTIONS;
    hide After, Legal, Init;
    var more := DeadProcessStartedAgain(calls, DEATH_ACTIONS, 1);
    actions := DEATH_ACTIONS + more;
  }
}