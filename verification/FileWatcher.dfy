/** The batching of file events (utils/file_watcher.go, scheduleHandler).

    Callers of scheduleHandler and the delayed handler goroutine share `events` under handlerLock.
    Each step is what one goroutine does between two points where others can see the state.  */
module FileWatcher {

  /** Who holds handlerLock, and how far it is. */
  datatype Lock<E> =
    | Unlocked
    | CallerEntered(event: E)
    | CallerAppended(handlerScheduled: bool)
    | HandlerEntered
    | HandlerDelivered

  /** `asleep`: handler goroutines started, not yet past the lock; `batches`: what onChange was called
      with; `scheduled`: what scheduleHandler was called with. */
  datatype State<E> = State(events: seq<E>, asleep: nat, lock: Lock<E>, batches: seq<seq<E>>, scheduled: seq<E>)

  datatype Action<E> = CallerLock(event: E) | CallerAppend | CallerUnlock | HandlerLock | HandlerDeliver | HandlerUnlock

  function Init<E>(): State<E> {
    State([], 0, Unlocked, [], [])
  }

  predicate Enabled<E>(s: State<E>, a: Action<E>) {
    match a
    case CallerLock(_) => s.lock.Unlocked?
    case CallerAppend => s.lock.CallerEntered?
    case CallerUnlock => s.lock.CallerAppended?
    case HandlerLock => s.lock.Unlocked? && s.asleep > 0
    case HandlerDeliver => s.lock.HandlerEntered?
    case HandlerUnlock => s.lock.HandlerDelivered?
  }

  function Apply<E>(s: State<E>, a: Action<E>): State<E>
    requires Enabled(s, a)
  {
    match a
    case CallerLock(e) => s.(lock := CallerEntered(e))
    case CallerAppend =>
      s.(lock := CallerAppended(|s.events| > 0),
         events := s.events + [s.lock.event], scheduled := s.scheduled + [s.lock.event])
    case CallerUnlock => s.(lock := Unlocked, asleep := s.asleep + if s.lock.handlerScheduled then 0 else 1)
    case HandlerLock => s.(lock := HandlerEntered, asleep := s.asleep - 1)
    case HandlerDeliver => s.(lock := HandlerDelivered, batches := s.batches + [s.events])
    case HandlerUnlock => s.(lock := Unlocked, events := [])
  }

  predicate Legal<E>(s: State<E>, actions: seq<Action<E>>)
    decreases |actions|
  {
    actions == [] || (Enabled(s, actions[0]) && Legal(Apply(s, actions[0]), actions[1..]))
  }

  function After<E>(s: State<E>, actions: seq<Action<E>>): State<E>
    requires Legal(s, actions)
    decreases |actions|
  {
    if actions == [] then s else After(Apply(s, actions[0]), actions[1..])
  }

  function Flatten<E>(batches: seq<seq<E>>): seq<E> {
    if batches == [] then [] else Flatten(batches[..|batches| - 1]) + batches[|batches| - 1]
  }

  /** The events not yet passed to onChange. */
  function Undelivered<E>(s: State<E>): seq<E> {
    if s.lock.HandlerDelivered? then [] else s.events
  }

  /** Handler goroutines that have still to deliver or to clear the events. */
  function Handlers<E>(s: State<E>): nat {
    s.asleep + if s.lock.HandlerEntered? || s.lock.HandlerDelivered? then 1 else 0
  }

  ghost predicate Inv<E>(s: State<E>) {
    && Flatten(s.batches) + Undelivered(s) == s.scheduled
    && (forall i :: 0 <= i < |s.batches| ==> s.batches[i] != [])
    && match s.lock
       case CallerAppended(handlerScheduled) => s.events != [] && Handlers(s) == if handlerScheduled then 1 else 0
       case _ => Handlers(s) == if s.events == [] then 0 else 1
  }

  lemma FlattenSnoc<E>(batches: seq<seq<E>>, batch: seq<E>)
    ensures Flatten(batches + [batch]) == Flatten(batches) + batch
  {
    assert (batches + [batch])[..|batches|] == batches;
  }

  lemma InvStep<E>(s: State<E>, a: Action<E>)
    requires Inv(s) && Enabled(s, a)
    ensures Inv(Apply(s, a))
  {
    hide Flatten;
    match a
    case CallerAppend =>
      assert Flatten(s.batches) + (s.events + [s.lock.event]) == (Flatten(s.batches) + s.events) + [s.lock.event];
    case HandlerDeliver =>
      FlattenSnoc(s.batches, s.events);
      assert Flatten(s.batches + [s.events]) + [] == Flatten(s.batches) + s.events;
    case _ =>
  }

  lemma {:induction false} InvAlways<E>(s: State<E>, actions: seq<Action<E>>)
    requires Inv(s) && Legal(s, actions)
    ensures Inv(After(s, actions))
    decreases |actions|
  {
    hide Inv;
    if actions != [] {
      InvStep(s, actions[0]);
      InvAlways(Apply(s, actions[0]), actions[1..]);
    }
  }

  /** Every scheduled event is delivered once, in order, or still waits; onChange is never called with
      nothing.  There is never more than one handler, and, when the lock is free, there is one exactly
      if an event waits. */
  lemma DeliveredOnce<E>(actions: seq<Action<E>>)
    requires Legal(Init(), actions)
    ensures var s := After(Init(), actions);
            && Flatten(s.batches) + Undelivered(s) == s.scheduled
            && (forall i :: 0 <= i < |s.batches| ==> s.batches[i] != [])
            && Handlers(s) <= 1
            && (s.lock.Unlocked? ==> (s.asleep == 1 <==> s.events != []))
  {
    hide After;
    InvAlways(Init(), actions);
  }

  /** The events that scheduleHandler was called with, in the order in which the callers got the lock. */
  function Calls<E>(actions: seq<Action<E>>): seq<E> {
    if actions == [] then []
    else (if actions[0].CallerLock? then [actions[0].event] else []) + Calls(actions[1..])
  }

  /** The event of a caller that has the lock and has not appended it yet. */
  function Entering<E>(lock: Lock<E>): seq<E> {
    if lock.CallerEntered? then [lock.event] else []
  }

  lemma {:induction false} CallsFrom<E>(s: State<E>, actions: seq<Action<E>>)
    requires Legal(s, actions)
    ensures var s' := After(s, actions);
            s'.scheduled + Entering(s'.lock) == s.scheduled + Entering(s.lock) + Calls(actions)
    decreases |actions|
  {
    if actions != [] {
      var a, rest := actions[0], actions[1..];
      var s1 := Apply(s, a);
      CallsFrom(s1, rest);
      var first := if a.CallerLock? then [a.event] else [];
      assert s1.scheduled + Entering(s1.lock) == s.scheduled + Entering(s.lock) + first;
      assert (s.scheduled + Entering(s.lock) + first) + Calls(rest)
          == s.scheduled + Entering(s.lock) + (first + Calls(rest));
    }
  }

  /** What was delivered, what waits, and what a caller is about to add are together the events that
      scheduleHandler was called with, each once and in order. */
  lemma CallsDelivered<E>(actions: seq<Action<E>>)
    requires Legal(Init(), actions)
    ensures var s := After(Init(), actions);
            Flatten(s.batches) + Undelivered(s) + Entering(s.lock) == Calls(actions)
  {
    DeliveredOnce(actions);
    CallsFrom(Init(), actions);
    hide Flatten, Undelivered, Calls, After, Legal;
    var s := After(Init(), actions);
    assert s.scheduled + Entering(s.lock) == [] + [] + Calls(actions) == Calls(actions);
  }

  lemma {:induction false} LegalThen<E>(s: State<E>, actions: seq<Action<E>>, a: Action<E>)
    requires Legal(s, actions) && Enabled(After(s, actions), a)
    ensures Legal(s, actions + [a]) && After(s, actions + [a]) == Apply(After(s, actions), a)
    decreases |actions|
  {
    if actions == [] {
      assert (actions + [a])[1..] == [];
    } else {
      assert (actions + [a])[0] == actions[0] && (actions + [a])[1..] == actions[1..] + [a];
      LegalThen(Apply(s, actions[0]), actions[1..], a);
    }
  }

  /** No event is stuck: whenever the lock is free, the waiting handler can run, and then everything
      scheduled has been delivered. */
  lemma HandlerDrains<E>(actions: seq<Action<E>>) returns (more: seq<Action<E>>)
    requires Legal(Init(), actions) && After(Init(), actions).lock.Unlocked?
    ensures |more| <= 3 && Legal(Init(), actions + more)
    ensures var s := After(Init(), actions + more);
            s.events == [] && Flatten(s.batches) == s.scheduled == After(Init(), actions).scheduled
  {
    var s := After(Init(), actions);
    InvAlways(Init(), actions);
    if s.events == [] {
      more := [];
      assert actions + more == actions;
    } else {
      more := [HandlerLock, HandlerDeliver, HandlerUnlock];
      LegalThen(Init(), actions, HandlerLock);
      LegalThen(Init(), actions + [HandlerLock], HandlerDeliver);
      LegalThen(Init(), actions + [HandlerLock] + [HandlerDeliver], HandlerUnlock);
      assert actions + more == actions + [HandlerLock] + [HandlerDeliver] + [HandlerUnlock];
      InvAlways(Init(), actions + more);
    }
  }
}
