/**
 What a `Shutdown` that returns nil says about the runtime.

 A call that owned the shutdown, or waited for it, returns after the runtime was stopped. A call
 that finds the server Stopped returns at once, also while `Start` still cleans up after a failed
 listen or a failed serve. This module exhibits such a call and shows, for every call that has
 returned nil, that this is the only way in which the runtime is not stopped.
 */
module LifecycleReturn {
  import opened Options
  import opened Lifecycle
  import opened LifecycleTotals
  import opened LifecycleInvariant
  import opened LifecyclePreservation
  import opened LifecycleSafety

  /** `Start` failed and has not come back from stopping the runtime. */
  predicate CleansUp(t: Thread) {
    t.Stop? || t == Start(Retracted)
  }

  // ---------------------------------------------------------------------------------------
  // Who holds the runtime of a stopped server
  // ---------------------------------------------------------------------------------------

  /** When no shutdown has begun and the server is stopped, the pointer is still responsible for
      the runtime only until `Start` hands it to `Stop`. */
  predicate PointerOk(sv: Server, t: Thread) {
    sv.phase == Stopped && sv.pointerOwns && !sv.begun ==> t == Start(Retracted)
  }

  ghost predicate PointerInv(s: State) {
    |s.threads| > 0 && PointerOk(s.server, s.threads[0])
  }

  /** An action of another thread than `Start` does not stop a server without a shutdown. */
  predicate LeavesPointer(sv: Server, mv: Move) {
    var sv' := ServerAfter(sv, mv.effect);
    sv'.phase == Stopped && sv'.pointerOwns && !sv'.begun ==> sv.phase == Stopped && sv.pointerOwns && !sv.begun
  }

  lemma ReloaderLeaves(s: State, i: nat, r: Reloader, c: Choice, mv: Move)
    requires ReloaderMove(s, i, r, c) == Some(mv)
    ensures LeavesPointer(s.server, mv)
  {}

  lemma CallerLeaves(s: State, i: nat, k: Caller, c: Choice, mv: Move)
    requires CallerMove(s, i, k, c) == Some(mv) && CallerOk(s.server, k) && PhaseOk(s.server)
    ensures LeavesPointer(s.server, mv)
  {}

  lemma StarterPointer(s: State, i: nat, b: Starter, c: Choice, mv: Move)
    requires StarterMove(s, i, b, c) == Some(mv) && StarterOk(s.server, b) && PhaseOk(s.server)
    requires PointerOk(s.server, Start(b))
    ensures PointerOk(ServerAfter(s.server, mv.effect), mv.next)
  {}

  lemma StopPointer(s: State, g: nat, stage: Stage, why: Reason, mv: Move)
    requires StopMove(s, g, stage, why) == Some(mv) && PointerOk(s.server, Stop(g, stage, why))
    ensures LeavesPointer(s.server, mv) && PointerOk(ServerAfter(s.server, mv.effect), mv.next)
  {}

  lemma PointerMove(s: State, i: nat, c: Choice, mv: Move)
    requires Threads(s) && PhaseOk(s.server) && PointerInv(s) && i < |s.threads| && MoveOf(s, i, c) == Some(mv)
    ensures PointerInv(Apply(s, i, mv))
  {
    assert ThreadOk(s.server, s.runtimes, s.threads[i]) && (IsStarter(s.threads[i]) <==> i == 0);
    match s.threads[i]
    case Reload(r) => ReloaderLeaves(s, i, r, c, mv);
    case Shutdown(k) => CallerLeaves(s, i, k, c, mv);
    case Start(b) => StarterPointer(s, i, b, c, mv);
    case Stop(g, stage, why) =>
      if i == 0 {
        StopPointer(s, g, stage, why, mv);
      }
    case _ =>
  }

  lemma PointerKeeps(s: State, e: Event, s': State)
    requires Threads(s) && PhaseOk(s.server) && PointerInv(s) && Next(s, e) == Some(s')
    ensures PointerInv(s')
  {
    if e.Run? {
      PointerMove(s, e.i, e.c, MoveOf(s, e.i, e.c).value);
    }
  }

  lemma PointerNext(states: seq<State>, events: seq<Event>, k: nat)
    requires IsOrderedRun(states, events) && k < |events| && PointerInv(states[k])
    ensures PointerInv(states[k + 1])
  {
    RunInv(states, events, k);
    PointerKeeps(states[k], events[k], states[k + 1]);
  }

  lemma {:induction false} PointerRun(states: seq<State>, events: seq<Event>, k: nat)
    requires IsOrderedRun(states, events) && k < |states|
    ensures PointerInv(states[k])
  {
    if k > 0 {
      PointerRun(states, events, k - 1);
      PointerNext(states, events, k - 1);
    }
  }

  // ---------------------------------------------------------------------------------------
  // The exact condition
  // ---------------------------------------------------------------------------------------

  /** The only thread that can hold the active runtime of a stopped server is `Start`. */
  lemma OnlyStartHolds(s: State, i: nat)
    requires Threads(s) && Generations(s) && s.server.phase == Stopped && i < |s.threads|
    requires Weight(Claims(s.server.active), s.threads[i]) > 0
    ensures i == 0 && s.threads[0].Stop?
  {
    assert ThreadOk(s.server, s.runtimes, s.threads[i]) && (IsStarter(s.threads[i]) <==> i == 0);
  }

  lemma StoppedHolds(s: State)
    requires Inv(s) && PointerInv(s) && s.server.phase == Stopped
    ensures s.server.active in s.server.retired <==> !CleansUp(s.threads[0])
  {
    var g := s.server.active;
    assert ThreadOk(s.server, s.runtimes, s.threads[0]) && IsStarter(s.threads[0]);
    if g in s.server.retired {
      if s.threads[0].Stop? {
        OnlyPlace(s, g, Retired, WithThread(0));
      } else if s.threads[0] == Start(Retracted) {
        OnlyPlace(s, g, Retired, WithPointer);
      }
    } else {
      var p := SomePlace(s, g);
      if p.WithThread? || p.GivenUp? {
        OnlyStartHolds(s, p.i);
      }
    }
  }

  /** A `Shutdown` that has returned nil leaves the active runtime stopped if and only if `Start`
      is not still cleaning up after its own failure. */
  lemma StoppedUnlessCleaningUp(states: seq<State>, events: seq<Event>, k: nat, i: nat)
    requires IsOrderedRun(states, events) && k < |states|
    requires i < |states[k].threads| && states[k].threads[i] == Shutdown(Returned(Success))
    ensures states[k].server.active in states[k].server.retired <==> !CleansUp(states[k].threads[0])
  {
    RunInv(states, events, k);
    PointerRun(states, events, k);
    ReturnedSettled(states[k], i, Success);
    StoppedHolds(states[k]);
  }

  // ---------------------------------------------------------------------------------------
  // Where a failure comes from
  // ---------------------------------------------------------------------------------------

  /** The call has failed, or will report a failure. */
  predicate HasFailed(t: Thread) {
    || t == Shutdown(Completing(Failure)) || t == Shutdown(Settling(Failure)) || t == Shutdown(Closing(Failure))
    || t == Shutdown(Closed(Failure)) || t == Shutdown(Returned(Failure))
  }

  ghost predicate FailureKnown(s: State) {
    s.server.shutdownErr == Failure || exists i :: 0 <= i < |s.threads| && HasFailed(s.threads[i])
  }

  /** The forced attempt of a shutdown fails. */
  predicate ForceFails(s: State, e: Event) {
    e.Run? && e.c == Fail && e.i < |s.threads| && s.threads[e.i].Shutdown? && s.threads[e.i].c.Forcing?
  }

  predicate FailureKept(sv: Server, t: Thread, c: Choice, mv: Move) {
    && (mv.child.Some? ==> !HasFailed(mv.child.value))
    && (HasFailed(mv.next) || ServerAfter(sv, mv.effect).shutdownErr == Failure ==>
          HasFailed(t) || sv.shutdownErr == Failure || (t.Shutdown? && t.c.Forcing? && c == Fail))
  }

  lemma CallerFailure(s: State, i: nat, k: Caller, c: Choice, mv: Move)
    requires CallerMove(s, i, k, c) == Some(mv)
    ensures FailureKept(s.server, Shutdown(k), c, mv)
  {}

  lemma StarterFailure(s: State, i: nat, b: Starter, c: Choice, mv: Move)
    requires StarterMove(s, i, b, c) == Some(mv)
    ensures FailureKept(s.server, Start(b), c, mv)
  {}

  lemma ReloaderFailure(s: State, i: nat, r: Reloader, c: Choice, mv: Move)
    requires ReloaderMove(s, i, r, c) == Some(mv)
    ensures FailureKept(s.server, Reload(r), c, mv)
  {}

  lemma StopFailure(s: State, g: nat, stage: Stage, why: Reason, mv: Move)
    requires StopMove(s, g, stage, why) == Some(mv)
    ensures FailureKept(s.server, Stop(g, stage, why), Go, mv)
  {}

  lemma FailureStep(s: State, i: nat, c: Choice, mv: Move)
    requires i < |s.threads| && MoveOf(s, i, c) == Some(mv)
    ensures FailureKept(s.server, s.threads[i], c, mv)
  {
    match s.threads[i]
    case Shutdown(k) => CallerFailure(s, i, k, c, mv);
    case Start(b) => StarterFailure(s, i, b, c, mv);
    case Reload(r) => ReloaderFailure(s, i, r, c, mv);
    case Stop(g, stage, why) => StopFailure(s, g, stage, why, mv);
    case _ =>
  }

  ghost predicate FailureLink(s: State, e: Event, s': State) {
    FailureKnown(s') ==> FailureKnown(s) || ForceFails(s, e)
  }

  lemma FailureMove(s: State, i: nat, c: Choice, mv: Move)
    requires i < |s.threads| && MoveOf(s, i, c) == Some(mv)
    ensures FailureLink(s, Run(i, c), Apply(s, i, mv))
  {
    FailureStep(s, i, c, mv);
    var s' := Apply(s, i, mv);
    if FailureKnown(s') && s'.server.shutdownErr != Failure {
      var n :| 0 <= n < |s'.threads| && HasFailed(s'.threads[n]);
      assert n < |s.threads|;
      assert n != i ==> HasFailed(s.threads[n]);
    }
  }

  lemma FailureArrival(s: State, e: Event, s': State)
    requires !e.Run? && Next(s, e) == Some(s')
    ensures FailureLink(s, e, s')
  {
    if FailureKnown(s') && s'.server.shutdownErr != Failure {
      var n :| 0 <= n < |s'.threads| && HasFailed(s'.threads[n]);
      assert n < |s.threads| && HasFailed(s.threads[n]);
    }
  }

  lemma FailureEvent(s: State, e: Event, s': State)
    requires Next(s, e) == Some(s')
    ensures FailureLink(s, e, s')
  {
    if e.Run? {
      FailureMove(s, e.i, e.c, MoveOf(s, e.i, e.c).value);
    } else {
      FailureArrival(s, e, s');
    }
  }

  lemma {:induction false} FailureBefore(states: seq<State>, events: seq<Event>, k: nat) returns (j: nat)
    requires |states| == |events| + 1 && k < |states| && !FailureKnown(states[0])
    requires forall n :: 0 <= n < |events| ==> FailureLink(states[n], events[n], states[n + 1])
    requires FailureKnown(states[k])
    ensures j < k && ForceFails(states[j], events[j])
  {
    j := k - 1;
    assert FailureLink(states[j], events[j], states[j + 1]);
    if !ForceFails(states[j], events[j]) {
      j := FailureBefore(states, events, j);
    }
  }

  lemma NoFailureAtFirst(states: seq<State>, events: seq<Event>)
    requires IsRun(states, events)
    ensures !FailureKnown(states[0])
  {
    var probers, enabled :| states[0] == InitialState(probers, enabled);
  }

  /** No `Shutdown` call reports a failure unless, before, a forced attempt has failed. */
  lemma FailureCause(states: seq<State>, events: seq<Event>, k: nat, i: nat) returns (j: nat)
    requires IsRun(states, events) && k < |states|
    requires i < |states[k].threads| && states[k].threads[i] == Shutdown(Returned(Failure))
    ensures j < k && ForceFails(states[j], events[j])
  {
    NoFailureAtFirst(states, events);
    forall n | 0 <= n < |events|
      ensures FailureLink(states[n], events[n], states[n + 1])
    {
      FailureEvent(states[n], events[n], states[n + 1]);
    }
    assert HasFailed(states[k].threads[i]);
    j := FailureBefore(states, events, k);
  }

  /** The forced attempt of a call is made only after its graceful deadline has expired. */
  predicate ForceLink(s: State, e: Event, s': State, i: nat, g: nat) {
    i < |s'.threads| && s'.threads[i] == Shutdown(Forcing(g)) ==>
      && i < |s.threads|
      && (s.threads[i] == s'.threads[i] || (s.threads[i] == Shutdown(Owning(g)) && e == Run(i, Timeout)))
  }

  lemma ForceStep(s: State, i: nat, c: Choice, mv: Move, g: nat)
    requires i < |s.threads| && MoveOf(s, i, c) == Some(mv)
    ensures mv.next == Shutdown(Forcing(g)) ==> s.threads[i] == Shutdown(Owning(g)) && c == Timeout
    ensures mv.child.Some? ==> mv.child.value.Prober?
  {}

  lemma ForceEvent(s: State, e: Event, s': State, i: nat, g: nat)
    requires Next(s, e) == Some(s')
    ensures ForceLink(s, e, s', i, g)
  {
    if e.Run? {
      ForceStep(s, e.i, e.c, MoveOf(s, e.i, e.c).value, g);
    }
  }

  lemma {:induction false} ForceBefore(states: seq<State>, events: seq<Event>, k: nat, i: nat, g: nat) returns (j: nat)
    requires |states| == |events| + 1 && k < |states|
    requires forall n :: 0 <= n < |events| ==> ForceLink(states[n], events[n], states[n + 1], i, g)
    requires i < |states[0].threads| ==> !states[0].threads[i].Shutdown?
    requires i < |states[k].threads| && states[k].threads[i] == Shutdown(Forcing(g))
    ensures j < k && events[j] == Run(i, Timeout) && i < |states[j].threads|
    ensures states[j].threads[i] == Shutdown(Owning(g))
  {
    j := k - 1;
    assert ForceLink(states[j], events[j], states[j + 1], i, g);
    if states[j].threads[i] != Shutdown(Owning(g)) {
      j := ForceBefore(states, events, j, i, g);
    }
  }

  lemma NoCallAtFirst(states: seq<State>, events: seq<Event>, i: nat)
    requires IsRun(states, events) && i < |states[0].threads|
    ensures !states[0].threads[i].Shutdown?
  {
    var probers, enabled :| states[0] == InitialState(probers, enabled);
  }

  lemma ForcedAfterDeadline(states: seq<State>, events: seq<Event>, k: nat, i: nat, g: nat) returns (j: nat)
    requires IsRun(states, events) && k < |states|
    requires i < |states[k].threads| && states[k].threads[i] == Shutdown(Forcing(g))
    ensures j < k && events[j] == Run(i, Timeout) && i < |states[j].threads|
    ensures states[j].threads[i] == Shutdown(Owning(g))
  {
    if i < |states[0].threads| {
      NoCallAtFirst(states, events, i);
    }
    forall n | 0 <= n < |events|
      ensures ForceLink(states[n], events[n], states[n + 1], i, g)
    {
      ForceEvent(states[n], events[n], states[n + 1], i, g);
    }
    j := ForceBefore(states, events, k, i, g);
  }

  // ---------------------------------------------------------------------------------------
  // A call that returns too early
  // ---------------------------------------------------------------------------------------

  /** The initial state with one prober, except for the thread of `Start`, later threads and the
      server's fields. */
  function With(start: Thread, more: seq<Thread>, sv: Server): State {
    InitialState(1, false).(threads := [start, Prober(1, 0, Looping)] + more, server := sv)
  }

  function FirstServer(): Server {
    InitialState(1, false).server
  }

  /** `Start` has failed to listen and its `Stop` has not yet cancelled the runtime. */
  function Failed(more: seq<Thread>): State {
    With(Stop(1, Cancel, ByListen), more, FirstServer().(srv := true, phase := Stopped, pointerOwns := false))
  }

  /** A run that ends in the given state. */
  ghost predicate Reaches(states: seq<State>, events: seq<Event>, s: State) {
    IsOrderedRun(states, events) && states[|events|] == s
  }

  lemma Extend(states: seq<State>, events: seq<Event>, s: State, e: Event, s': State)
    returns (states': seq<State>, events': seq<Event>)
    requires Reaches(states, events, s) && Next(s, e) == Some(s') && CallersOrdered(s, e)
    ensures Reaches(states', events', s') && |events'| == |events| + 1
  {
    states', events' := states + [s'], events + [e];
    assert states'[0] == states[0];
    forall k | 0 <= k < |events'|
      ensures Next(states'[k], events'[k]) == Some(states'[k + 1]) && CallersOrdered(states'[k], events'[k])
    {
      if k < |events| {
        assert states'[k] == states[k] && states'[k + 1] == states[k + 1] && events'[k] == events[k];
      }
    }
  }

  lemma Begin() returns (states: seq<State>, events: seq<Event>)
    ensures Reaches(states, events, With(Start(Started(1)), [], FirstServer())) && |events| == 1
  {
    var s0 := InitialState(1, false);
    assert s0.threads == InitialThreads(1) == [Start(Idle), Prober(1, 0, Looping)];
    InitialRest(1, Callers);
    var s1 := Apply(s0, 0, StartMove(s0));
    assert s1.threads == [Start(Started(1)), Prober(1, 0, Looping)] + [];
    assert Next(s0, StartServer) == Some(s1);
    states, events := [s0, s1], [StartServer];
  }

  function Made(): Server {
    FirstServer().(srv := true)
  }

  lemma Moves(t: Thread, sv: Server, c: Choice, t': Thread, sv': Server)
    requires var mv := MoveOf(With(t, [], sv), 0, c);
      mv == To(t', Store(sv', false)) || (mv == To(t', Nothing) && sv' == sv)
    ensures Next(With(t, [], sv), Run(0, c)) == Some(With(t', [], sv'))
  {
    assert With(t, [], sv).threads[0 := t'] + [] == With(t', [], sv').threads;
  }

  lemma ListenActs()
    ensures Next(With(Start(Started(1)), [], FirstServer()), Run(0, Go)) == Some(With(Start(Listening(1)), [], Made()))
    ensures Next(With(Start(Listening(1)), [], Made()), Run(0, Fail)) == Some(With(Start(ListenFailed(1)), [], Made()))
  {
    Moves(Start(Started(1)), FirstServer(), Go, Start(Listening(1)), Made());
    Moves(Start(Listening(1)), Made(), Fail, Start(ListenFailed(1)), Made());
  }

  lemma FailureActs()
    ensures Next(With(Start(ListenFailed(1)), [], Made()), Run(0, Go)) == Some(With(Start(Unannounced(1)), [], Made()))
    ensures Next(With(Start(Unannounced(1)), [], Made()), Run(0, Go)) == Some(Failed([]))
  {
    Moves(Start(ListenFailed(1)), Made(), Go, Start(Unannounced(1)), Made());
    var sv' := Made().(phase := Stopped, pointerOwns := false);
    Moves(Start(Unannounced(1)), Made(), Go, Stop(1, Cancel, ByListen), sv');
  }

  lemma ListenFails() returns (states: seq<State>, events: seq<Event>)
    ensures Reaches(states, events, Failed([])) && |events| == 5
  {
    states, events := Begin();
    ListenActs();
    FailureActs();
    var s1, s2 := With(Start(Started(1)), [], FirstServer()), With(Start(Listening(1)), [], Made());
    var s3, s4 := With(Start(ListenFailed(1)), [], Made()), With(Start(Unannounced(1)), [], Made());
    states, events := Extend(states, events, s1, Run(0, Go), s2);
    states, events := Extend(states, events, s2, Run(0, Fail), s3);
    states, events := Extend(states, events, s3, Run(0, Go), s4);
    states, events := Extend(states, events, s4, Run(0, Go), Failed([]));
  }

  /** A `Shutdown` call made then takes the lock, finds the server Stopped and returns. */
  lemma CallActs(c: Caller, w: Writer, c': Caller, w': Writer)
    requires (c, w, c', w') in [(Called, Free, Called, Pending(2)), (Called, Pending(2), Deciding, Held(2)),
                                (Deciding, Held(2), Returned(Success), Free)]
    ensures Next(Failed([Shutdown(c)]).(writer := w), Run(2, Go)) == Some(Failed([Shutdown(c')]).(writer := w'))
  {
    var ts := Failed([Shutdown(c)]).threads;
    assert ts[2 := Shutdown(c')] + [] == Failed([Shutdown(c')]).threads;
  }

  lemma CallArrives()
    ensures Next(Failed([]), NewShutdown) == Some(Failed([Shutdown(Called)]))
  {
    assert Failed([]).threads + [Shutdown(Called)] == Failed([Shutdown(Called)]).threads;
  }

  /** An ordered run in which `Shutdown` has returned nil although the runtime is not stopped, its
      context not cancelled and its prober running. */
  lemma EarlySuccess() returns (states: seq<State>, events: seq<Event>)
    ensures IsOrderedRun(states, events) && |events| == 9 && |states[9].threads| == 3
    ensures states[9].threads[1] == Prober(1, 0, Looping) && states[9].threads[2] == Shutdown(Returned(Success))
    ensures states[9].server.active == 1 && 1 !in states[9].server.retired
    ensures WorkersOf(states[9].runtimes, 1) == 1 && !Cancelled(states[9].runtimes, 1)
  {
    states, events := ListenFails();
    CallArrives();
    CallActs(Called, Free, Called, Pending(2));
    CallActs(Called, Pending(2), Deciding, Held(2));
    CallActs(Deciding, Held(2), Returned(Success), Free);
    var called := Failed([Shutdown(Called)]);
    var pending, deciding := called.(writer := Pending(2)), Failed([Shutdown(Deciding)]).(writer := Held(2));
    states, events := Extend(states, events, Failed([]), NewShutdown, called);
    states, events := Extend(states, events, called, Run(2, Go), pending);
    states, events := Extend(states, events, pending, Run(2, Go), deciding);
    states, events := Extend(states, events, deciding, Run(2, Go), Failed([Shutdown(Returned(Success))]));
  }
}
