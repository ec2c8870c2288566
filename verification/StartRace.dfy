/**
 `Start` stores the Running state without the lock. Runs in which a `Shutdown` call falls into
 that window are not ordered, and there the server state can move backward. This module exhibits
 such a run and shows, for all runs, exactly when it happens.
 */
module StartRace {
  import opened Options
  import opened Lifecycle
  import opened LifecycleInvariant
  import opened LifecyclePreservation
  import opened LifecycleSafety

  predicate BeforeStore(t: Thread) {
    t == Start(Idle) || InStartWindow(t)
  }

  /** Until `Start` has stored its state, the server leaves Starting exactly when a shutdown
      begins, and every shutdown owner belongs to one that has begun. */
  ghost predicate RaceInv(s: State) {
    && |s.threads| > 0
    && (forall i :: 0 < i < |s.threads| ==> !IsStarter(s.threads[i]))
    && (forall i :: 0 <= i < |s.threads| && Weight(Owners, s.threads[i]) > 0 ==> s.server.begun)
    && (s.server.phase == Starting ==> !s.server.begun)
    && (BeforeStore(s.threads[0]) ==> s.server.phase != Running && (s.server.phase == Starting || s.server.begun))
  }

  /** What an action may do to the thread that takes it. */
  predicate PlaceStep(sv: Server, t: Thread, mv: Move) {
    var sv' := ServerAfter(sv, mv.effect);
    && (IsStarter(mv.next) ==> IsStarter(t))
    && (mv.child.Some? ==> mv.child.value.Prober?)
    && (sv.begun ==> sv'.begun)
    && (Weight(Owners, mv.next) > 0 ==> Weight(Owners, t) > 0 || sv'.begun)
    && (BeforeStore(mv.next) ==> BeforeStore(t) && sv'.phase == sv.phase && sv'.begun == sv.begun)
  }

  /** What it may do to the phase: forward only, except that `Start` stores Running. */
  predicate PhaseStep(sv: Server, t: Thread, mv: Move) {
    var sv' := ServerAfter(sv, mv.effect);
    && (t == Start(Announcing) ==> mv.next == Start(Accepting) && sv' == sv.(phase := Running))
    && (t != Start(Announcing) ==> PhaseRank(sv.phase) <= PhaseRank(sv'.phase))
    && (sv'.begun && !sv.begun ==> sv'.phase == ShuttingDown)
    && (!IsStarter(t) && sv'.phase != sv.phase ==> sv'.begun && sv'.phase != Running)
  }

  lemma CallerPlace(s: State, i: nat, k: Caller, c: Choice, mv: Move)
    requires CallerMove(s, i, k, c) == Some(mv) && (Weight(Owners, Shutdown(k)) > 0 ==> s.server.begun)
    ensures PlaceStep(s.server, Shutdown(k), mv)
  {}

  lemma CallerPhase(s: State, i: nat, k: Caller, c: Choice, mv: Move)
    requires CallerMove(s, i, k, c) == Some(mv) && (Weight(Owners, Shutdown(k)) > 0 ==> s.server.begun)
    ensures PhaseStep(s.server, Shutdown(k), mv)
  {}

  lemma StarterPlace(s: State, i: nat, b: Starter, c: Choice, mv: Move)
    requires StarterMove(s, i, b, c) == Some(mv)
    ensures PlaceStep(s.server, Start(b), mv)
  {}

  lemma StarterPhase(s: State, i: nat, b: Starter, c: Choice, mv: Move)
    requires StarterMove(s, i, b, c) == Some(mv)
    ensures PhaseStep(s.server, Start(b), mv)
  {}

  lemma ReloaderPhase(s: State, i: nat, r: Reloader, c: Choice, mv: Move)
    requires ReloaderMove(s, i, r, c) == Some(mv)
    ensures PlaceStep(s.server, Reload(r), mv) && PhaseStep(s.server, Reload(r), mv)
  {}

  lemma StopPhase(s: State, g: nat, stage: Stage, why: Reason, mv: Move)
    requires StopMove(s, g, stage, why) == Some(mv) && (why == ByShutdown ==> s.server.begun)
    ensures PlaceStep(s.server, Stop(g, stage, why), mv) && PhaseStep(s.server, Stop(g, stage, why), mv)
  {}

  lemma PhaseStepHolds(s: State, i: nat, c: Choice, mv: Move)
    requires i < |s.threads| && MoveOf(s, i, c) == Some(mv)
    requires Weight(Owners, s.threads[i]) > 0 ==> s.server.begun
    ensures PlaceStep(s.server, s.threads[i], mv) && PhaseStep(s.server, s.threads[i], mv)
  {
    match s.threads[i]
    case Shutdown(k) =>
      CallerPlace(s, i, k, c, mv);
      CallerPhase(s, i, k, c, mv);
    case Start(b) =>
      StarterPlace(s, i, b, c, mv);
      StarterPhase(s, i, b, c, mv);
    case Reload(r) => ReloaderPhase(s, i, r, c, mv);
    case Stop(g, stage, why) => StopPhase(s, g, stage, why, mv);
    case _ =>
  }

  lemma RaceMove(s: State, i: nat, mv: Move)
    requires RaceInv(s) && i < |s.threads|
    requires PlaceStep(s.server, s.threads[i], mv) && PhaseStep(s.server, s.threads[i], mv)
    ensures RaceInv(Apply(s, i, mv))
  {}

  lemma RaceKeeps(s: State, e: Event, s': State)
    requires RaceInv(s) && Next(s, e) == Some(s')
    ensures RaceInv(s')
  {
    if e.Run? {
      var mv := MoveOf(s, e.i, e.c).value;
      PhaseStepHolds(s, e.i, e.c, mv);
      RaceMove(s, e.i, mv);
    }
  }

  lemma {:induction false} RaceRun(states: seq<State>, events: seq<Event>, k: nat)
    requires IsRun(states, events) && k < |states|
    ensures RaceInv(states[k])
  {
    if k > 0 {
      RaceRun(states, events, k - 1);
      RaceKeeps(states[k - 1], events[k - 1], states[k]);
    }
  }

  lemma BackwardStep(s: State, e: Event, s': State)
    requires RaceInv(s) && Next(s, e) == Some(s')
    ensures PhaseRank(s'.server.phase) < PhaseRank(s.server.phase) <==>
              e == Run(0, Go) && s.threads[0] == Start(Announcing) && s.server.begun
  {
    if e.Run? {
      PhaseStepHolds(s, e.i, e.c, MoveOf(s, e.i, e.c).value);
    }
  }

  /** In every run, ordered or not, the server state moves backward exactly when `Start` stores
      Running after a `Shutdown` has begun. */
  lemma BackwardExactly(states: seq<State>, events: seq<Event>, k: nat)
    requires IsRun(states, events) && k < |events|
    ensures PhaseRank(states[k + 1].server.phase) < PhaseRank(states[k].server.phase) <==>
              events[k] == Run(0, Go) && states[k].threads[0] == Start(Announcing) && states[k].server.begun
  {
    RaceRun(states, events, k);
    BackwardStep(states[k], events[k], states[k + 1]);
  }

  /** The state in which `Start` has stored `ready` but not yet its state. */
  function NearlyRunning(): State {
    var s := InitialState(0, false);
    s.(threads := [Start(Announcing)], server := s.server.(srv := true, listening := true, ready := true))
  }

  lemma ReachNearlyRunning() returns (states: seq<State>, events: seq<Event>)
    ensures |events| == 4 && IsRun(states, events) && states[4] == NearlyRunning()
  {
    var s0 := InitialState(0, false);
    var s1 := s0.(threads := [Start(Started(1))]);
    var s2 := s1.(threads := [Start(Listening(1))], server := s0.server.(srv := true));
    var s3 := s2.(threads := [Start(Bound)], server := s2.server.(listening := true));
    states := [s0, s1, s2, s3, NearlyRunning()];
    events := [StartServer, Run(0, Go), Run(0, Go), Run(0, Go)];
    assert s0.threads == [Start(Idle)];
    assert s0.threads[0 := Start(Started(1))] + [] == s1.threads;
    assert Next(s0, StartServer) == Some(s1);
    assert s1.threads[0 := Start(Listening(1))] + [] == s2.threads;
    assert Next(s1, Run(0, Go)) == Some(s2);
    assert s2.threads[0 := Start(Bound)] + [] == s3.threads;
    assert Next(s2, Run(0, Go)) == Some(s3);
    assert s3.threads[0 := Start(Announcing)] + [] == NearlyRunning().threads;
    assert Next(s3, Run(0, Go)) == Some(NearlyRunning());
  }

  /** From there a shutdown marks the server and `Start` overwrites it. */
  lemma Overwritten() returns (states: seq<State>, events: seq<Event>)
    ensures |events| == 5 && |states| == 6 && states[0] == NearlyRunning()
    ensures forall k :: 0 <= k < 5 ==> Next(states[k], events[k]) == Some(states[k + 1])
    ensures states[4].server.phase == ShuttingDown && states[5].server.phase == Running
  {
    var s4 := NearlyRunning();
    var marked := s4.server.(phase := ShuttingDown, begun := true);
    var s5 := s4.(threads := [Start(Announcing), Shutdown(Called)]);
    var s6 := s5.(writer := Pending(1));
    var s7 := s6.(threads := [Start(Announcing), Shutdown(Deciding)], writer := Held(1));
    var s8 := s7.(threads := [Start(Announcing), Shutdown(Marking)], server := marked);
    var s9 := s8.(threads := [Start(Accepting), Shutdown(Marking)], server := marked.(phase := Running));
    states := [s4, s5, s6, s7, s8, s9];
    events := [NewShutdown, Run(1, Go), Run(1, Go), Run(1, Go), Run(0, Go)];
    assert s4.threads + [Shutdown(Called)] == s5.threads;
    assert Next(s4, NewShutdown) == Some(s5);
    assert s5.threads[1 := Shutdown(Called)] + [] == s6.threads;
    assert Next(s5, Run(1, Go)) == Some(s6);
    assert s6.threads[1 := Shutdown(Deciding)] + [] == s7.threads;
    assert Next(s6, Run(1, Go)) == Some(s7);
    assert s7.threads[1 := Shutdown(Marking)] + [] == s8.threads;
    assert Next(s7, Run(1, Go)) == Some(s8);
    assert s8.threads[0 := Start(Accepting)] + [] == s9.threads;
    assert Next(s8, Run(0, Go)) == Some(s9);
  }

  /** A run in which the shutdown is lost. */
  lemma LostShutdown() returns (states: seq<State>, events: seq<Event>)
    ensures IsRun(states, events) && |events| == 9
    ensures states[8].server.phase == ShuttingDown && states[9].server.phase == Running
  {
    var before, past := ReachNearlyRunning();
    var after, rest := Overwritten();
    states, events := before + after[1..], past + rest;
    forall k | 0 <= k < 9
      ensures Next(states[k], events[k]) == Some(states[k + 1])
    {
      if k >= 4 {
        assert states[k] == after[k - 4] && states[k + 1] == after[k - 3] && events[k] == rest[k - 4];
      }
    }
  }
}
