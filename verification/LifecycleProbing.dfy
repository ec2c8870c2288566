/**
 Supervision of the health probers: the right to run the probe loop of a backend is neither
 duplicated nor lost. While a runtime is not cancelled every backend of it has exactly one prober
 that runs the loop or is about to run it again, whatever panics and restarts happen, unless the
 recovery of that prober itself panics.
 */
module LifecycleProbing {
  import opened Options
  import opened Lifecycle
  import opened LifecycleTotals
  import opened LifecycleInvariant
  import opened LifecyclePreservation
  import opened LifecycleSafety

  predicate Live(rts: map<nat, Runtime>, g: nat) {
    g in rts && !rts[g].cancelled
  }

  /** The recovery of a crashed prober of the backend panics itself, and the supervisor gives up. */
  predicate GivesUp(s: State, e: Event, g: nat, slot: nat) {
    e.Run? && e.c == Panic && e.i < |s.threads| && s.threads[e.i] == Prober(g, slot, Panicked)
  }

  // ---------------------------------------------------------------------------------------
  // One event
  // ---------------------------------------------------------------------------------------

  /** An action moves the right to probe at most from one thread to another. */
  predicate LoopsKept(rts: map<nat, Runtime>, t: Thread, c: Choice, mv: Move, g: nat, slot: nat) {
    Live(RuntimesAfter(rts, mv.effect), g) && !(t == Prober(g, slot, Panicked) && c == Panic) ==>
      Delta(Loops(g, slot), t, mv) == 0
  }

  lemma ReloaderLoops(s: State, i: nat, r: Reloader, c: Choice, mv: Move, g: nat, slot: nat)
    requires ReloaderMove(s, i, r, c) == Some(mv)
    ensures LoopsKept(s.runtimes, Reload(r), c, mv, g, slot)
  {}

  lemma ProberLoopsKept(s: State, x: nat, n: nat, at: Probe, c: Choice, mv: Move, g: nat, slot: nat)
    requires ProberMove(s, x, n, at, c) == Some(mv)
    ensures LoopsKept(s.runtimes, Prober(x, n, at), c, mv, g, slot)
  {}

  lemma CallerLoops(s: State, i: nat, k: Caller, c: Choice, mv: Move, g: nat, slot: nat)
    requires CallerMove(s, i, k, c) == Some(mv)
    ensures LoopsKept(s.runtimes, Shutdown(k), c, mv, g, slot)
  {}

  lemma StarterLoops(s: State, i: nat, b: Starter, c: Choice, mv: Move, g: nat, slot: nat)
    requires StarterMove(s, i, b, c) == Some(mv)
    ensures LoopsKept(s.runtimes, Start(b), c, mv, g, slot)
  {}

  lemma StopLoops(s: State, x: nat, stage: Stage, why: Reason, mv: Move, g: nat, slot: nat)
    requires StopMove(s, x, stage, why) == Some(mv)
    ensures LoopsKept(s.runtimes, Stop(x, stage, why), Go, mv, g, slot)
  {}

  lemma LoopsStep(s: State, i: nat, c: Choice, mv: Move, g: nat, slot: nat)
    requires i < |s.threads| && MoveOf(s, i, c) == Some(mv)
    ensures LoopsKept(s.runtimes, s.threads[i], c, mv, g, slot)
  {
    match s.threads[i]
    case Request(h) =>
    case Reload(r) => ReloaderLoops(s, i, r, c, mv, g, slot);
    case Stop(x, stage, why) => StopLoops(s, x, stage, why, mv, g, slot);
    case Shutdown(k) => CallerLoops(s, i, k, c, mv, g, slot);
    case Start(b) => StarterLoops(s, i, b, c, mv, g, slot);
    case Prober(x, n, at) => ProberLoopsKept(s, x, n, at, c, mv, g, slot);
  }

  /** An event leaves the loops of a live, numbered generation alone, and cancellation lasts. */
  predicate LoopsLink(s: State, e: Event, s': State, g: nat, slot: nat) {
    g in s.runtimes ==>
      && g in s'.runtimes
      && (Live(s'.runtimes, g) ==> Live(s.runtimes, g))
      && (Live(s'.runtimes, g) && !GivesUp(s, e, g, slot) ==>
            Total(s'.threads, Loops(g, slot)) == Total(s.threads, Loops(g, slot)))
  }

  lemma LoopsMove(s: State, i: nat, c: Choice, mv: Move, g: nat, slot: nat)
    requires i < |s.threads| && MoveOf(s, i, c) == Some(mv)
    ensures LoopsLink(s, Run(i, c), Apply(s, i, mv), g, slot)
  {
    LoopsStep(s, i, c, mv, g, slot);
    TotalsAfter(s, i, mv);
  }

  lemma LoopsStart(s: State, g: nat, slot: nat)
    requires |s.threads| > 0 && s.threads[0] == Start(Idle)
    ensures var s' := Apply(s, 0, StartMove(s));
      s'.runtimes == s.runtimes && Total(s'.threads, Loops(g, slot)) == Total(s.threads, Loops(g, slot))
  {
    TotalPut(s.threads, 0, Start(Started(s.server.active)), Loops(g, slot));
    assert Apply(s, 0, StartMove(s)).threads == s.threads[0 := Start(Started(s.server.active))];
  }

  lemma LoopsReload(s: State, n: nat, enabled: bool, g: nat, slot: nat)
    requires Generations(s)
    ensures LoopsLink(s, NewReload(n, enabled), WithReload(s, n, enabled), g, slot)
  {
    TotalAppend(s.threads, Reload(Building(s.nextGeneration + 1, n, false)), Loops(g, slot));
  }

  lemma LoopsArrival(s: State, e: Event, s': State, g: nat, slot: nat)
    requires !e.Run? && Generations(s) && Next(s, e) == Some(s')
    ensures LoopsLink(s, e, s', g, slot)
  {
    match e
    case StartServer => LoopsStart(s, g, slot);
    case NewRequest => TotalAppend(s.threads, Request(Arrived), Loops(g, slot));
    case NewShutdown => TotalAppend(s.threads, Shutdown(Called), Loops(g, slot));
    case NewReload(n, enabled) => LoopsReload(s, n, enabled, g, slot);
    case _ =>
  }

  lemma LoopsEvent(s: State, e: Event, s': State, g: nat, slot: nat)
    requires Generations(s) && Next(s, e) == Some(s')
    ensures LoopsLink(s, e, s', g, slot)
  {
    if e.Run? {
      LoopsMove(s, e.i, e.c, MoveOf(s, e.i, e.c).value, g, slot);
    } else {
      LoopsArrival(s, e, s', g, slot);
    }
  }

  // ---------------------------------------------------------------------------------------
  // Runs
  // ---------------------------------------------------------------------------------------

  /** No recovery of the backend's prober panics from event `j` up to event `k`. */
  ghost predicate NeverGivesUp(states: seq<State>, events: seq<Event>, j: nat, k: nat, g: nat, slot: nat)
    requires |states| == |events| + 1 && j <= k <= |events|
  {
    forall n :: j <= n < k ==> !GivesUp(states[n], events[n], g, slot)
  }

  lemma {:induction false} LoopsSame(states: seq<State>, events: seq<Event>, j: nat, k: nat, g: nat, slot: nat)
    requires |states| == |events| + 1 && j <= k < |states|
    requires forall n :: 0 <= n < |events| ==> LoopsLink(states[n], events[n], states[n + 1], g, slot)
    requires g in states[j].runtimes && NeverGivesUp(states, events, j, k, g, slot)
    ensures g in states[k].runtimes
    ensures Live(states[k].runtimes, g) ==>
              Total(states[k].threads, Loops(g, slot)) == Total(states[j].threads, Loops(g, slot))
  {
    if j < k {
      LoopsSame(states, events, j, k - 1, g, slot);
      assert LoopsLink(states[k - 1], events[k - 1], states[k - 1 + 1], g, slot);
    }
  }

  /** The loops of a live generation are conserved over any stretch of an ordered run. */
  lemma LoopsConserved(states: seq<State>, events: seq<Event>, j: nat, k: nat, g: nat, slot: nat)
    requires IsOrderedRun(states, events) && j <= k < |states|
    requires g in states[j].runtimes && NeverGivesUp(states, events, j, k, g, slot)
    requires Live(states[k].runtimes, g)
    ensures Total(states[k].threads, Loops(g, slot)) == Total(states[j].threads, Loops(g, slot))
  {
    forall n | 0 <= n < |events|
      ensures LoopsLink(states[n], events[n], states[n + 1], g, slot)
    {
      RunInv(states, events, n);
      LoopsEvent(states[n], events[n], states[n + 1], g, slot);
    }
    LoopsSame(states, events, j, k, g, slot);
  }

  /** When a complete runtime has one loop holder for a backend, that holder is a prober. */
  lemma HolderIsProber(s: State, g: nat, slot: nat) returns (i: nat)
    requires Threads(s) && g in s.server.built && Total(s.threads, Loops(g, slot)) == 1
    ensures i < |s.threads| && HoldsLoop(s.threads[i], g, slot)
    ensures forall j :: 0 <= j < |s.threads| && HoldsLoop(s.threads[j], g, slot) ==> j == i
  {
    i := TotalWitness(s.threads, Loops(g, slot));
    assert ThreadOk(s.server, s.runtimes, s.threads[i]);
    OnlyBearer(s.threads, i, Loops(g, slot));
  }

  lemma NewLoops(s: State, backends: nat, enabled: bool, slot: nat)
    requires Generations(s) && WaitGroups(s.threads, s.runtimes)
    ensures var s' := WithReload(s, backends, enabled);
      Total(s'.threads, Loops(s'.nextGeneration, slot)) == Bit(slot < backends)
  {
    var g := s.nextGeneration + 1;
    TotalAppend(s.threads, Reload(Building(g, backends, false)), Loops(g, slot));
  }

  lemma NewGeneration(states: seq<State>, events: seq<Event>, m: nat, backends: nat, enabled: bool, slot: nat)
    requires IsOrderedRun(states, events) && m < |events| && events[m] == NewReload(backends, enabled)
    ensures states[m + 1].nextGeneration in states[m + 1].runtimes
    ensures Total(states[m + 1].threads, Loops(states[m + 1].nextGeneration, slot)) == Bit(slot < backends)
  {
    RunInv(states, events, m);
    NewLoops(states[m], backends, enabled, slot);
  }

  /** Every backend of a complete runtime that a reload built has exactly one prober that runs its
      probe loop or is about to, at every moment until the runtime is cancelled. */
  lemma EveryBackendProbed(states: seq<State>, events: seq<Event>, m: nat, k: nat,
                           backends: nat, enabled: bool, slot: nat)
    returns (i: nat)
    requires IsOrderedRun(states, events) && m < k < |states| && events[m] == NewReload(backends, enabled)
    requires slot < backends
    requires var g := states[m + 1].nextGeneration;
      && g in states[k].server.built && Live(states[k].runtimes, g)
      && NeverGivesUp(states, events, m + 1, k, g, slot)
    ensures var g := states[m + 1].nextGeneration;
      && i < |states[k].threads| && HoldsLoop(states[k].threads[i], g, slot)
      && forall j :: 0 <= j < |states[k].threads| && HoldsLoop(states[k].threads[j], g, slot) ==> j == i
  {
    var g := states[m + 1].nextGeneration;
    NewGeneration(states, events, m, backends, enabled, slot);
    LoopsConserved(states, events, m + 1, k, g, slot);
    RunInv(states, events, k);
    i := HolderIsProber(states[k], g, slot);
  }

  /** The same holds for the runtime the server began with. */
  lemma FirstBackendsProbed(states: seq<State>, events: seq<Event>, k: nat, probers: nat, enabled: bool, slot: nat)
    returns (i: nat)
    requires IsOrderedRun(states, events) && k < |states| && states[0] == InitialState(probers, enabled)
    requires slot < probers && Live(states[k].runtimes, 1) && NeverGivesUp(states, events, 0, k, 1, slot)
    ensures i < |states[k].threads| && HoldsLoop(states[k].threads[i], 1, slot)
    ensures forall j :: 0 <= j < |states[k].threads| && HoldsLoop(states[k].threads[j], 1, slot) ==> j == i
  {
    assert states[0].threads == InitialThreads(probers);
    InitialLoops(probers, 1, slot);
    LoopsConserved(states, events, 0, k, 1, slot);
    FirstIsBuilt(states, events, k);
    RunInv(states, events, k);
    i := HolderIsProber(states[k], 1, slot);
  }

  lemma {:induction false} BuiltStays(states: seq<State>, j: nat, k: nat, g: nat)
    requires Chain(states) && j <= k < |states| && g in states[j].server.built
    ensures g in states[k].server.built
  {
    if j < k {
      BuiltStays(states, j, k - 1, g);
      assert Successor(states[k - 1], states[k]);
    }
  }

  lemma FirstIsBuilt(states: seq<State>, events: seq<Event>, k: nat)
    requires IsOrderedRun(states, events) && k < |states|
    ensures 1 in states[k].server.built
  {
    var probers, enabled :| states[0] == InitialState(probers, enabled);
    RunChain(states, events);
    BuiltStays(states, 0, k, 1);
  }
}
