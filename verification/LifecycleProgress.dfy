/**
 Progress: no reachable state is stuck, although nothing fails and no deadline expires, and
 without new arrivals, panics and probe ticks every run is finite and ends with all reloads and
 shutdowns returned.
 */
module LifecycleProgress {
  import opened Options
  import opened Lifecycle
  import opened LifecycleTotals
  import opened LifecycleInvariant
  import opened LifecyclePreservation

  /** The thread has nothing left to do: it has returned, it serves connections of a server that
      nobody shuts down, or it is a prober whose runtime has not been cancelled. */
  predicate AtRest(sv: Server, rts: map<nat, Runtime>, t: Thread) {
    match t
    case Request(h) => h.Answered?
    case Reload(r) => r.BuildFailed? || r.Reloaded?
    case Stop(_, _, _) => false
    case Shutdown(c) => c.Returned?
    case Start(b) => b.Idle? || (b.Accepting? && !sv.begun) || b.Ended?
    case Prober(g, _, at) => at == Gone || (at == Looping && !Cancelled(rts, g))
  }

  /** An action of an existing thread that is neither a panic nor a probe tick. */
  predicate Progress(s: State, e: Event) {
    && e.Run?
    && e.i < |s.threads|
    && e.c != Panic
    && !(e.c == Tick && s.threads[e.i].Prober? && s.threads[e.i].at == Looping)
  }

  /** Such an action that the program takes by itself: nothing outside it fails and no deadline
      of a graceful shutdown expires. */
  predicate Steady(s: State, e: Event) {
    Progress(s, e) && e.c != Fail && e.c != Timeout
  }

  predicate CanHappen(s: State, e: Event) {
    Steady(s, e) && Next(s, e).Some?
  }

  function Measure(s: State): nat {
    2 * Total(s.threads, Work) + Bit(s.writer == Free)
  }

  // ---------------------------------------------------------------------------------------
  // Progress is finite
  // ---------------------------------------------------------------------------------------

  /** The thread has less left to do, or it has just announced itself at the free lock. */
  predicate Shrinks(s: State, t: Thread, mv: Move) {
    Delta(Work, t, mv) < 0 || (mv == Move(t, None, Announce) && s.writer == Free)
  }

  lemma HandlerShrinks(s: State, h: Handler, mv: Move)
    requires HandlerMove(s, h) == Some(mv)
    ensures Shrinks(s, Request(h), mv)
  {}

  lemma ReloaderShrinks(s: State, i: nat, r: Reloader, c: Choice, mv: Move)
    requires ReloaderMove(s, i, r, c) == Some(mv)
    ensures Shrinks(s, Reload(r), mv)
  {}

  lemma StopShrinks(s: State, g: nat, stage: Stage, why: Reason, mv: Move)
    requires StopMove(s, g, stage, why) == Some(mv)
    ensures Shrinks(s, Stop(g, stage, why), mv)
  {}

  lemma CallerShrinks(s: State, i: nat, k: Caller, c: Choice, mv: Move)
    requires CallerMove(s, i, k, c) == Some(mv)
    ensures Shrinks(s, Shutdown(k), mv)
  {}

  lemma StarterShrinks(s: State, i: nat, b: Starter, c: Choice, mv: Move)
    requires StarterMove(s, i, b, c) == Some(mv)
    ensures Shrinks(s, Start(b), mv)
  {}

  lemma ProberShrinks(s: State, g: nat, slot: nat, at: Probe, c: Choice, mv: Move)
    requires ProberMove(s, g, slot, at, c) == Some(mv) && c != Panic && !(c == Tick && at == Looping)
    ensures Shrinks(s, Prober(g, slot, at), mv)
  {}

  lemma WorkShrinks(s: State, i: nat, c: Choice, mv: Move)
    requires i < |s.threads| && MoveOf(s, i, c) == Some(mv) && Progress(s, Run(i, c))
    ensures Shrinks(s, s.threads[i], mv)
  {
    match s.threads[i]
    case Request(h) => HandlerShrinks(s, h, mv);
    case Reload(r) => ReloaderShrinks(s, i, r, c, mv);
    case Stop(g, stage, why) => StopShrinks(s, g, stage, why, mv);
    case Shutdown(k) => CallerShrinks(s, i, k, c, mv);
    case Start(b) => StarterShrinks(s, i, b, c, mv);
    case Prober(g, slot, at) => ProberShrinks(s, g, slot, at, c, mv);
  }

  lemma ProgressShrinks(s: State, e: Event, s': State)
    requires Progress(s, e) && Next(s, e) == Some(s')
    ensures Measure(s') < Measure(s)
  {
    var mv := MoveOf(s, e.i, e.c).value;
    WorkShrinks(s, e.i, e.c, mv);
    TotalsAfter(s, e.i, mv);
  }

  /** Successive states joined by progress events only. */
  ghost predicate ProgressRun(states: seq<State>, events: seq<Event>) {
    && |states| == |events| + 1
    && forall k :: 0 <= k < |events| ==>
         Progress(states[k], events[k]) && Next(states[k], events[k]) == Some(states[k + 1])
  }

  lemma {:induction false} ProgressBounded(states: seq<State>, events: seq<Event>)
    requires ProgressRun(states, events)
    ensures |events| + Measure(states[|events|]) <= Measure(states[0])
  {
    if |events| > 0 {
      var n := |events| - 1;
      ProgressBounded(states[..n + 1], events[..n]);
      ProgressShrinks(states[n], events[n], states[n + 1]);
    }
  }

  // ---------------------------------------------------------------------------------------
  // No state is stuck
  // ---------------------------------------------------------------------------------------

  /** A holder of the write lock can always go on, and so can a holder of the read lock. */
  lemma HoldersMove(s: State, i: nat)
    requires i < |s.threads| && (Critical(s.threads[i]) || Weight(Readers, s.threads[i]) > 0)
    ensures CanHappen(s, Run(i, Go))
  {}

  /** A thread that wants the lock waits only for threads that can go on. */
  lemma LockMoves(s: State, i: nat) returns (e: Event)
    requires LockDiscipline(s) && s.readers == Total(s.threads, Readers)
    requires i < |s.threads| && (AtLock(s.threads[i]) || s.threads[i] == Request(Arrived))
    ensures CanHappen(s, e)
  {
    match s.writer
    case Free => e := Run(i, Go);
    case Held(j) =>
      HoldersMove(s, j);
      e := Run(j, Go);
    case Pending(j) =>
      if s.readers == 0 {
        e := Run(j, Go);
      } else {
        var r := TotalWitness(s.threads, Readers);
        HoldersMove(s, r);
        e := Run(r, Go);
      }
  }

  /** `Stop` waits only for requests and workers that can go on. */
  lemma StopMoves(s: State, i: nat) returns (e: Event)
    requires WaitGroups(s.threads, s.runtimes) && i < |s.threads| && s.threads[i].Stop?
    requires ThreadOk(s.server, s.runtimes, s.threads[i])
    ensures CanHappen(s, e)
  {
    var g := s.threads[i].g;
    e := Run(i, Go);
    if s.threads[i].stage == DrainRequests && RequestsOf(s.runtimes, g) != 0 {
      var j := TotalWitness(s.threads, InFlight(g));
      e := Run(j, Go);
    } else if s.threads[i].stage == DrainWorkers && WorkersOf(s.runtimes, g) != 0 {
      var j := TotalWitness(s.threads, Workers(g));
      e := Run(j, Go);
    }
  }

  /** `http.Server.Shutdown` waits only for handlers on their way in, and these for the lock. */
  lemma HttpDrainMoves(s: State, i: nat) returns (e: Event)
    requires LockDiscipline(s) && s.readers == Total(s.threads, Readers)
    requires i < |s.threads| && s.threads[i].Shutdown? && (s.threads[i].c.Owning? || s.threads[i].c.Forcing?)
    ensures CanHappen(s, e)
  {
    e := Run(i, Go);
    if !HttpDrained(s) {
      var j := TotalWitness(s.threads, Entering);
      if s.threads[j] == Request(Arrived) {
        e := LockMoves(s, j);
      } else {
        HoldersMove(s, j);
        e := Run(j, Go);
      }
    }
  }

  /** Every thread that is neither at rest nor waiting for the shutdown owner leads to an
      action that can happen. */
  lemma ThreadMoves(s: State, i: nat) returns (e: Event)
    requires LockDiscipline(s) && s.readers == Total(s.threads, Readers) && WaitGroups(s.threads, s.runtimes)
    requires i < |s.threads| && ThreadOk(s.server, s.runtimes, s.threads[i])
    requires !AtRest(s.server, s.runtimes, s.threads[i]) && s.threads[i] != Shutdown(Waiting)
    ensures CanHappen(s, e)
  {
    var t := s.threads[i];
    if AtLock(t) || t == Request(Arrived) {
      e := LockMoves(s, i);
    } else if t.Stop? {
      e := StopMoves(s, i);
    } else if t.Shutdown? && (t.c.Owning? || t.c.Forcing?) {
      e := HttpDrainMoves(s, i);
    } else if t.Prober? && t.at == Panicked {
      e := Run(i, Tick);
    } else {
      e := Run(i, Go);
    }
  }

  /** A caller that waits for `shutdownDone` waits for the owner, unless the channel is closed. */
  lemma WaiterMoves(s: State, i: nat) returns (e: Event)
    requires LockDiscipline(s) && Counters(s) && WaitGroups(s.threads, s.runtimes) && Threads(s)
    requires i < |s.threads| && s.threads[i] == Shutdown(Waiting)
    ensures CanHappen(s, e)
  {
    assert ThreadOk(s.server, s.runtimes, s.threads[i]);
    if s.server.closes > 0 {
      e := Run(i, Go);
    } else {
      var owner := TotalWitness(s.threads, Owners);
      e := ThreadMoves(s, owner);
    }
  }

  /** No state of an ordered run is stuck: unless every thread is at rest, some lock, release,
      drain or worker action can happen, although nothing fails and no deadline expires. */
  lemma NotStuck(s: State, i: nat) returns (e: Event)
    requires Inv(s) && i < |s.threads| && !AtRest(s.server, s.runtimes, s.threads[i])
    ensures CanHappen(s, e) && CallersOrdered(s, e)
  {
    if s.threads[i] == Shutdown(Waiting) {
      e := WaiterMoves(s, i);
    } else {
      e := ThreadMoves(s, i);
    }
  }

  /** The thread waits for `requestWG`, for `workerWG`, for the HTTP server or for `shutdownDone`. */
  predicate Waits(t: Thread) {
    t.Stop? || (t.Shutdown? && (t.c.Owning? || t.c.Forcing? || t.c.Waiting?))
  }

  /** No thread that waits for a drain or for `shutdownDone` holds the lock. */
  lemma WaitersHoldNoLock(states: seq<State>, events: seq<Event>, k: nat, i: nat)
    requires IsOrderedRun(states, events) && k < |states| && i < |states[k].threads|
    requires Waits(states[k].threads[i])
    ensures states[k].writer != Held(i) && Weight(Readers, states[k].threads[i]) == 0
  {
    RunInv(states, events, k);
  }

  lemma {:induction false} ProgressKeepsInv(states: seq<State>, events: seq<Event>, k: nat)
    requires ProgressRun(states, events) && Inv(states[0]) && k < |states|
    ensures Inv(states[k])
  {
    if k > 0 {
      ProgressKeepsInv(states, events, k - 1);
      NextKeeps(states[k - 1], events[k - 1], states[k]);
    }
  }

  ghost predicate AllAtRest(s: State) {
    forall i :: 0 <= i < |s.threads| ==> AtRest(s.server, s.runtimes, s.threads[i])
  }

  /** From any state of an ordered run, progress events alone, failures and expired deadlines
      included, can happen only so often as the measure says. When no steady one can happen any
      more, every reload, every shutdown call and every request has returned and every cancelled
      prober is gone. */
  lemma DrainsEnd(before: seq<State>, past: seq<Event>, states: seq<State>, events: seq<Event>)
    requires IsOrderedRun(before, past) && ProgressRun(states, events) && states[0] == before[|past|]
    ensures |events| <= Measure(states[0])
    ensures (forall e :: !CanHappen(states[|events|], e)) ==> AllAtRest(states[|events|])
  {
    ProgressBounded(states, events);
    RunInv(before, past, |past|);
    ProgressKeepsInv(states, events, |events|);
    var s := states[|events|];
    if forall e :: !CanHappen(s, e) {
      forall i | 0 <= i < |s.threads|
        ensures AtRest(s.server, s.runtimes, s.threads[i])
      {
        if !AtRest(s.server, s.runtimes, s.threads[i]) {
          var e := NotStuck(s, i);
        }
      }
    }
  }

  /** Successive states joined by steady events only. */
  ghost predicate SteadyRun(states: seq<State>, events: seq<Event>) {
    && |states| == |events| + 1
    && forall k :: 0 <= k < |events| ==>
         Steady(states[k], events[k]) && Next(states[k], events[k]) == Some(states[k + 1])
  }

  lemma {:induction false} CanFinish(s: State) returns (states: seq<State>, events: seq<Event>)
    requires Inv(s)
    ensures SteadyRun(states, events) && states[0] == s && AllAtRest(states[|events|])
    decreases Measure(s)
  {
    if AllAtRest(s) {
      states, events := [s], [];
    } else {
      var i :| 0 <= i < |s.threads| && !AtRest(s.server, s.runtimes, s.threads[i]);
      var e := NotStuck(s, i);
      var s' := Next(s, e).value;
      NextKeeps(s, e, s');
      ProgressShrinks(s, e, s');
      states, events := CanFinish(s');
      Prepend(s, e, states, events);
      states, events := [s] + states, [e] + events;
    }
  }

  lemma Prepend(s: State, e: Event, states: seq<State>, events: seq<Event>)
    requires SteadyRun(states, events) && CanHappen(s, e) && Next(s, e) == Some(states[0])
    ensures SteadyRun([s] + states, [e] + events)
  {
    var states', events' := [s] + states, [e] + events;
    forall k | 0 <= k < |events'|
      ensures Steady(states'[k], events'[k]) && Next(states'[k], events'[k]) == Some(states'[k + 1])
    {
      if k > 0 {
        assert states'[k] == states[k - 1] && events'[k] == events[k - 1] && states'[k + 1] == states[k];
      }
    }
  }

  /** From every state of every ordered run the threads present can all be brought to rest by
      steady events alone: no failure and no expired deadline is needed. */
  lemma EveryDrainCanFinish(before: seq<State>, past: seq<Event>) returns (states: seq<State>, events: seq<Event>)
    requires IsOrderedRun(before, past)
    ensures SteadyRun(states, events) && states[0] == before[|past|] && AllAtRest(states[|events|])
  {
    RunInv(before, past, |past|);
    states, events := CanFinish(before[|past|]);
  }
}
