/**
 The drain of one generation while the server goes on serving.

 A generation that a reload replaced or refused, that a shutdown captured, or whose server failed
 to listen, drains on its own:
 new requests, other reloads and every other thread leave alone what it still has to do, each of
 its own handlers and probers can always act without the lock, and each such action uses some of
 it up. Only a ticker that fires in a cancelled probe loop adds to it, since `select` may prefer
 the ticker to the cancelled context.
 */
module LifecycleDrain {
  import opened Options
  import opened Lifecycle
  import opened LifecycleTotals
  import opened LifecycleInvariant
  import opened LifecyclePreservation
  import opened LifecycleSafety
  import opened LifecycleProgress

  /** A handler routed to the generation or a prober of it that has not ended. */
  predicate Own(t: Thread, g: nat) {
    Weight(Remaining(g), t) > 0
  }

  /** The ticker of a probe loop of the generation fires. */
  predicate Ticks(t: Thread, c: Choice, g: nat) {
    t.Prober? && t.g == g && t.at == Looping && c == Tick
  }

  predicate OwnEvent(s: State, e: Event, g: nat) {
    e.Run? && e.i < |s.threads| && Own(s.threads[e.i], g)
  }

  predicate TickEvent(s: State, e: Event, g: nat) {
    e.Run? && e.i < |s.threads| && Ticks(s.threads[e.i], e.c, g)
  }

  /** The generation is complete, cancelled, and out of reach for handlers. */
  predicate Closing(sv: Server, rts: map<nat, Runtime>, g: nat) {
    g in sv.built && Cancelled(rts, g) && Unreachable(sv, g)
  }

  /** Thread `i` waits in `Stop` for the generation, or has returned from there. */
  predicate Draining(s: State, i: nat, g: nat) {
    && Closing(s.server, s.runtimes, g)
    && (g in s.server.retired
        || (i < |s.threads| && s.threads[i].Stop? && s.threads[i].g == g && s.threads[i].stage != Cancel))
  }

  // ---------------------------------------------------------------------------------------
  // One action
  // ---------------------------------------------------------------------------------------

  /** What an action of thread `t` may do to the work remaining for the generation. */
  predicate UsesUp(t: Thread, c: Choice, mv: Move, g: nat) {
    Delta(Remaining(g), t, mv) <= if Ticks(t, c, g) then 1 else if Own(t, g) then -1 else 0
  }

  lemma HandlerUsesUp(s: State, h: Handler, mv: Move, g: nat)
    requires HandlerMove(s, h) == Some(mv) && HandlerOk(s.server, s.runtimes, h) && Closing(s.server, s.runtimes, g)
    ensures UsesUp(Request(h), Go, mv, g)
  {}

  lemma ReloaderUsesUp(s: State, i: nat, r: Reloader, c: Choice, mv: Move, g: nat)
    requires ReloaderMove(s, i, r, c) == Some(mv) && ReloaderOk(s.server, s.runtimes, r)
    requires Closing(s.server, s.runtimes, g)
    ensures UsesUp(Reload(r), c, mv, g)
  {}

  lemma ProberUsesUp(s: State, x: nat, slot: nat, at: Probe, c: Choice, mv: Move, g: nat)
    requires ProberMove(s, x, slot, at, c) == Some(mv) && Closing(s.server, s.runtimes, g)
    ensures UsesUp(Prober(x, slot, at), c, mv, g)
  {}

  lemma ActionUsesUp(s: State, i: nat, c: Choice, mv: Move, g: nat)
    requires i < |s.threads| && MoveOf(s, i, c) == Some(mv) && ThreadOk(s.server, s.runtimes, s.threads[i])
    requires Closing(s.server, s.runtimes, g)
    ensures UsesUp(s.threads[i], c, mv, g)
  {
    match s.threads[i]
    case Request(h) => HandlerUsesUp(s, h, mv, g);
    case Reload(r) => ReloaderUsesUp(s, i, r, c, mv, g);
    case Prober(x, slot, at) => ProberUsesUp(s, x, slot, at, c, mv, g);
    case _ =>
  }

  /** Arrivals do not add to it either. */
  lemma EventUsesUp(s: State, e: Event, s': State, g: nat)
    requires Threads(s) && Next(s, e) == Some(s') && Closing(s.server, s.runtimes, g)
    ensures Total(s'.threads, Remaining(g)) + Bit(OwnEvent(s, e, g))
         <= Total(s.threads, Remaining(g)) + 2 * Bit(TickEvent(s, e, g))
  {
    match e
    case Run(i, c) =>
      ActionUsesUp(s, i, c, MoveOf(s, i, c).value, g);
      TotalsAfter(s, i, MoveOf(s, i, c).value);
    case StartServer => TotalsAfter(s, 0, StartMove(s));
    case NewRequest => TotalAppend(s.threads, Request(Arrived), Remaining(g));
    case NewShutdown => TotalAppend(s.threads, Shutdown(Called), Remaining(g));
    case NewReload(n, _) => TotalAppend(s.threads, Reload(Building(s.nextGeneration + 1, n, false)), Remaining(g));
  }

  /** The pointer never comes back to a generation that is being stopped. */
  lemma NeverReinstalled(s: State, s': State, i: nat, g: nat)
    requires Inv(s) && Inv(s') && Successor(s, s') && Draining(s, i, g)
    ensures Unreachable(s'.server, g)
  {
    if g !in s.server.retired {
      assert ThreadOk(s.server, s.runtimes, s.threads[i]);
      assert Follows(s.server, s.threads[i], s'.threads[i]);
      assert ThreadOk(s'.server, s'.runtimes, s'.threads[i]);
    }
  }

  lemma StopGoesOn(s: State, e: Event, s': State, i: nat, g: nat)
    requires Next(s, e) == Some(s') && i < |s.threads| && s.threads[i].Stop?
    requires s.threads[i].g == g && s.threads[i].stage != Cancel
    ensures g in s'.server.retired || (i < |s'.threads| && s'.threads[i] == Stop(g, DrainWorkers, s.threads[i].why))
         || (i < |s'.threads| && s'.threads[i] == s.threads[i])
  {}

  lemma DrainingKept(s: State, e: Event, s': State, i: nat, g: nat)
    requires Inv(s) && Inv(s') && Next(s, e) == Some(s') && Successor(s, s') && Draining(s, i, g)
    ensures Draining(s', i, g)
  {
    CancelLastsHolds(s, e, s', g);
    NeverReinstalled(s, s', i, g);
    if g !in s.server.retired {
      StopGoesOn(s, e, s', i, g);
    }
  }

  // ---------------------------------------------------------------------------------------
  // Runs
  // ---------------------------------------------------------------------------------------

  /** How many of the events from `j` up to `k` are the generation's own, or its ticks. */
  function OwnEvents(states: seq<State>, events: seq<Event>, j: nat, k: nat, g: nat): nat
    requires j <= k <= |events| && |states| == |events| + 1
  {
    if j == k then 0 else OwnEvents(states, events, j, k - 1, g) + Bit(OwnEvent(states[k - 1], events[k - 1], g))
  }

  function TickEvents(states: seq<State>, events: seq<Event>, j: nat, k: nat, g: nat): nat
    requires j <= k <= |events| && |states| == |events| + 1
  {
    if j == k then 0 else TickEvents(states, events, j, k - 1, g) + Bit(TickEvent(states[k - 1], events[k - 1], g))
  }

  /** One event keeps the drain going and is paid for. */
  predicate PaidFor(s: State, e: Event, s': State, i: nat, g: nat) {
    Draining(s, i, g) ==>
      && Draining(s', i, g)
      && Total(s'.threads, Remaining(g)) + Bit(OwnEvent(s, e, g))
         <= Total(s.threads, Remaining(g)) + 2 * Bit(TickEvent(s, e, g))
  }

  lemma EventPaidFor(states: seq<State>, events: seq<Event>, k: nat, i: nat, g: nat)
    requires IsOrderedRun(states, events) && Chain(states) && k < |events|
    ensures PaidFor(states[k], events[k], states[k + 1], i, g)
  {
    if Draining(states[k], i, g) {
      RunInv(states, events, k);
      RunInv(states, events, k + 1);
      EventUsesUp(states[k], events[k], states[k + 1], g);
      DrainingKept(states[k], events[k], states[k + 1], i, g);
    }
  }

  lemma {:induction false} DrainAccount(states: seq<State>, events: seq<Event>, j: nat, k: nat, i: nat, g: nat)
    requires |states| == |events| + 1 && j <= k < |states| && Draining(states[j], i, g)
    requires forall n :: 0 <= n < |events| ==> PaidFor(states[n], events[n], states[n + 1], i, g)
    ensures Draining(states[k], i, g)
    ensures OwnEvents(states, events, j, k, g) + Total(states[k].threads, Remaining(g))
         <= Total(states[j].threads, Remaining(g)) + 2 * TickEvents(states, events, j, k, g)
  {
    if j < k {
      DrainAccount(states, events, j, k - 1, i, g);
      assert PaidFor(states[k - 1], events[k - 1], states[k - 1 + 1], i, g);
    }
  }

  /** The server is draining the generation for a reload, a shutdown or a failed listen. */
  predicate Drains(t: Thread, g: nat) {
    t.Stop? && t.g == g && t.stage != Cancel && t.why != ByServe
  }

  lemma DrainsIsDraining(s: State, i: nat, g: nat)
    requires PhaseOk(s.server) && Threads(s) && i < |s.threads| && Drains(s.threads[i], g)
    ensures Draining(s, i, g)
  {
    assert ThreadOk(s.server, s.runtimes, s.threads[i]);
  }

  /** The drain behind a reload, a shutdown or a failed listen is bounded, whatever else happens: from the moment
      `Stop` has cancelled the generation, its handlers and probers act only as often as the work
      they had left then says, plus twice for each tick of a cancelled probe loop. Arrivals of
      requests, further reloads, panics, and all other threads add nothing. */
  lemma DrainBounded(states: seq<State>, events: seq<Event>, j: nat, k: nat, i: nat, g: nat)
    requires IsOrderedRun(states, events) && j <= k < |states|
    requires i < |states[j].threads| && Drains(states[j].threads[i], g)
    ensures OwnEvents(states, events, j, k, g) + Total(states[k].threads, Remaining(g))
         <= Total(states[j].threads, Remaining(g)) + 2 * TickEvents(states, events, j, k, g)
  {
    RunChain(states, events);
    RunInv(states, events, j);
    DrainsIsDraining(states[j], i, g);
    forall n | 0 <= n < |events|
      ensures PaidFor(states[n], events[n], states[n + 1], i, g)
    {
      EventPaidFor(states, events, n, i, g);
    }
    DrainAccount(states, events, j, k, i, g);
  }

  lemma OwnMoves(s: State, j: nat, g: nat)
    requires j < |s.threads| && Own(s.threads[j], g) && Closing(s.server, s.runtimes, g)
    ensures CanHappen(s, Run(j, Go))
  {}

  lemma StopMovesWhenEmpty(s: State, i: nat, g: nat)
    requires WaitGroups(s.threads, s.runtimes) && Threads(s) && i < |s.threads| && Drains(s.threads[i], g)
    requires Total(s.threads, Remaining(g)) == 0
    ensures CanHappen(s, Run(i, Go))
  {
    assert ThreadOk(s.server, s.runtimes, s.threads[i]);
    if RequestsOf(s.runtimes, g) > 0 {
      var j := TotalWitness(s.threads, InFlight(g));
      TotalMember(s.threads, j, Remaining(g));
    }
    if WorkersOf(s.runtimes, g) > 0 {
      var j := TotalWitness(s.threads, Workers(g));
      assert ThreadOk(s.server, s.runtimes, s.threads[j]);
      TotalMember(s.threads, j, Remaining(g));
    }
  }

  /** And it never waits for the lock or for another generation: at every moment each handler and
      prober it waits for can act at once, and when they have no work left `Stop` itself can. */
  lemma DrainNeverBlocked(states: seq<State>, events: seq<Event>, k: nat, i: nat, g: nat)
    requires IsOrderedRun(states, events) && k < |states|
    requires i < |states[k].threads| && Drains(states[k].threads[i], g)
    ensures forall j :: 0 <= j < |states[k].threads| && Own(states[k].threads[j], g) ==>
              CanHappen(states[k], Run(j, Go))
    ensures Total(states[k].threads, Remaining(g)) == 0 ==> CanHappen(states[k], Run(i, Go))
  {
    RunInv(states, events, k);
    DrainsIsDraining(states[k], i, g);
    forall j | 0 <= j < |states[k].threads| && Own(states[k].threads[j], g)
      ensures CanHappen(states[k], Run(j, Go))
    {
      OwnMoves(states[k], j, g);
    }
    if Total(states[k].threads, Remaining(g)) == 0 {
      StopMovesWhenEmpty(states[k], i, g);
    }
  }

  // ---------------------------------------------------------------------------------------
  // The drain alone
  // ---------------------------------------------------------------------------------------

  /** Steady events of the generation's own threads and of the `Stop` that waits for them. */
  ghost predicate DrainRun(states: seq<State>, events: seq<Event>, i: nat, g: nat) {
    && SteadyRun(states, events)
    && forall k :: 0 <= k < |events| ==> OwnEvent(states[k], events[k], g) || events[k] == Run(i, Go)
  }

  lemma DrainPrepend(s: State, e: Event, states: seq<State>, events: seq<Event>, i: nat, g: nat)
    requires DrainRun(states, events, i, g) && CanHappen(s, e) && Next(s, e) == Some(states[0])
    requires OwnEvent(s, e, g) || e == Run(i, Go)
    ensures DrainRun([s] + states, [e] + events, i, g)
  {
    Prepend(s, e, states, events);
    var states', events' := [s] + states, [e] + events;
    forall k | 0 <= k < |events'|
      ensures OwnEvent(states'[k], events'[k], g) || events'[k] == Run(i, Go)
    {
      if k > 0 {
        assert states'[k] == states[k - 1] && events'[k] == events[k - 1];
      }
    }
  }

  /** The next event of the drain: an own thread acts while one is left, then `Stop` does. */
  lemma DrainStep(s: State, i: nat, g: nat) returns (e: Event)
    requires PhaseOk(s.server) && Threads(s) && WaitGroups(s.threads, s.runtimes)
    requires i < |s.threads| && Drains(s.threads[i], g)
    ensures CanHappen(s, e) && CallersOrdered(s, e)
    ensures if Total(s.threads, Remaining(g)) == 0 then e == Run(i, Go)
            else OwnEvent(s, e, g) && e.c == Go && e.i != i
  {
    DrainsIsDraining(s, i, g);
    if Total(s.threads, Remaining(g)) == 0 {
      StopMovesWhenEmpty(s, i, g);
      e := Run(i, Go);
    } else {
      var j := TotalWitness(s.threads, Remaining(g));
      OwnMoves(s, j, g);
      e := Run(j, Go);
    }
  }

  lemma DrainStepOn(s: State, e: Event, s': State, i: nat, g: nat)
    requires i < |s.threads| && Drains(s.threads[i], g) && Next(s, e) == Some(s')
    requires if Total(s.threads, Remaining(g)) == 0 then e == Run(i, Go) else e.Run? && e.i != i
    ensures i < |s'.threads|
    ensures e != Run(i, Go) ==> s'.threads[i] == s.threads[i]
    ensures e == Run(i, Go) && s.threads[i].stage == DrainRequests ==>
              s'.threads[i] == Stop(g, DrainWorkers, s.threads[i].why)
    ensures e == Run(i, Go) && s.threads[i].stage == DrainWorkers ==> g in s'.server.retired
  {}

  lemma {:induction false} DrainFinishes(s: State, i: nat, g: nat) returns (states: seq<State>, events: seq<Event>)
    requires Inv(s) && i < |s.threads| && Drains(s.threads[i], g)
    ensures DrainRun(states, events, i, g) && states[0] == s && g in states[|events|].server.retired
    decreases Total(s.threads, Remaining(g)), s.threads[i].stage == DrainRequests
  {
    var e := DrainStep(s, i, g);
    var s' := Next(s, e).value;
    NextKeeps(s, e, s');
    DrainsIsDraining(s, i, g);
    EventUsesUp(s, e, s', g);
    DrainStepOn(s, e, s', i, g);
    if g in s'.server.retired {
      states, events := [s'], [];
    } else {
      states, events := DrainFinishes(s', i, g);
    }
    DrainPrepend(s, e, states, events, i, g);
    states, events := [s] + states, [e] + events;
  }

  /** So from every reachable state the drain can be finished by the generation's own handlers and
      probers and the waiting `Stop` alone: no other thread has to act, nobody has to let go of
      the lock, nothing has to fail and no deadline has to expire. */
  lemma DrainNeedsNoOther(before: seq<State>, past: seq<Event>, i: nat, g: nat)
    returns (states: seq<State>, events: seq<Event>)
    requires IsOrderedRun(before, past) && i < |before[|past|].threads| && Drains(before[|past|].threads[i], g)
    ensures DrainRun(states, events, i, g) && states[0] == before[|past|]
    ensures g in states[|events|].server.retired
  {
    RunInv(before, past, |past|);
    states, events := DrainFinishes(before[|past|], i, g);
  }
}
