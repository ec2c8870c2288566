/** Safety over whole runs: what holds at one moment keeps holding at every later one. */
module LifecycleSafety {
  import opened Options
  import opened Lifecycle
  import opened LifecycleTotals
  import opened LifecycleInvariant
  import opened LifecyclePreservation

  /** The generation a request has acquired, for the rest of its life. */
  function RoutedBy(t: Thread): Option<nat> {
    if t.Request? && !t.h.Arrived? && !t.h.ReadLocked? && !t.h.Loaded? then Some(t.h.g) else None
  }

  /** The reload's new runtime has been installed. */
  predicate Accepted(t: Thread) {
    || (t.Reload? && (t.r.Swapped? || (t.r.Reloaded? && t.r.accepted)))
    || (t.Stop? && t.why == Replaced)
  }

  /** What one event may do to the server record. */
  predicate Onward(sv: Server, sv': Server) {
    && sv.built <= sv'.built
    && sv.retired <= sv'.retired
    && (sv.httpClosed ==> sv'.httpClosed)
    && (LeftRunning(sv) ==> sv'.listening == sv.listening)
    && (sv'.active == sv.active || (sv.phase == Running && sv'.phase == Running && sv'.active !in sv.retired))
    && (sv.phase == Running ==> sv'.phase != Starting)
    && (sv.phase == ShuttingDown ==> sv'.phase == ShuttingDown || sv'.phase == Stopped)
    && (sv.phase == Stopped ==> sv'.phase == Stopped && sv'.shutdownErr == sv.shutdownErr)
    && (sv.closes > 0 ==> sv'.closes == sv.closes && sv'.shutdownErr == sv.shutdownErr && sv'.phase == sv.phase)
  }

  /** What one action may do to the thread that takes it. */
  predicate Follows(sv: Server, t: Thread, next: Thread) {
    && (RoutedBy(t).Some? ==> RoutedBy(next) == RoutedBy(t))
    && (RoutedBy(t).None? && RoutedBy(next).Some? ==> RoutedBy(next) == Some(sv.active) && Serves(sv))
    && (Accepted(next) ==> Accepted(t) || sv.phase == Running)
    && (t.Stop? ==> (next.Stop? && next.g == t.g) || next == AfterStop(t.g, t.why))
  }

  // ---------------------------------------------------------------------------------------
  // One event
  // ---------------------------------------------------------------------------------------

  lemma FollowsHolds(s: State, i: nat, c: Choice, mv: Move)
    requires i < |s.threads| && MoveOf(s, i, c) == Some(mv) && ThreadOk(s.server, s.runtimes, s.threads[i])
    ensures Follows(s.server, s.threads[i], mv.next)
    ensures mv.child.Some? ==> RoutedBy(mv.child.value).None? && !Accepted(mv.child.value)
    ensures s.threads[i].Stop? && !mv.next.Stop? ==> s.threads[i].g in ServerAfter(s.server, mv.effect).retired
  {}

  lemma ReloaderOnward(s: State, i: nat, r: Reloader, c: Choice, mv: Move)
    requires ReloaderMove(s, i, r, c) == Some(mv) && Before(s, Reload(r))
    ensures Onward(s.server, ServerAfter(s.server, mv.effect))
  {}

  lemma CallerOnward(s: State, i: nat, k: Caller, c: Choice, mv: Move)
    requires CallerMove(s, i, k, c) == Some(mv) && Before(s, Shutdown(k))
    ensures Onward(s.server, ServerAfter(s.server, mv.effect))
  {}

  lemma StarterOnward(s: State, i: nat, b: Starter, c: Choice, mv: Move)
    requires StarterMove(s, i, b, c) == Some(mv) && Before(s, Start(b))
    ensures Onward(s.server, ServerAfter(s.server, mv.effect))
  {}

  lemma StopOnward(s: State, g: nat, stage: Stage, why: Reason, mv: Move)
    requires StopMove(s, g, stage, why) == Some(mv)
    ensures Onward(s.server, ServerAfter(s.server, mv.effect))
  {}

  lemma OnwardHolds(s: State, i: nat, c: Choice, mv: Move)
    requires i < |s.threads| && MoveOf(s, i, c) == Some(mv) && Before(s, s.threads[i])
    ensures Onward(s.server, ServerAfter(s.server, mv.effect))
  {
    match s.threads[i]
    case Reload(r) => ReloaderOnward(s, i, r, c, mv);
    case Shutdown(k) => CallerOnward(s, i, k, c, mv);
    case Start(b) => StarterOnward(s, i, b, c, mv);
    case Stop(g, stage, why) => StopOnward(s, g, stage, why, mv);
    case _ =>
  }

  /** Between two successive states of a run: the server moves onward, every old thread
      follows itself, and a new thread has no past. */
  ghost predicate Successor(s: State, s': State) {
    && Onward(s.server, s'.server)
    && |s.threads| <= |s'.threads|
    && (forall i :: 0 <= i < |s.threads| ==>
          || s'.threads[i] == s.threads[i]
          || Follows(s.server, s.threads[i], s'.threads[i]))
    && (forall i :: 0 <= i < |s.threads| && s.threads[i].Stop? ==>
          || (s'.threads[i].Stop? && s'.threads[i].g == s.threads[i].g)
          || s.threads[i].g in s'.server.retired)
    && (forall i :: |s.threads| <= i < |s'.threads| ==>
          RoutedBy(s'.threads[i]).None? && !Accepted(s'.threads[i]))
  }

  lemma MoveSuccessor(s: State, i: nat, c: Choice, mv: Move)
    requires i < |s.threads| && MoveOf(s, i, c) == Some(mv) && Before(s, s.threads[i])
    ensures Successor(s, Apply(s, i, mv))
  {
    OnwardHolds(s, i, c, mv);
    FollowsHolds(s, i, c, mv);
  }

  lemma ArrivalSuccessor(s: State, e: Event, s': State)
    requires !e.Run? && Next(s, e) == Some(s')
    ensures Successor(s, s')
  {}

  lemma SuccessorHolds(s: State, e: Event, s': State)
    requires Inv(s) && Next(s, e) == Some(s')
    ensures Successor(s, s')
  {
    if e.Run? {
      StandingHolds(s, e.i);
      MoveSuccessor(s, e.i, e.c, MoveOf(s, e.i, e.c).value);
    } else {
      ArrivalSuccessor(s, e, s');
    }
  }

  // ---------------------------------------------------------------------------------------
  // Runs
  // ---------------------------------------------------------------------------------------

  /** Every state is followed by a successor. */
  ghost predicate Chain(states: seq<State>) {
    forall k :: 0 <= k < |states| - 1 ==> Successor(states[k], states[k + 1])
  }

  lemma RunChain(states: seq<State>, events: seq<Event>)
    requires IsOrderedRun(states, events)
    ensures Chain(states)
  {
    forall k | 0 <= k < |states| - 1
      ensures Successor(states[k], states[k + 1])
    {
      RunInv(states, events, k);
      SuccessorHolds(states[k], events[k], states[k + 1]);
    }
  }

  /** No worker of generation `g` is left and every prober of it has ended. */
  ghost predicate ProbersGone(s: State, g: nat) {
    && WorkersOf(s.runtimes, g) == 0
    && (forall i :: 0 <= i < |s.threads| && s.threads[i].Prober? && s.threads[i].g == g ==> s.threads[i].at == Gone)
  }

  lemma RetiredHasNoProber(s: State, g: nat)
    requires Inv(s) && g in s.server.retired
    ensures ProbersGone(s, g)
  {
    assert DrainOk(s.server, s.runtimes, g);
    forall i | 0 <= i < |s.threads| && s.threads[i].Prober? && s.threads[i].g == g
      ensures s.threads[i].at == Gone
    {
      TotalMember(s.threads, i, Workers(g));
    }
  }

  /** Nothing of generation `g` is left: no request, no worker, no live handler or prober. */
  ghost predicate Silent(s: State, g: nat) {
    && RequestsOf(s.runtimes, g) == 0
    && ProbersGone(s, g)
    && (forall i :: 0 <= i < |s.threads| && RoutedBy(s.threads[i]) == Some(g) ==> s.threads[i].h.Answered?)
  }

  lemma RetiredIsSilent(s: State, g: nat)
    requires Inv(s) && g in s.server.retired && Unreachable(s.server, g)
    ensures Silent(s, g)
  {
    RetiredHasNoProber(s, g);
    assert DrainOk(s.server, s.runtimes, g);
    forall i | 0 <= i < |s.threads| && RoutedBy(s.threads[i]) == Some(g)
      ensures s.threads[i].h.Answered?
    {
      TotalMember(s.threads, i, InFlight(g));
    }
  }

  /** The requests of generation `g` at the later state are those of the earlier one. */
  ghost predicate NoneSince(s: State, s': State, g: nat) {
    && |s.threads| <= |s'.threads|
    && forall i :: 0 <= i < |s'.threads| && RoutedBy(s'.threads[i]) == Some(g) ==>
         i < |s.threads| && RoutedBy(s.threads[i]) == Some(g)
  }

  lemma {:induction false} RetiredForever(states: seq<State>, j: nat, k: nat, g: nat)
    requires Chain(states) && j <= k < |states|
    requires g in states[j].server.retired && Unreachable(states[j].server, g)
    ensures g in states[k].server.retired && Unreachable(states[k].server, g)
    ensures NoneSince(states[j], states[k], g)
  {
    if j < k {
      RetiredForever(states, j, k - 1, g);
      assert Successor(states[k - 1], states[k]);
    }
  }

  /** Once `Stop` has returned for a generation that handlers can no longer reach, because a
      reload replaced or refused it, the HTTP server drained or never listened, it is silent in every
      later state of every ordered run and no request acquires it again. */
  lemma DrainedForever(states: seq<State>, events: seq<Event>, j: nat, k: nat, g: nat)
    requires IsOrderedRun(states, events) && j <= k < |states|
    requires g in states[j].server.retired && Unreachable(states[j].server, g)
    ensures Silent(states[k], g)
    ensures NoneSince(states[j], states[k], g)
  {
    RunChain(states, events);
    RetiredForever(states, j, k, g);
    RunInv(states, events, k);
    RetiredIsSilent(states[k], g);
  }

  lemma {:induction false} RetiredStays(states: seq<State>, j: nat, k: nat, g: nat)
    requires Chain(states) && j <= k < |states| && g in states[j].server.retired
    ensures g in states[k].server.retired
  {
    if j < k {
      RetiredStays(states, j, k - 1, g);
      assert Successor(states[k - 1], states[k]);
    }
  }

  /** Whatever made `Stop` run, also a failed listen or a failed serve: once it has returned, no
      prober of the generation lives or restarts in any later state. */
  lemma ProbersGoneForever(states: seq<State>, events: seq<Event>, j: nat, k: nat, g: nat)
    requires IsOrderedRun(states, events) && j <= k < |states| && g in states[j].server.retired
    ensures ProbersGone(states[k], g)
  {
    RunChain(states, events);
    RetiredStays(states, j, k, g);
    RunInv(states, events, k);
    RetiredHasNoProber(states[k], g);
  }

  /** A reload that has returned, accepted or refused, has silenced the runtime it stopped. */
  lemma ReloadReturned(states: seq<State>, events: seq<Event>, j: nat, k: nat, i: nat, g: nat, accepted: bool)
    requires IsOrderedRun(states, events) && j <= k < |states| && i < |states[j].threads|
    requires states[j].threads[i] == Reload(Reloaded(g, accepted))
    ensures Silent(states[k], g) && NoneSince(states[j], states[k], g)
  {
    RunInv(states, events, j);
    DrainedForever(states, events, j, k, g);
  }

  /** At every moment the wait groups are exact and never negative, and the in-flight gauge and
      the request counter count exactly the handlers they should. */
  lemma CountsExact(states: seq<State>, events: seq<Event>, k: nat, g: nat)
    requires IsOrderedRun(states, events) && k < |states|
    ensures RequestsOf(states[k].runtimes, g) == Total(states[k].threads, InFlight(g)) >= 0
    ensures WorkersOf(states[k].runtimes, g) == Total(states[k].threads, Workers(g)) >= 0
    ensures states[k].inflight == Total(states[k].threads, Gauge) >= 0
    ensures states[k].requestsTotal == Total(states[k].threads, Counted)
  {
    RunInv(states, events, k);
  }

  /** When `Stop` has returned for an unreachable generation, each of its requests has been
      counted exactly once if that generation observes and never otherwise, and none is left in
      the gauge. */
  lemma RetiredRequestsCounted(states: seq<State>, events: seq<Event>, k: nat, g: nat, i: nat)
    requires IsOrderedRun(states, events) && k < |states| && i < |states[k].threads|
    requires g in states[k].server.retired && Unreachable(states[k].server, g)
    requires RoutedBy(states[k].threads[i]) == Some(g)
    ensures g in states[k].runtimes
    ensures Weight(Counted, states[k].threads[i]) == if states[k].runtimes[g].enabled then 1 else 0
    ensures Weight(Gauge, states[k].threads[i]) == 0
  {
    RunInv(states, events, k);
    RetiredIsSilent(states[k], g);
    assert ThreadOk(states[k].server, states[k].runtimes, states[k].threads[i]);
  }

  /** Whether a runtime observes never changes. */
  predicate ObservesLink(s: State, s': State, g: nat) {
    g in s.runtimes ==> g in s'.runtimes && s'.runtimes[g].enabled == s.runtimes[g].enabled
  }

  lemma ObservesEvent(s: State, e: Event, s': State, g: nat)
    requires Generations(s) && Next(s, e) == Some(s')
    ensures ObservesLink(s, s', g)
  {}

  lemma {:induction false} ObservesSame(states: seq<State>, j: nat, k: nat, g: nat)
    requires forall n :: 0 <= n < |states| - 1 ==> ObservesLink(states[n], states[n + 1], g)
    requires j <= k < |states|
    ensures ObservesLink(states[j], states[k], g)
  {
    if j < k {
      ObservesSame(states, j, k - 1, g);
      assert ObservesLink(states[k - 1], states[k - 1 + 1], g);
    }
  }

  /** A runtime observes exactly as the configuration it was built from says, for its whole life. */
  lemma ObservesAsConfigured(states: seq<State>, events: seq<Event>, m: nat, k: nat, backends: nat, enabled: bool)
    requires IsOrderedRun(states, events) && m < k < |states| && events[m] == NewReload(backends, enabled)
    ensures states[m].nextGeneration + 1 in states[k].runtimes
    ensures states[k].runtimes[states[m].nextGeneration + 1].enabled == enabled
  {
    var g := states[m].nextGeneration + 1;
    forall n | 0 <= n < |states| - 1
      ensures ObservesLink(states[n], states[n + 1], g)
    {
      RunInv(states, events, n);
      ObservesEvent(states[n], events[n], states[n + 1], g);
    }
    assert Next(states[m], events[m]) == Some(states[m + 1]);
    ObservesSame(states, m + 1, k, g);
  }

  // ---------------------------------------------------------------------------------------
  // Ownership
  // ---------------------------------------------------------------------------------------

  /** The places a generation can be in: with the thread that builds it, must install it or must
      stop it; given up by the thread whose build failed; with the server's pointer; retired. */
  datatype Place = WithThread(i: nat) | GivenUp(i: nat) | WithPointer | Retired

  predicate BuildHasFailed(t: Thread) {
    t.Reload? && t.r.BuildFailed?
  }

  predicate IsAt(s: State, g: nat, p: Place) {
    match p
    case WithThread(i) => i < |s.threads| && Weight(Claims(g), s.threads[i]) > 0 && !BuildHasFailed(s.threads[i])
    case GivenUp(i) => i < |s.threads| && Weight(Claims(g), s.threads[i]) > 0 && BuildHasFailed(s.threads[i])
    case WithPointer => s.server.pointerOwns && s.server.active == g
    case Retired => g in s.server.retired
  }

  /** Every generation ever numbered is in one place. */
  lemma SomePlace(s: State, g: nat) returns (p: Place)
    requires Inv(s) && g in s.runtimes
    ensures IsAt(s, g, p)
  {
    if g in s.server.retired {
      p := Retired;
    } else if s.server.pointerOwns && s.server.active == g {
      p := WithPointer;
    } else {
      var i := TotalWitness(s.threads, Claims(g));
      p := if BuildHasFailed(s.threads[i]) then GivenUp(i) else WithThread(i);
    }
  }

  /** And in no second place; one that was never numbered is nowhere. */
  lemma OnlyPlace(s: State, g: nat, p: Place, q: Place)
    requires Inv(s) && IsAt(s, g, p) && IsAt(s, g, q)
    ensures p == q && g in s.runtimes
  {
    if p.WithThread? || p.GivenUp? {
      TotalMember(s.threads, p.i, Claims(g));
      if q.WithThread? || q.GivenUp? {
        OnlyBearer(s.threads, p.i, Claims(g));
      }
    } else if q.WithThread? || q.GivenUp? {
      TotalMember(s.threads, q.i, Claims(g));
    }
  }

  /** Ownership is conserved: in every state of every ordered run each numbered generation has
      exactly one holder. */
  lemma OwnershipConserved(states: seq<State>, events: seq<Event>, k: nat, g: nat)
    requires IsOrderedRun(states, events) && k < |states| && g in states[k].runtimes
    ensures exists p :: IsAt(states[k], g, p) && forall q :: IsAt(states[k], g, q) ==> q == p
  {
    RunInv(states, events, k);
    var p := SomePlace(states[k], g);
    forall q | IsAt(states[k], g, q)
      ensures q == p
    {
      OnlyPlace(states[k], g, p, q);
    }
  }

  lemma {:induction false} StopPersists(states: seq<State>, j: nat, k: nat, i: nat, g: nat)
    requires Chain(states) && j <= k < |states| && i < |states[j].threads|
    requires states[j].threads[i].Stop? && states[j].threads[i].g == g
    ensures i < |states[k].threads|
    ensures (states[k].threads[i].Stop? && states[k].threads[i].g == g) || g in states[k].server.retired
  {
    if j < k {
      StopPersists(states, j, k - 1, i, g);
      assert Successor(states[k - 1], states[k]);
    }
  }

  /** Two `Stop` calls on one generation, at whatever moments, are the same call. */
  lemma StoppedOnce(states: seq<State>, events: seq<Event>, j: nat, k: nat, i: nat, i': nat, g: nat)
    requires IsOrderedRun(states, events) && j <= k < |states|
    requires i < |states[j].threads| && states[j].threads[i].Stop? && states[j].threads[i].g == g
    requires i' < |states[k].threads| && states[k].threads[i'].Stop? && states[k].threads[i'].g == g
    ensures i == i'
  {
    RunChain(states, events);
    StopPersists(states, j, k, i, g);
    RunInv(states, events, k);
    if g in states[k].server.retired {
      OnlyPlace(states[k], g, Retired, WithThread(i'));
    } else {
      OnlyPlace(states[k], g, WithThread(i), WithThread(i'));
    }
  }

  // ---------------------------------------------------------------------------------------
  // Shutdown
  // ---------------------------------------------------------------------------------------

  function PhaseRank(p: Phase): nat {
    match p case Starting => 0 case Running => 1 case ShuttingDown => 2 case Stopped => 3
  }

  lemma {:induction false} PhaseKept(states: seq<State>, j: nat, k: nat)
    requires Chain(states) && j <= k < |states|
    ensures PhaseRank(states[j].server.phase) <= PhaseRank(states[k].server.phase)
  {
    if j < k {
      PhaseKept(states, j, k - 1);
      assert Successor(states[k - 1], states[k]);
    }
  }

  /** The server state only moves forward through Starting, Running, ShuttingDown, Stopped. */
  lemma PhaseForward(states: seq<State>, events: seq<Event>, j: nat, k: nat)
    requires IsOrderedRun(states, events) && j <= k < |states|
    ensures PhaseRank(states[j].server.phase) <= PhaseRank(states[k].server.phase)
  {
    RunChain(states, events);
    PhaseKept(states, j, k);
  }

  lemma {:induction false} BoundaryKept(states: seq<State>, j: nat, k: nat)
    requires Chain(states) && j <= k < |states| && LeftRunning(states[j].server)
    ensures states[k].server.active == states[j].server.active
    ensures forall i :: 0 <= i < |states[k].threads| && Accepted(states[k].threads[i]) ==>
              i < |states[j].threads| && Accepted(states[j].threads[i])
    ensures LeftRunning(states[k].server) && |states[j].threads| <= |states[k].threads|
  {
    if j < k {
      BoundaryKept(states, j, k - 1);
      assert Successor(states[k - 1], states[k]);
    }
  }

  /** The hard boundary: once the server has left Running, the active pointer never changes, no
      reload is accepted any more, and the server is not ready whenever the lock is free. */
  lemma HardBoundary(states: seq<State>, events: seq<Event>, j: nat, k: nat)
    requires IsOrderedRun(states, events) && j <= k < |states| && LeftRunning(states[j].server)
    ensures states[k].server.active == states[j].server.active
    ensures forall i :: 0 <= i < |states[k].threads| && Accepted(states[k].threads[i]) ==>
              i < |states[j].threads| && Accepted(states[j].threads[i])
    ensures !states[k].writer.Held? ==> !states[k].server.ready
  {
    RunChain(states, events);
    BoundaryKept(states, j, k);
    RunInv(states, events, k);
  }

  /** Readiness is exact: whenever no thread is inside the write lock the server is ready if and
      only if it is Running, or `Start` has announced readiness and is about to store Running. */
  lemma ReadyExactly(states: seq<State>, events: seq<Event>, k: nat)
    requires IsOrderedRun(states, events) && k < |states| && !states[k].writer.Held?
    ensures |states[k].threads| > 0
    ensures states[k].server.ready <==>
              states[k].server.phase == Running || states[k].threads[0] == Start(Announcing)
  {
    RunInv(states, events, k);
    ReadyIff(states[k]);
  }

  lemma ReadyIff(s: State)
    requires LockDiscipline(s) && PhaseOk(s.server) && Threads(s) && Unready(s) && !s.writer.Held?
    ensures s.server.ready <==> s.server.phase == Running || s.threads[0] == Start(Announcing)
  {
    assert ThreadOk(s.server, s.runtimes, s.threads[0]) && IsStarter(s.threads[0]) && !Critical(s.threads[0]);
  }

  lemma {:induction false} ResultFixed(states: seq<State>, j: nat, k: nat)
    requires Chain(states) && j <= k < |states|
    requires states[j].server.phase == Stopped || states[j].server.closes > 0
    ensures states[k].server.shutdownErr == states[j].server.shutdownErr
    ensures states[k].server.phase == states[j].server.phase
    ensures states[j].server.closes > 0 ==> states[k].server.closes == states[j].server.closes
  {
    if j < k {
      ResultFixed(states, j, k - 1);
      assert Successor(states[k - 1], states[k]);
    }
  }

  /** What a returned `Shutdown` says about the server. */
  predicate Settled(sv: Server, r: Result) {
    && r == sv.shutdownErr
    && sv.phase == (if r == Success then Stopped else ShuttingDown)
    && (sv.phase == Stopped || sv.closes > 0)
  }

  lemma ReturnedSettled(s: State, i: nat, r: Result)
    requires Inv(s) && i < |s.threads| && s.threads[i] == Shutdown(Returned(r))
    ensures Settled(s.server, r)
  {
    assert ThreadOk(s.server, s.runtimes, s.threads[i]);
  }

  /** Any two `Shutdown` calls that have returned, whenever they did, got the same result. A
      failure leaves the server in ShuttingDown for good. */
  lemma ShutdownAgreement(states: seq<State>, events: seq<Event>, j: nat, k: nat, i: nat, i': nat,
                          r: Result, r': Result)
    requires IsOrderedRun(states, events) && j <= k < |states|
    requires i < |states[j].threads| && states[j].threads[i] == Shutdown(Returned(r))
    requires i' < |states[k].threads| && states[k].threads[i'] == Shutdown(Returned(r'))
    ensures r == r' && Settled(states[k].server, r)
  {
    RunInv(states, events, j);
    ReturnedSettled(states[j], i, r);
    RunInv(states, events, k);
    ReturnedSettled(states[k], i', r');
    RunChain(states, events);
    ResultFixed(states, j, k);
  }

  /** `shutdownDone` is closed at most once, and a caller that waits for it never waits in vain:
      the channel is closed or exactly one owner still has to close it. */
  lemma OneShutdownOwner(states: seq<State>, events: seq<Event>, k: nat, i: nat) returns (owner: nat)
    requires IsOrderedRun(states, events) && k < |states| && i < |states[k].threads|
    ensures states[k].server.closes <= 1
    ensures states[k].threads[i] == Shutdown(Waiting) && states[k].server.closes == 0 ==>
              && owner < |states[k].threads|
              && Weight(Owners, states[k].threads[owner]) == 1
              && forall j :: 0 <= j < |states[k].threads| && Weight(Owners, states[k].threads[j]) > 0 ==> j == owner
  {
    RunInv(states, events, k);
    owner := 0;
    if states[k].threads[i] == Shutdown(Waiting) && states[k].server.closes == 0 {
      assert ThreadOk(states[k].server, states[k].runtimes, states[k].threads[i]);
      owner := TotalWitness(states[k].threads, Owners);
      OnlyBearer(states[k].threads, owner, Owners);
    }
  }

  /** After a shutdown that some call began, on a started server or not, and that succeeded, the
      runtime that was active then is silent for good. The module LifecycleReturn treats the calls
      that found the server already stopped by a failure. */
  lemma ShutdownDrains(states: seq<State>, events: seq<Event>, j: nat, k: nat, i: nat)
    requires IsOrderedRun(states, events) && j <= k < |states| && i < |states[j].threads|
    requires states[j].threads[i] == Shutdown(Returned(Success))
    requires states[j].server.begun
    ensures Silent(states[k], states[j].server.active)
    ensures states[k].server.active == states[j].server.active
    ensures states[k].server.phase == Stopped
  {
    RunInv(states, events, j);
    ReturnedSettled(states[j], i, Success);
    DrainedForever(states, events, j, k, states[j].server.active);
    RunChain(states, events);
    BoundaryKept(states, j, k);
    ResultFixed(states, j, k);
  }

  // ---------------------------------------------------------------------------------------
  // Probers
  // ---------------------------------------------------------------------------------------

  /** The goroutine may still run, or start, the probe loop of its backend. */
  predicate HoldsLoop(t: Thread, g: nat, slot: nat) {
    t.Prober? && t.g == g && t.slot == slot && t.at != Leaving && t.at != Gone
  }

  /** At most one probe loop per backend; a crashed prober about to be replaced keeps the wait
      group above zero, with two slots from `AddWorker` of the replacement until its own
      `DoneWorker`. */
  lemma ProberHandover(states: seq<State>, events: seq<Event>, k: nat, i: nat, j: nat, g: nat, slot: nat)
    requires IsOrderedRun(states, events) && k < |states|
    requires i < |states[k].threads| && j < |states[k].threads|
    ensures HoldsLoop(states[k].threads[i], g, slot) && HoldsLoop(states[k].threads[j], g, slot) ==> i == j
    ensures states[k].threads[i].Prober? && states[k].threads[i].at != Gone ==>
              WorkersOf(states[k].runtimes, states[k].threads[i].g) >= 1
    ensures states[k].threads[i].Prober? && states[k].threads[i].at == Reserved ==>
              WorkersOf(states[k].runtimes, states[k].threads[i].g) >= 2
  {
    RunInv(states, events, k);
    var s := states[k];
    if s.threads[i].Prober? {
      TotalMember(s.threads, i, Workers(s.threads[i].g));
    }
    if HoldsLoop(s.threads[i], g, slot) {
      assert Total(s.threads, Loops(g, slot)) <= 1;
      OnlyBearer(s.threads, i, Loops(g, slot));
    }
  }

  /** The crashed prober has decided to restart and has not yet started its replacement. */
  predicate Restarts(t: Thread, g: nat) {
    t.Prober? && t.g == g && (t.at == Restarting || t.at == Reserved)
  }

  lemma RestartStep(s: State, i: nat, c: Choice, mv: Move, g: nat)
    requires i < |s.threads| && MoveOf(s, i, c) == Some(mv)
    ensures Cancelled(s.runtimes, g) ==> Cancelled(RuntimesAfter(s.runtimes, mv.effect), g)
    ensures Restarts(mv.next, g) ==> Restarts(s.threads[i], g) || !Cancelled(s.runtimes, g)
    ensures mv.child.Some? ==> !Restarts(mv.child.value, g)
  {}

  /** Cancellation lasts, and a prober of a cancelled runtime that restarts had decided so before. */
  ghost predicate CancelLasts(s: State, s': State, g: nat) {
    Cancelled(s.runtimes, g) ==>
      && Cancelled(s'.runtimes, g)
      && |s.threads| <= |s'.threads|
      && forall i :: 0 <= i < |s'.threads| && Restarts(s'.threads[i], g) ==>
           i < |s.threads| && Restarts(s.threads[i], g)
  }

  lemma CancelLastsHolds(s: State, e: Event, s': State, g: nat)
    requires Generations(s) && Next(s, e) == Some(s')
    ensures CancelLasts(s, s', g)
  {
    if e.Run? {
      RestartStep(s, e.i, e.c, MoveOf(s, e.i, e.c).value, g);
    }
  }

  lemma {:induction false} CancelledForever(states: seq<State>, j: nat, k: nat, g: nat)
    requires forall n :: 0 <= n < |states| - 1 ==> CancelLasts(states[n], states[n + 1], g)
    requires j <= k < |states|
    ensures CancelLasts(states[j], states[k], g)
  {
    if j < k {
      CancelledForever(states, j, k - 1, g);
      assert CancelLasts(states[k - 1], states[k - 1 + 1], g);
    }
  }

  /** Once a runtime is cancelled no prober of it decides to restart any more. */
  lemma NoRestartAfterCancel(states: seq<State>, events: seq<Event>, j: nat, k: nat, g: nat)
    requires IsOrderedRun(states, events) && j <= k < |states|
    ensures CancelLasts(states[j], states[k], g)
  {
    forall n | 0 <= n < |states| - 1
      ensures CancelLasts(states[n], states[n + 1], g)
    {
      RunInv(states, events, n);
      CancelLastsHolds(states[n], events[n], states[n + 1], g);
    }
    CancelledForever(states, j, k, g);
  }
}
