/**
 How a reload is decided: it is accepted if and only if the server is Running at the moment the
 reload looks, under the write lock, and then its generation is installed.
 */
module LifecycleReload {
  import opened Options
  import opened Lifecycle
  import opened LifecycleInvariant
  import opened LifecyclePreservation
  import opened LifecycleSafety
  import opened LifecycleRefinement

  /** What has been decided about the reload that this thread runs. */
  function Verdict(t: Thread): Option<bool> {
    match t
    case Reload(r) =>
      (match r
       case Allowed(_) => Some(true)
       case Swapped(_) => Some(true)
       case Refusing(_) => Some(false)
       case Reloaded(_, accepted) => Some(accepted)
       case _ => None)
    case Stop(_, _, why) => if why == Replaced then Some(true) else if why == Refused then Some(false) else None
    case _ => None
  }

  /** The generation the thread is about, where it is about one. */
  function Subject(t: Thread): Option<nat> {
    match t
    case Reload(r) => Some(r.g)
    case Stop(g, _, _) => Some(g)
    case _ => None
  }

  // ---------------------------------------------------------------------------------------
  // One action
  // ---------------------------------------------------------------------------------------

  /** A verdict, once there, stays; it falls at `Checking`, by the phase at that moment. */
  predicate VerdictKept(sv: Server, t: Thread, c: Choice, mv: Move) {
    && (mv.child.Some? ==> Verdict(mv.child.value).None?)
    && (Verdict(t).Some? ==> Verdict(mv.next) == Verdict(t))
    && (Verdict(t) == Some(false) ==> Subject(mv.next) == Subject(t))
    && (Verdict(t).None? && Verdict(mv.next).Some? ==>
          && t.Reload? && t.r.Checking? && c == Go
          && Verdict(mv.next) == Some(sv.phase == Running) && Subject(mv.next) == Some(t.r.g))
    && (t.Reload? && t.r.Checking? ==> Verdict(mv.next).Some?)
  }

  lemma ReloaderVerdict(s: State, i: nat, r: Reloader, c: Choice, mv: Move)
    requires ReloaderMove(s, i, r, c) == Some(mv)
    ensures VerdictKept(s.server, Reload(r), c, mv)
  {}

  lemma StopVerdict(s: State, g: nat, stage: Stage, why: Reason, mv: Move)
    requires StopMove(s, g, stage, why) == Some(mv)
    ensures VerdictKept(s.server, Stop(g, stage, why), Go, mv)
  {}

  lemma CallerVerdict(s: State, i: nat, k: Caller, c: Choice, mv: Move)
    requires CallerMove(s, i, k, c) == Some(mv)
    ensures VerdictKept(s.server, Shutdown(k), c, mv)
  {}

  lemma StarterVerdict(s: State, i: nat, b: Starter, c: Choice, mv: Move)
    requires StarterMove(s, i, b, c) == Some(mv)
    ensures VerdictKept(s.server, Start(b), c, mv)
  {}

  lemma VerdictStep(s: State, i: nat, c: Choice, mv: Move)
    requires i < |s.threads| && MoveOf(s, i, c) == Some(mv)
    ensures VerdictKept(s.server, s.threads[i], c, mv)
  {
    match s.threads[i]
    case Reload(r) => ReloaderVerdict(s, i, r, c, mv);
    case Stop(g, stage, why) => StopVerdict(s, g, stage, why, mv);
    case Shutdown(k) => CallerVerdict(s, i, k, c, mv);
    case Start(b) => StarterVerdict(s, i, b, c, mv);
    case _ =>
  }

  /** Event `e` decides the reload of thread `i`, which has built generation `g`. */
  predicate Decides(s: State, e: Event, i: nat, g: nat, accepted: bool) {
    && e == Run(i, Go) && i < |s.threads| && s.threads[i] == Reload(Checking(g))
    && s.writer == Held(i)
    && accepted == (s.server.phase == Running)
  }

  predicate DecidesNow(s: State, e: Event, s': State, i: nat, accepted: bool) {
    && i < |s.threads| && s.threads[i].Reload? && Decides(s, e, i, s.threads[i].r.g, accepted)
    && i < |s'.threads| && Subject(s'.threads[i]) == Some(s.threads[i].r.g)
  }

  predicate DecidedEarlier(s: State, s': State, i: nat, accepted: bool) {
    && i < |s.threads| && Verdict(s.threads[i]) == Some(accepted)
    && i < |s'.threads| && (!accepted ==> Subject(s'.threads[i]) == Subject(s.threads[i]))
  }

  /** A thread with a verdict had it before, or this event decided. */
  predicate VerdictLink(s: State, e: Event, s': State, i: nat, accepted: bool) {
    i < |s'.threads| && Verdict(s'.threads[i]) == Some(accepted) ==>
      DecidedEarlier(s, s', i, accepted) || DecidesNow(s, e, s', i, accepted)
  }

  lemma VerdictMove(s: State, n: nat, c: Choice, mv: Move, i: nat, accepted: bool)
    requires LockDiscipline(s) && n < |s.threads| && MoveOf(s, n, c) == Some(mv)
    ensures VerdictLink(s, Run(n, c), Apply(s, n, mv), i, accepted)
  {
    VerdictStep(s, n, c, mv);
    if i == n && Verdict(s.threads[i]).None? && Verdict(mv.next).Some? {
      assert Critical(s.threads[i]);
    }
  }

  lemma VerdictArrival(s: State, e: Event, s': State, i: nat, accepted: bool)
    requires !e.Run? && Next(s, e) == Some(s')
    ensures VerdictLink(s, e, s', i, accepted)
  {}

  lemma VerdictEvent(s: State, e: Event, s': State, i: nat, accepted: bool)
    requires LockDiscipline(s) && Next(s, e) == Some(s')
    ensures VerdictLink(s, e, s', i, accepted)
  {
    if e.Run? {
      VerdictMove(s, e.i, e.c, MoveOf(s, e.i, e.c).value, i, accepted);
    } else {
      VerdictArrival(s, e, s', i, accepted);
    }
  }

  lemma VerdictLinks(states: seq<State>, events: seq<Event>, n: nat, i: nat, accepted: bool)
    requires IsOrderedRun(states, events) && n < |events|
    ensures VerdictLink(states[n], events[n], states[n + 1], i, accepted)
  {
    RunInv(states, events, n);
    VerdictEvent(states[n], events[n], states[n + 1], i, accepted);
  }

  /** Under the write lock of another thread the server does not leave Running. */
  predicate PhaseHeld(sv: Server, t: Thread, mv: Move) {
    !Critical(t) && sv.phase == Running ==> ServerAfter(sv, mv.effect).phase == Running
  }

  lemma CallerPhaseHeld(s: State, i: nat, k: Caller, c: Choice, mv: Move)
    requires CallerMove(s, i, k, c) == Some(mv)
    ensures PhaseHeld(s.server, Shutdown(k), mv)
  {}

  lemma StarterPhaseHeld(s: State, i: nat, b: Starter, c: Choice, mv: Move)
    requires StarterMove(s, i, b, c) == Some(mv) && StarterOk(s.server, b)
    ensures PhaseHeld(s.server, Start(b), mv)
  {}

  lemma PhaseHeldStep(s: State, i: nat, c: Choice, mv: Move)
    requires i < |s.threads| && MoveOf(s, i, c) == Some(mv) && ThreadOk(s.server, s.runtimes, s.threads[i])
    ensures PhaseHeld(s.server, s.threads[i], mv)
  {
    match s.threads[i]
    case Shutdown(k) => CallerPhaseHeld(s, i, k, c, mv);
    case Start(b) => StarterPhaseHeld(s, i, b, c, mv);
    case _ =>
  }

  // ---------------------------------------------------------------------------------------
  // Runs
  // ---------------------------------------------------------------------------------------

  /** Nothing is decided or replaced when a run begins. */
  lemma NothingAtFirst(states: seq<State>, events: seq<Event>, i: nat)
    requires IsRun(states, events) && i < |states[0].threads|
    ensures Verdict(states[0].threads[i]).None? && Replaces(states[0].threads[i]).None?
  {
    var probers, enabled :| states[0] == InitialState(probers, enabled);
  }

  lemma {:induction false} DecidedBefore(states: seq<State>, events: seq<Event>, k: nat, i: nat, accepted: bool)
    returns (j: nat, g: nat)
    requires |states| == |events| + 1 && k < |states|
    requires forall n :: 0 <= n < |events| ==> VerdictLink(states[n], events[n], states[n + 1], i, accepted)
    requires i < |states[0].threads| ==> Verdict(states[0].threads[i]).None?
    requires i < |states[k].threads| && Verdict(states[k].threads[i]) == Some(accepted)
    ensures j < k && Decides(states[j], events[j], i, g, accepted)
    ensures !accepted ==> Subject(states[k].threads[i]) == Some(g)
  {
    j := k - 1;
    assert VerdictLink(states[j], events[j], states[j + 1], i, accepted);
    if DecidesNow(states[j], events[j], states[j + 1], i, accepted) {
      g := states[j].threads[i].r.g;
    } else {
      j, g := DecidedBefore(states, events, j, i, accepted);
    }
  }

  /** Event `e` stores generation `g` over generation `former`. */
  predicate Installs(s: State, e: Event, s': State, i: nat, g: nat, former: nat) {
    && e == Run(i, Go) && i < |s.threads| && s.threads[i] == Reload(Allowed(g))
    && s.server.phase == Running && s.server.active == former && s'.server == s.server.(active := g)
  }

  /** A thread that has replaced a generation had done so before, or this event did it. */
  predicate ReplaceLink(s: State, e: Event, s': State, i: nat, former: nat) {
    i < |s'.threads| && Replaces(s'.threads[i]) == Some(former) ==>
      && i < |s.threads|
      && (Replaces(s.threads[i]) == Some(former)
          || (s.threads[i].Reload? && Installs(s, e, s', i, s.threads[i].r.g, former)))
  }

  lemma ReplaceMove(s: State, n: nat, c: Choice, mv: Move, i: nat, former: nat)
    requires n < |s.threads| && MoveOf(s, n, c) == Some(mv) && ThreadOk(s.server, s.runtimes, s.threads[n])
    ensures ReplaceLink(s, Run(n, c), Apply(s, n, mv), i, former)
  {
    if !s.threads[n].Request? {
      PlainHolds(s, n, c, mv);
    }
  }

  lemma ReplaceArrival(s: State, e: Event, s': State, i: nat, former: nat)
    requires !e.Run? && Next(s, e) == Some(s')
    ensures ReplaceLink(s, e, s', i, former)
  {}

  lemma ReplaceEvent(s: State, e: Event, s': State, i: nat, former: nat)
    requires Threads(s) && Next(s, e) == Some(s')
    ensures ReplaceLink(s, e, s', i, former)
  {
    if e.Run? {
      ReplaceMove(s, e.i, e.c, MoveOf(s, e.i, e.c).value, i, former);
    } else {
      ReplaceArrival(s, e, s', i, former);
    }
  }

  lemma ReplaceLinks(states: seq<State>, events: seq<Event>, n: nat, i: nat, former: nat)
    requires IsOrderedRun(states, events) && n < |events|
    ensures ReplaceLink(states[n], events[n], states[n + 1], i, former)
  {
    RunInv(states, events, n);
    ReplaceEvent(states[n], events[n], states[n + 1], i, former);
  }

  lemma {:induction false} InstalledBefore(states: seq<State>, events: seq<Event>, k: nat, i: nat, former: nat)
    returns (m: nat, g: nat)
    requires |states| == |events| + 1 && k < |states|
    requires forall n :: 0 <= n < |events| ==> ReplaceLink(states[n], events[n], states[n + 1], i, former)
    requires i < |states[0].threads| ==> Replaces(states[0].threads[i]).None?
    requires i < |states[k].threads| && Replaces(states[k].threads[i]) == Some(former)
    ensures m < k && Installs(states[m], events[m], states[m + 1], i, g, former)
  {
    m := k - 1;
    assert ReplaceLink(states[m], events[m], states[m + 1], i, former);
    if Replaces(states[m].threads[i]) == Some(former) {
      m, g := InstalledBefore(states, events, m, i, former);
    } else {
      g := states[m].threads[i].r.g;
    }
  }

  /** A reload is accepted if and only if the server was Running when the reload looked under the
      write lock. A refused one stops the generation it had built. */
  lemma AcceptedIffRunning(states: seq<State>, events: seq<Event>, k: nat, i: nat, accepted: bool)
    returns (j: nat, g: nat)
    requires IsOrderedRun(states, events) && k < |states|
    requires i < |states[k].threads| && Verdict(states[k].threads[i]) == Some(accepted)
    ensures j < k && events[j] == Run(i, Go) && i < |states[j].threads|
    ensures states[j].threads[i] == Reload(Checking(g)) && states[j].writer == Held(i)
    ensures accepted <==> states[j].server.phase == Running
    ensures !accepted ==> Subject(states[k].threads[i]) == Some(g)
  {
    if i < |states[0].threads| {
      NothingAtFirst(states, events, i);
    }
    forall n | 0 <= n < |events|
      ensures VerdictLink(states[n], events[n], states[n + 1], i, accepted)
    {
      VerdictLinks(states, events, n, i, accepted);
    }
    j, g := DecidedBefore(states, events, k, i, accepted);
  }

  /** An accepted reload has stored the generation it had built, while the server was Running, and
      it is the generation it replaced that it stops. */
  lemma AcceptedInstalls(states: seq<State>, events: seq<Event>, k: nat, i: nat, former: nat)
    returns (m: nat, g: nat)
    requires IsOrderedRun(states, events) && k < |states|
    requires i < |states[k].threads| && Replaces(states[k].threads[i]) == Some(former)
    ensures m < k && events[m] == Run(i, Go) && i < |states[m].threads| && states[m].threads[i] == Reload(Allowed(g))
    ensures states[m].server.phase == Running
    ensures states[m].server.active == former && states[m + 1].server.active == g
  {
    if i < |states[0].threads| {
      NothingAtFirst(states, events, i);
    }
    forall n | 0 <= n < |events|
      ensures ReplaceLink(states[n], events[n], states[n + 1], i, former)
    {
      ReplaceLinks(states, events, n, i, former);
    }
    m, g := InstalledBefore(states, events, k, i, former);
  }

  // ---------------------------------------------------------------------------------------
  // A Running server refuses no reload
  // ---------------------------------------------------------------------------------------

  /** The reload of thread `i` will be, or has been, accepted. */
  predicate Accepting(s: State, i: nat, g: nat) {
    && i < |s.threads|
    && (Verdict(s.threads[i]) == Some(true)
        || (s.threads[i] == Reload(Checking(g)) && s.server.phase == Running))
  }

  lemma AcceptingKept(s: State, e: Event, s': State, i: nat, g: nat)
    requires Inv(s) && Next(s, e) == Some(s') && Accepting(s, i, g)
    ensures Accepting(s', i, g)
  {
    if e.Run? {
      var mv := MoveOf(s, e.i, e.c).value;
      VerdictStep(s, e.i, e.c, mv);
      PhaseHeldStep(s, e.i, e.c, mv);
      if e.i != i {
        ExclusiveHolds(s, e.i, i);
      }
    }
  }

  predicate AcceptingLink(s: State, s': State, i: nat, g: nat) {
    Accepting(s, i, g) ==> Accepting(s', i, g)
  }

  lemma AcceptingLinks(states: seq<State>, events: seq<Event>, n: nat, i: nat, g: nat)
    requires IsOrderedRun(states, events) && n < |events|
    ensures AcceptingLink(states[n], states[n + 1], i, g)
  {
    if Accepting(states[n], i, g) {
      RunInv(states, events, n);
      AcceptingKept(states[n], events[n], states[n + 1], i, g);
    }
  }

  lemma {:induction false} AcceptingLater(states: seq<State>, j: nat, k: nat, i: nat, g: nat)
    requires forall n :: 0 <= n < |states| - 1 ==> AcceptingLink(states[n], states[n + 1], i, g)
    requires j <= k < |states| && Accepting(states[j], i, g)
    ensures Accepting(states[k], i, g)
  {
    if j < k {
      AcceptingLater(states, j, k - 1, i, g);
      assert AcceptingLink(states[k - 1], states[k - 1 + 1], i, g);
    }
  }

  /** A reload that gets the write lock while the server is Running is never refused. */
  lemma RunningNeverRefuses(states: seq<State>, events: seq<Event>, j: nat, k: nat, i: nat, g: nat)
    requires IsOrderedRun(states, events) && j <= k < |states| && i < |states[j].threads|
    requires states[j].threads[i] == Reload(Checking(g)) && states[j].server.phase == Running
    ensures Accepting(states[k], i, g)
  {
    forall n | 0 <= n < |states| - 1
      ensures AcceptingLink(states[n], states[n + 1], i, g)
    {
      AcceptingLinks(states, events, n, i, g);
    }
    AcceptingLater(states, j, k, i, g);
  }
}
