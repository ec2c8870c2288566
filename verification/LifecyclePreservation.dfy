/**
 Every event of an ordered run keeps the invariant.

 The proof follows the data. What one action does to the thread that takes it is settled per
 kind of thread, without looking at other threads (the `...Balanced` predicates, `HandedOn`,
 `LockStep`, `OwnOk`). What it may do to another thread is settled per kind as well, from the few
 facts that exclude the two from being in certain places together (`Exclusive`). Generic lemmas
 then lift both to whole states.
 */
module LifecyclePreservation {
  import opened Options
  import opened Lifecycle
  import opened LifecycleTotals
  import opened LifecycleInvariant

  // ---------------------------------------------------------------------------------------
  // What an action changes
  // ---------------------------------------------------------------------------------------

  function ChildWeight(m: Meter, mv: Move): nat {
    if mv.child.Some? then Weight(m, mv.child.value) else 0
  }

  function Delta(m: Meter, t: Thread, mv: Move): int {
    Weight(m, mv.next) + ChildWeight(m, mv) - Weight(m, t)
  }

  lemma TotalsAfter(s: State, i: nat, mv: Move)
    requires i < |s.threads|
    ensures forall m :: Total(Apply(s, i, mv).threads, m) == Total(s.threads, m) + Delta(m, s.threads[i], mv)
  {
    var ts := s.threads[i := mv.next];
    Moved(s.threads, i, mv.next);
    if mv.child.Some? {
      Joined(ts, mv.child.value);
    } else {
      assert ts + [] == ts;
    }
  }

  /** The request wait groups move exactly as the thread's weight on them does. */
  ghost predicate RequestsBalanced(rts: map<nat, Runtime>, t: Thread, mv: Move) {
    var rts' := RuntimesAfter(rts, mv.effect);
    forall g :: Delta(InFlight(g), t, mv) == RequestsOf(rts', g) - RequestsOf(rts, g)
  }

  /** So do the worker wait groups. */
  ghost predicate WorkersBalanced(rts: map<nat, Runtime>, t: Thread, mv: Move) {
    var rts' := RuntimesAfter(rts, mv.effect);
    && rts'.Keys == rts.Keys
    && (forall g :: Delta(Workers(g), t, mv) == WorkersOf(rts', g) - WorkersOf(rts, g))
  }

  /** The right to run the probe loop of a backend is never duplicated. */
  ghost predicate LoopsBalanced(t: Thread, mv: Move) {
    forall g, slot :: Delta(Loops(g, slot), t, mv) <= 0
  }

  /** So do the reader count and the metrics. */
  predicate MetricsBalanced(t: Thread, mv: Move) {
    var e := mv.effect;
    && Delta(Readers, t, mv) == (if e.EnterRead? then 1 else if e.LeaveRead? then -1 else 0)
    && Delta(Gauge, t, mv) == (if e.AddInflight? then e.d else 0)
    && Delta(Counted, t, mv) == (if e.AddTotal? then e.n else 0)
  }

  /** An owner appears when a shutdown begins and goes when it closes the channel. */
  predicate OwnersBalanced(sv: Server, t: Thread, mv: Move) {
    var sv' := ServerAfter(sv, mv.effect);
    Delta(Owners, t, mv) + sv'.closes - sv.closes == Bit(sv'.begun) - Bit(sv.begun)
  }

  /** A call stays a call, and only a call begins a shutdown. */
  predicate CallersBalanced(sv: Server, t: Thread, mv: Move) {
    && Delta(Callers, t, mv) == 0
    && (ServerAfter(sv, mv.effect).begun ==> sv.begun || Weight(Callers, t) > 0)
  }

  /** A generation only changes hands. */
  ghost predicate HandedOn(sv: Server, t: Thread, mv: Move) {
    var sv' := ServerAfter(sv, mv.effect);
    forall g ::
      Delta(Claims(g), t, mv)
      + Bit(sv'.pointerOwns && g == sv'.active) - Bit(sv.pointerOwns && g == sv.active)
      + Bit(g in sv'.retired) - Bit(g in sv.retired) == 0
  }

  /** The lock changes hands only at the actions that lock and unlock it. */
  predicate LockStep(s: State, i: nat, t: Thread, mv: Move) {
    var e := mv.effect;
    && (mv.child.Some? ==> !Critical(mv.child.value))
    && (match e
        case Announce => s.writer == Free && AtLock(t) && mv.next == t
        case EnterWrite => s.writer == Pending(i) && s.readers == 0 && AtLock(t) && Critical(mv.next)
        case EnterRead => s.writer == Free && !Critical(mv.next)
        case _ =>
          && !AtLock(t)
          && (if e.Store? && e.unlock then Critical(t) && !Critical(mv.next)
              else Critical(t) == Critical(mv.next)))
  }

  function ClaimOf(t: Thread): Option<nat> {
    match t
    case Reload(r) => if r.Reloaded? then None else Some(r.g)
    case Stop(g, _, _) => Some(g)
    case Shutdown(c) => if c.Owning? || c.Forcing? then Some(c.g) else None
    case _ => None
  }

  /** What the totals say about one thread. */
  predicate Standing(sv: Server, rts: map<nat, Runtime>, t: Thread) {
    && (Critical(t) && sv.phase == ShuttingDown && sv.ready ==> t == Shutdown(Marking))
    && (ClaimOf(t).Some? ==>
          var g := ClaimOf(t).value;
          g !in sv.retired && !(sv.pointerOwns && g == sv.active))
    && (Weight(Owners, t) > 0 ==> sv.begun && sv.closes == 0)
    && (t.Request? && (t.h.Acquired? || t.h.Serving? || t.h.Tracked? || t.h.Recorded? || t.h.Untracked?) ==>
          RequestsOf(rts, t.h.g) > 0)
    && (t.Prober? && t.at != Gone ==> WorkersOf(rts, t.g) > 0)
  }

  /** What the lock says about two different threads. */
  predicate ExclusiveLock(t: Thread, u: Thread) {
    && !(Critical(t) && Critical(u))
    && !(Critical(t) && Weight(Readers, u) > 0)
    && !(IsStarter(t) && IsStarter(u))
    && !(InStartWindow(t) && Weight(Callers, u) > 0)
    && !(InStartWindow(u) && Weight(Callers, t) > 0)
  }

  /** What the totals say about them. */
  predicate ExclusiveClaim(t: Thread, u: Thread) {
    && !(Weight(Owners, t) > 0 && Weight(Owners, u) > 0)
    && (ClaimOf(t).Some? ==> ClaimOf(u) != ClaimOf(t))
  }

  predicate Exclusive(t: Thread, u: Thread) {
    ExclusiveLock(t, u) && ExclusiveClaim(t, u)
  }

  lemma StandingHolds(s: State, i: nat)
    requires Inv(s) && i < |s.threads|
    ensures Standing(s.server, s.runtimes, s.threads[i])
  {
    var t := s.threads[i];
    TotalMember(s.threads, i, Owners);
    if ClaimOf(t).Some? {
      TotalMember(s.threads, i, Claims(ClaimOf(t).value));
    }
    if t.Request? && (t.h.Acquired? || t.h.Serving? || t.h.Tracked? || t.h.Recorded? || t.h.Untracked?) {
      TotalMember(s.threads, i, InFlight(t.h.g));
    }
    if t.Prober? {
      TotalMember(s.threads, i, Workers(t.g));
    }
  }

  lemma ExclusiveLockHolds(s: State, i: nat, j: nat)
    requires Counters(s) && LockDiscipline(s) && Threads(s)
    requires i < |s.threads| && j < |s.threads| && i != j
    ensures ExclusiveLock(s.threads[i], s.threads[j])
  {
    TotalMember(s.threads, j, Readers);
    TotalMember(s.threads, i, Callers);
    TotalMember(s.threads, j, Callers);
  }

  lemma ExclusiveClaimHolds(s: State, i: nat, j: nat)
    requires Counters(s) && Conserved(s.threads, s.server, s.runtimes)
    requires i < |s.threads| && j < |s.threads| && i != j
    ensures ExclusiveClaim(s.threads[i], s.threads[j])
  {
    var a, b := if i < j then i else j, if i < j then j else i;
    TotalPair(s.threads, a, b, Owners);
    if ClaimOf(s.threads[i]).Some? {
      TotalPair(s.threads, a, b, Claims(ClaimOf(s.threads[i]).value));
    }
  }

  lemma ExclusiveHolds(s: State, i: nat, j: nat)
    requires Counters(s) && Conserved(s.threads, s.server, s.runtimes) && LockDiscipline(s) && Threads(s)
    requires i < |s.threads| && j < |s.threads| && i != j
    ensures Exclusive(s.threads[i], s.threads[j])
  {
    ExclusiveLockHolds(s, i, j);
    ExclusiveClaimHolds(s, i, j);
  }

  /** The server is in order afterwards. */
  ghost predicate ServerOk(s: State, t: Thread, mv: Move) {
    var sv' := ServerAfter(s.server, mv.effect);
    && PhaseOk(sv')
    && sv'.active in sv'.built
    && (forall g :: g in sv'.built ==> g in RuntimesAfter(s.runtimes, mv.effect))
    && (sv'.phase == ShuttingDown && sv'.ready ==>
          || mv.next == Shutdown(Marking)
          || (s.server.phase == ShuttingDown && s.server.ready && t != Shutdown(Marking)))
  }

  /** So are the thread itself and the goroutine it starts. */
  predicate OwnOk(s: State, t: Thread, mv: Move) {
    var sv' := ServerAfter(s.server, mv.effect);
    var rts' := RuntimesAfter(s.runtimes, mv.effect);
    && ThreadOk(sv', rts', mv.next)
    && IsStarter(mv.next) == IsStarter(t)
    && (InStartWindow(mv.next) ==> InStartWindow(t))
    && (mv.child.Some? ==> mv.child.value.Prober? && ThreadOk(sv', rts', mv.child.value))
  }

  /** What is known about the thread that acts. */
  ghost predicate Before(s: State, t: Thread) {
    && ThreadOk(s.server, s.runtimes, t)
    && Standing(s.server, s.runtimes, t)
    && PhaseOk(s.server)
    && Generations(s)
  }

  /** What is known about a thread that looks on. */
  predicate Beside(s: State, t: Thread, u: Thread) {
    && ThreadOk(s.server, s.runtimes, u)
    && Standing(s.server, s.runtimes, u)
    && Exclusive(t, u)
    && (HttpDrained(s) ==> Weight(Entering, u) == 0)
  }

  predicate StillOk(s: State, mv: Move, u: Thread) {
    ThreadOk(ServerAfter(s.server, mv.effect), RuntimesAfter(s.runtimes, mv.effect), u)
  }

  /** What is known about a retired generation. */
  predicate WasDrained(s: State, g: nat) {
    g in s.server.retired ==>
      !(s.server.pointerOwns && g == s.server.active) && DrainOk(s.server, s.runtimes, g)
  }

  predicate StillDrained(s: State, mv: Move, g: nat) {
    var sv' := ServerAfter(s.server, mv.effect);
    g in sv'.retired ==> DrainOk(sv', RuntimesAfter(s.runtimes, mv.effect), g)
  }

  // ---------------------------------------------------------------------------------------
  // Requests
  // ---------------------------------------------------------------------------------------

  lemma HandlerRequests(s: State, h: Handler, mv: Move)
    requires HandlerMove(s, h) == Some(mv) && Before(s, Request(h))
    ensures RequestsBalanced(s.runtimes, Request(h), mv)
  {}

  lemma HandlerWorkers(s: State, h: Handler, mv: Move)
    requires HandlerMove(s, h) == Some(mv)
    ensures WorkersBalanced(s.runtimes, Request(h), mv)
    ensures LoopsBalanced(Request(h), mv)
  {}

  lemma HandlerMetrics(s: State, h: Handler, mv: Move)
    requires HandlerMove(s, h) == Some(mv) && HandlerOk(s.server, s.runtimes, h)
    ensures MetricsBalanced(Request(h), mv)
  {}

  lemma HandlerOrderly(s: State, i: nat, h: Handler, mv: Move)
    requires HandlerMove(s, h) == Some(mv)
    ensures OwnersBalanced(s.server, Request(h), mv)
    ensures CallersBalanced(s.server, Request(h), mv)
    ensures HandedOn(s.server, Request(h), mv)
    ensures LockStep(s, i, Request(h), mv)
  {}

  lemma HandlerOwnOk(s: State, h: Handler, mv: Move)
    requires HandlerMove(s, h) == Some(mv) && Before(s, Request(h))
    ensures ServerOk(s, Request(h), mv)
    ensures OwnOk(s, Request(h), mv)
  {}

  lemma HandlerStillOk(s: State, h: Handler, mv: Move, u: Thread)
    requires HandlerMove(s, h) == Some(mv) && Before(s, Request(h)) && Beside(s, Request(h), u)
    ensures StillOk(s, mv, u)
  {}

  lemma HandlerStillDrained(s: State, h: Handler, mv: Move, x: nat)
    requires HandlerMove(s, h) == Some(mv) && Before(s, Request(h)) && WasDrained(s, x)
    ensures StillDrained(s, mv, x)
  {}

  // ---------------------------------------------------------------------------------------
  // Reloads
  // ---------------------------------------------------------------------------------------

  lemma ReloaderRequests(s: State, i: nat, r: Reloader, c: Choice, mv: Move)
    requires ReloaderMove(s, i, r, c) == Some(mv)
    ensures RequestsBalanced(s.runtimes, Reload(r), mv)
    ensures LoopsBalanced(Reload(r), mv)
  {}

  lemma ReloaderWorkers(s: State, i: nat, r: Reloader, c: Choice, mv: Move)
    requires ReloaderMove(s, i, r, c) == Some(mv) && ReloaderOk(s.server, s.runtimes, r)
    ensures WorkersBalanced(s.runtimes, Reload(r), mv)
  {}

  lemma ReloaderCounted(s: State, i: nat, r: Reloader, c: Choice, mv: Move)
    requires ReloaderMove(s, i, r, c) == Some(mv)
    ensures MetricsBalanced(Reload(r), mv)
    ensures OwnersBalanced(s.server, Reload(r), mv)
    ensures CallersBalanced(s.server, Reload(r), mv)
  {}

  lemma ReloaderHandedOn(s: State, i: nat, r: Reloader, c: Choice, mv: Move)
    requires ReloaderMove(s, i, r, c) == Some(mv) && Before(s, Reload(r))
    ensures HandedOn(s.server, Reload(r), mv)
  {}

  lemma ReloaderLockStep(s: State, i: nat, r: Reloader, c: Choice, mv: Move)
    requires ReloaderMove(s, i, r, c) == Some(mv)
    ensures LockStep(s, i, Reload(r), mv)
  {}

  lemma ReloaderOwnOk(s: State, i: nat, r: Reloader, c: Choice, mv: Move)
    requires ReloaderMove(s, i, r, c) == Some(mv) && Before(s, Reload(r))
    ensures ServerOk(s, Reload(r), mv)
    ensures OwnOk(s, Reload(r), mv)
  {}

  lemma ReloaderStillOk(s: State, i: nat, r: Reloader, c: Choice, mv: Move, u: Thread)
    requires ReloaderMove(s, i, r, c) == Some(mv) && Before(s, Reload(r)) && Beside(s, Reload(r), u)
    ensures StillOk(s, mv, u)
  {}

  lemma ReloaderStillDrained(s: State, i: nat, r: Reloader, c: Choice, mv: Move, x: nat)
    requires ReloaderMove(s, i, r, c) == Some(mv) && Before(s, Reload(r)) && WasDrained(s, x)
    ensures StillDrained(s, mv, x)
  {}

  // ---------------------------------------------------------------------------------------
  // Runtime.Stop
  // ---------------------------------------------------------------------------------------

  lemma StopBalanced(s: State, g: nat, stage: Stage, why: Reason, mv: Move)
    requires StopMove(s, g, stage, why) == Some(mv)
    ensures RequestsBalanced(s.runtimes, Stop(g, stage, why), mv)
    ensures WorkersBalanced(s.runtimes, Stop(g, stage, why), mv)
    ensures LoopsBalanced(Stop(g, stage, why), mv)
  {}

  lemma StopCounted(s: State, g: nat, stage: Stage, why: Reason, mv: Move)
    requires StopMove(s, g, stage, why) == Some(mv)
    ensures MetricsBalanced(Stop(g, stage, why), mv)
    ensures OwnersBalanced(s.server, Stop(g, stage, why), mv)
    ensures CallersBalanced(s.server, Stop(g, stage, why), mv)
  {}

  lemma StopHandedOn(s: State, g: nat, stage: Stage, why: Reason, mv: Move)
    requires StopMove(s, g, stage, why) == Some(mv) && Standing(s.server, s.runtimes, Stop(g, stage, why))
    ensures HandedOn(s.server, Stop(g, stage, why), mv)
  {}

  lemma StopLockStep(s: State, i: nat, g: nat, stage: Stage, why: Reason, mv: Move)
    requires StopMove(s, g, stage, why) == Some(mv)
    ensures LockStep(s, i, Stop(g, stage, why), mv)
  {}

  lemma StopServerOk(s: State, g: nat, stage: Stage, why: Reason, mv: Move)
    requires StopMove(s, g, stage, why) == Some(mv) && PhaseOk(s.server) && Generations(s)
    ensures ServerOk(s, Stop(g, stage, why), mv)
  {}

  lemma StopOwnOk(s: State, g: nat, stage: Stage, why: Reason, mv: Move)
    requires StopMove(s, g, stage, why) == Some(mv) && Before(s, Stop(g, stage, why))
    ensures OwnOk(s, Stop(g, stage, why), mv)
  {}

  lemma StopStillOk(s: State, g: nat, stage: Stage, why: Reason, mv: Move, u: Thread)
    requires StopMove(s, g, stage, why) == Some(mv) && Before(s, Stop(g, stage, why))
    requires Beside(s, Stop(g, stage, why), u)
    ensures StillOk(s, mv, u)
  {}

  lemma StopStillDrained(s: State, g: nat, stage: Stage, why: Reason, mv: Move, x: nat)
    requires StopMove(s, g, stage, why) == Some(mv) && Before(s, Stop(g, stage, why)) && WasDrained(s, x)
    ensures StillDrained(s, mv, x)
  {}

  // ---------------------------------------------------------------------------------------
  // Shutdown callers
  // ---------------------------------------------------------------------------------------

  lemma CallerBalanced(s: State, i: nat, k: Caller, c: Choice, mv: Move)
    requires CallerMove(s, i, k, c) == Some(mv)
    ensures RequestsBalanced(s.runtimes, Shutdown(k), mv)
    ensures WorkersBalanced(s.runtimes, Shutdown(k), mv)
    ensures LoopsBalanced(Shutdown(k), mv)
  {}

  lemma CallerMetrics(s: State, i: nat, k: Caller, c: Choice, mv: Move)
    requires CallerMove(s, i, k, c) == Some(mv)
    ensures MetricsBalanced(Shutdown(k), mv)
  {}

  lemma DecidingOwners(s: State, i: nat, c: Choice, mv: Move)
    requires CallerMove(s, i, Deciding, c) == Some(mv) && PhaseOk(s.server)
    ensures OwnersBalanced(s.server, Shutdown(Deciding), mv)
  {}

  lemma SettledOwners(s: State, i: nat, k: Caller, c: Choice, mv: Move)
    requires CallerMove(s, i, k, c) == Some(mv) && k != Deciding
    ensures OwnersBalanced(s.server, Shutdown(k), mv)
  {}

  lemma CallerOwners(s: State, i: nat, k: Caller, c: Choice, mv: Move)
    requires CallerMove(s, i, k, c) == Some(mv) && PhaseOk(s.server)
    ensures OwnersBalanced(s.server, Shutdown(k), mv)
  {
    if k == Deciding {
      DecidingOwners(s, i, c, mv);
    } else {
      SettledOwners(s, i, k, c, mv);
    }
  }

  lemma CallerCallers(s: State, i: nat, k: Caller, c: Choice, mv: Move)
    requires CallerMove(s, i, k, c) == Some(mv)
    ensures CallersBalanced(s.server, Shutdown(k), mv)
  {}

  /** The owner takes the active runtime from the pointer and hands it to `Stop` or back. */
  predicate Hands(k: Caller) {
    k.Capturing? || k.Owning? || k.Forcing?
  }

  lemma OwnerHandedOn(s: State, i: nat, k: Caller, c: Choice, mv: Move)
    requires CallerMove(s, i, k, c) == Some(mv) && CallerOk(s.server, k) && Hands(k)
    ensures HandedOn(s.server, Shutdown(k), mv)
  {}

  lemma NonOwnerHandedOn(s: State, i: nat, k: Caller, c: Choice, mv: Move)
    requires CallerMove(s, i, k, c) == Some(mv) && !Hands(k)
    ensures HandedOn(s.server, Shutdown(k), mv)
  {}

  lemma CallerHandedOn(s: State, i: nat, k: Caller, c: Choice, mv: Move)
    requires CallerMove(s, i, k, c) == Some(mv) && CallerOk(s.server, k)
    ensures HandedOn(s.server, Shutdown(k), mv)
  {
    if Hands(k) {
      OwnerHandedOn(s, i, k, c, mv);
    } else {
      NonOwnerHandedOn(s, i, k, c, mv);
    }
  }

  lemma CallerLockStep(s: State, i: nat, k: Caller, c: Choice, mv: Move)
    requires CallerMove(s, i, k, c) == Some(mv)
    ensures LockStep(s, i, Shutdown(k), mv)
  {}

  lemma CallerServerOk(s: State, i: nat, k: Caller, c: Choice, mv: Move)
    requires CallerMove(s, i, k, c) == Some(mv) && Before(s, Shutdown(k))
    ensures ServerOk(s, Shutdown(k), mv)
  {}

  lemma CallerOwnOk(s: State, i: nat, k: Caller, c: Choice, mv: Move)
    requires CallerMove(s, i, k, c) == Some(mv) && CallerOk(s.server, k) && PhaseOk(s.server)
    requires s.server.active in s.server.built
    ensures OwnOk(s, Shutdown(k), mv)
  {}

  lemma CallerBesideCaller(s: State, i: nat, k: Caller, c: Choice, mv: Move, k': Caller)
    requires CallerMove(s, i, k, c) == Some(mv) && Before(s, Shutdown(k)) && Beside(s, Shutdown(k), Shutdown(k'))
    ensures StillOk(s, mv, Shutdown(k'))
  {}

  lemma CallerBesideRequest(s: State, i: nat, k: Caller, c: Choice, mv: Move, h: Handler)
    requires CallerMove(s, i, k, c) == Some(mv) && Before(s, Shutdown(k)) && Beside(s, Shutdown(k), Request(h))
    ensures StillOk(s, mv, Request(h))
  {}

  lemma CallerBesideOther(s: State, i: nat, k: Caller, c: Choice, mv: Move, u: Thread)
    requires CallerMove(s, i, k, c) == Some(mv) && Before(s, Shutdown(k)) && Beside(s, Shutdown(k), u)
    requires !u.Shutdown? && !u.Request?
    ensures StillOk(s, mv, u)
  {}

  lemma CallerStillOk(s: State, i: nat, k: Caller, c: Choice, mv: Move, u: Thread)
    requires CallerMove(s, i, k, c) == Some(mv) && Before(s, Shutdown(k)) && Beside(s, Shutdown(k), u)
    ensures StillOk(s, mv, u)
  {
    match u
    case Shutdown(k') => CallerBesideCaller(s, i, k, c, mv, k');
    case Request(h) => CallerBesideRequest(s, i, k, c, mv, h);
    case _ => CallerBesideOther(s, i, k, c, mv, u);
  }

  lemma CallerStillDrained(s: State, i: nat, k: Caller, c: Choice, mv: Move, x: nat)
    requires CallerMove(s, i, k, c) == Some(mv) && Before(s, Shutdown(k)) && WasDrained(s, x)
    ensures StillDrained(s, mv, x)
  {}

  // ---------------------------------------------------------------------------------------
  // Server.Start
  // ---------------------------------------------------------------------------------------

  lemma StarterBalanced(s: State, i: nat, b: Starter, c: Choice, mv: Move)
    requires StarterMove(s, i, b, c) == Some(mv)
    ensures RequestsBalanced(s.runtimes, Start(b), mv)
    ensures WorkersBalanced(s.runtimes, Start(b), mv)
    ensures LoopsBalanced(Start(b), mv)
  {}

  lemma StarterMetrics(s: State, i: nat, b: Starter, c: Choice, mv: Move)
    requires StarterMove(s, i, b, c) == Some(mv)
    ensures MetricsBalanced(Start(b), mv)
  {}

  lemma StarterOwners(s: State, i: nat, b: Starter, c: Choice, mv: Move)
    requires StarterMove(s, i, b, c) == Some(mv)
    ensures OwnersBalanced(s.server, Start(b), mv)
    ensures CallersBalanced(s.server, Start(b), mv)
  {}

  lemma StarterHandedOn(s: State, i: nat, b: Starter, c: Choice, mv: Move)
    requires StarterMove(s, i, b, c) == Some(mv) && StarterOk(s.server, b) && PhaseOk(s.server)
    ensures HandedOn(s.server, Start(b), mv)
  {}

  lemma StarterLockStep(s: State, i: nat, b: Starter, c: Choice, mv: Move)
    requires StarterMove(s, i, b, c) == Some(mv)
    ensures LockStep(s, i, Start(b), mv)
  {}

  lemma StarterServerOk(s: State, i: nat, b: Starter, c: Choice, mv: Move)
    requires StarterMove(s, i, b, c) == Some(mv) && Before(s, Start(b))
    ensures ServerOk(s, Start(b), mv)
  {}

  lemma StarterOwnOk(s: State, i: nat, b: Starter, c: Choice, mv: Move)
    requires StarterMove(s, i, b, c) == Some(mv) && Before(s, Start(b))
    ensures OwnOk(s, Start(b), mv)
  {}

  lemma StarterStillOk(s: State, i: nat, b: Starter, c: Choice, mv: Move, u: Thread)
    requires StarterMove(s, i, b, c) == Some(mv) && Before(s, Start(b)) && Beside(s, Start(b), u)
    ensures StillOk(s, mv, u)
  {}

  lemma StarterStillDrained(s: State, i: nat, b: Starter, c: Choice, mv: Move, x: nat)
    requires StarterMove(s, i, b, c) == Some(mv) && Before(s, Start(b)) && WasDrained(s, x)
    ensures StillDrained(s, mv, x)
  {}

  // ---------------------------------------------------------------------------------------
  // Probers
  // ---------------------------------------------------------------------------------------

  lemma ProberRequests(s: State, g: nat, slot: nat, at: Probe, c: Choice, mv: Move)
    requires ProberMove(s, g, slot, at, c) == Some(mv)
    ensures RequestsBalanced(s.runtimes, Prober(g, slot, at), mv)
  {}

  lemma ProberWorkers(s: State, g: nat, slot: nat, at: Probe, c: Choice, mv: Move)
    requires ProberMove(s, g, slot, at, c) == Some(mv) && Before(s, Prober(g, slot, at))
    ensures WorkersBalanced(s.runtimes, Prober(g, slot, at), mv)
  {}

  lemma ProberLoops(s: State, g: nat, slot: nat, at: Probe, c: Choice, mv: Move)
    requires ProberMove(s, g, slot, at, c) == Some(mv)
    ensures LoopsBalanced(Prober(g, slot, at), mv)
  {}

  lemma ProberCounted(s: State, g: nat, slot: nat, at: Probe, c: Choice, mv: Move)
    requires ProberMove(s, g, slot, at, c) == Some(mv)
    ensures MetricsBalanced(Prober(g, slot, at), mv)
    ensures OwnersBalanced(s.server, Prober(g, slot, at), mv)
    ensures CallersBalanced(s.server, Prober(g, slot, at), mv)
  {}

  lemma ProberOrderly(s: State, i: nat, g: nat, slot: nat, at: Probe, c: Choice, mv: Move)
    requires ProberMove(s, g, slot, at, c) == Some(mv)
    ensures HandedOn(s.server, Prober(g, slot, at), mv)
    ensures LockStep(s, i, Prober(g, slot, at), mv)
  {}

  lemma ProberOwnOk(s: State, g: nat, slot: nat, at: Probe, c: Choice, mv: Move)
    requires ProberMove(s, g, slot, at, c) == Some(mv) && Before(s, Prober(g, slot, at))
    ensures ServerOk(s, Prober(g, slot, at), mv)
    ensures OwnOk(s, Prober(g, slot, at), mv)
  {}

  lemma ProberStillOk(s: State, g: nat, slot: nat, at: Probe, c: Choice, mv: Move, u: Thread)
    requires ProberMove(s, g, slot, at, c) == Some(mv) && Before(s, Prober(g, slot, at))
    requires Beside(s, Prober(g, slot, at), u)
    ensures StillOk(s, mv, u)
  {}

  lemma ProberStillDrained(s: State, g: nat, slot: nat, at: Probe, c: Choice, mv: Move, x: nat)
    requires ProberMove(s, g, slot, at, c) == Some(mv) && Before(s, Prober(g, slot, at)) && WasDrained(s, x)
    ensures StillDrained(s, mv, x)
  {}

  // ---------------------------------------------------------------------------------------
  // Any thread
  // ---------------------------------------------------------------------------------------

  ghost predicate Local(s: State, i: nat, t: Thread, mv: Move) {
    && RequestsBalanced(s.runtimes, t, mv)
    && WorkersBalanced(s.runtimes, t, mv)
    && LoopsBalanced(t, mv)
    && MetricsBalanced(t, mv)
    && OwnersBalanced(s.server, t, mv)
    && CallersBalanced(s.server, t, mv)
    && HandedOn(s.server, t, mv)
    && LockStep(s, i, t, mv)
    && ServerOk(s, t, mv)
    && OwnOk(s, t, mv)
  }

  lemma LocalHolds(s: State, i: nat, c: Choice, mv: Move)
    requires i < |s.threads| && MoveOf(s, i, c) == Some(mv) && Before(s, s.threads[i])
    ensures Local(s, i, s.threads[i], mv)
  {
    match s.threads[i]
    case Request(h) =>
      HandlerRequests(s, h, mv);
      HandlerWorkers(s, h, mv);
      HandlerMetrics(s, h, mv);
      HandlerOrderly(s, i, h, mv);
      HandlerOwnOk(s, h, mv);
    case Reload(r) =>
      ReloaderRequests(s, i, r, c, mv);
      ReloaderWorkers(s, i, r, c, mv);
      ReloaderCounted(s, i, r, c, mv);
      ReloaderHandedOn(s, i, r, c, mv);
      ReloaderLockStep(s, i, r, c, mv);
      ReloaderOwnOk(s, i, r, c, mv);
    case Stop(g, stage, why) =>
      StopBalanced(s, g, stage, why, mv);
      StopCounted(s, g, stage, why, mv);
      StopHandedOn(s, g, stage, why, mv);
      StopLockStep(s, i, g, stage, why, mv);
      StopServerOk(s, g, stage, why, mv);
      StopOwnOk(s, g, stage, why, mv);
    case Shutdown(k) =>
      CallerBalanced(s, i, k, c, mv);
      CallerMetrics(s, i, k, c, mv);
      CallerOwners(s, i, k, c, mv);
      CallerCallers(s, i, k, c, mv);
      CallerHandedOn(s, i, k, c, mv);
      CallerLockStep(s, i, k, c, mv);
      CallerServerOk(s, i, k, c, mv);
      CallerOwnOk(s, i, k, c, mv);
    case Start(b) =>
      StarterBalanced(s, i, b, c, mv);
      StarterMetrics(s, i, b, c, mv);
      StarterOwners(s, i, b, c, mv);
      StarterHandedOn(s, i, b, c, mv);
      StarterLockStep(s, i, b, c, mv);
      StarterServerOk(s, i, b, c, mv);
      StarterOwnOk(s, i, b, c, mv);
    case Prober(g, slot, at) =>
      ProberRequests(s, g, slot, at, c, mv);
      ProberWorkers(s, g, slot, at, c, mv);
      ProberLoops(s, g, slot, at, c, mv);
      ProberCounted(s, g, slot, at, c, mv);
      ProberOrderly(s, i, g, slot, at, c, mv);
      ProberOwnOk(s, g, slot, at, c, mv);
  }

  lemma StillOkHolds(s: State, i: nat, c: Choice, mv: Move, u: Thread)
    requires i < |s.threads| && MoveOf(s, i, c) == Some(mv) && Before(s, s.threads[i]) && Beside(s, s.threads[i], u)
    ensures StillOk(s, mv, u)
  {
    match s.threads[i]
    case Request(h) => HandlerStillOk(s, h, mv, u);
    case Reload(r) => ReloaderStillOk(s, i, r, c, mv, u);
    case Stop(g, stage, why) => StopStillOk(s, g, stage, why, mv, u);
    case Shutdown(k) => CallerStillOk(s, i, k, c, mv, u);
    case Start(b) => StarterStillOk(s, i, b, c, mv, u);
    case Prober(g, slot, at) => ProberStillOk(s, g, slot, at, c, mv, u);
  }

  lemma StillDrainedHolds(s: State, i: nat, c: Choice, mv: Move, x: nat)
    requires i < |s.threads| && MoveOf(s, i, c) == Some(mv) && Before(s, s.threads[i]) && WasDrained(s, x)
    ensures StillDrained(s, mv, x)
  {
    match s.threads[i]
    case Request(h) => HandlerStillDrained(s, h, mv, x);
    case Reload(r) => ReloaderStillDrained(s, i, r, c, mv, x);
    case Stop(g, stage, why) => StopStillDrained(s, g, stage, why, mv, x);
    case Shutdown(k) => CallerStillDrained(s, i, k, c, mv, x);
    case Start(b) => StarterStillDrained(s, i, b, c, mv, x);
    case Prober(g, slot, at) => ProberStillDrained(s, g, slot, at, c, mv, x);
  }

  // ---------------------------------------------------------------------------------------
  // Whole states
  // ---------------------------------------------------------------------------------------

  lemma CountsKept(s: State, i: nat, mv: Move)
    requires i < |s.threads| && Local(s, i, s.threads[i], mv)
    requires WaitGroups(s.threads, s.runtimes) && Counters(s) && Conserved(s.threads, s.server, s.runtimes)
    ensures WaitGroups(Apply(s, i, mv).threads, Apply(s, i, mv).runtimes)
    ensures Counters(Apply(s, i, mv))
    ensures Conserved(Apply(s, i, mv).threads, Apply(s, i, mv).server, Apply(s, i, mv).runtimes)
  {
    TotalsAfter(s, i, mv);
    TotalMember(s.threads, i, Callers);
  }

  lemma LockKept(s: State, i: nat, mv: Move)
    requires i < |s.threads| && LockStep(s, i, s.threads[i], mv) && MetricsBalanced(s.threads[i], mv)
    requires LockDiscipline(s) && s.readers == Total(s.threads, Readers)
    ensures LockDiscipline(Apply(s, i, mv))
  {
    TotalMember(s.threads, i, Readers);
  }

  lemma ThreadsKept(s: State, i: nat, c: Choice, mv: Move)
    requires i < |s.threads| && MoveOf(s, i, c) == Some(mv) && Inv(s) && OwnOk(s, s.threads[i], mv)
    ensures Threads(Apply(s, i, mv))
  {
    var s' := Apply(s, i, mv);
    forall j | 0 <= j < |s'.threads|
      ensures ThreadOk(s'.server, s'.runtimes, s'.threads[j])
      ensures IsStarter(s'.threads[j]) <==> j == 0
    {
      if j < |s.threads| && j != i {
        StandingHolds(s, i);
        StandingHolds(s, j);
        ExclusiveHolds(s, i, j);
        TotalMember(s.threads, j, Entering);
        StillOkHolds(s, i, c, mv, s.threads[j]);
      }
    }
  }

  lemma UnreadyKept(s: State, i: nat, mv: Move)
    requires i < |s.threads| && ServerOk(s, s.threads[i], mv) && LockStep(s, i, s.threads[i], mv)
    requires LockDiscipline(s) && Unready(s)
    ensures Unready(Apply(s, i, mv))
  {}

  lemma DrainedKept(s: State, i: nat, c: Choice, mv: Move)
    requires i < |s.threads| && MoveOf(s, i, c) == Some(mv) && Before(s, s.threads[i])
    requires Drained(s) && Conserved(s.threads, s.server, s.runtimes)
    ensures Drained(Apply(s, i, mv))
  {
    forall g | g in Apply(s, i, mv).server.retired
      ensures StillDrained(s, mv, g)
    {
      StillDrainedHolds(s, i, c, mv, g);
    }
  }

  /** Every action of a thread keeps the invariant. */
  lemma MoveKeeps(s: State, i: nat, c: Choice, mv: Move)
    requires Inv(s) && i < |s.threads| && MoveOf(s, i, c) == Some(mv)
    ensures Inv(Apply(s, i, mv))
  {
    StandingHolds(s, i);
    LocalHolds(s, i, c, mv);
    CountsKept(s, i, mv);
    LockKept(s, i, mv);
    ThreadsKept(s, i, c, mv);
    UnreadyKept(s, i, mv);
    DrainedKept(s, i, c, mv);
  }

  // ---------------------------------------------------------------------------------------
  // Arrivals
  // ---------------------------------------------------------------------------------------

  /** The groups about numbers. */
  ghost predicate Numbers(s: State) {
    && WaitGroups(s.threads, s.runtimes)
    && Counters(s)
    && Conserved(s.threads, s.server, s.runtimes)
  }

  /** The groups about single threads. */
  ghost predicate Places(s: State) {
    LockDiscipline(s) && Threads(s) && Unready(s)
  }

  /** A thread that arrives with nothing in hand. */
  predicate Blank(s: State, t: Thread) {
    || (t == Request(Arrived) && Serves(s.server))
    || (t == Shutdown(Called) && |s.threads| > 0 && !InStartWindow(s.threads[0]))
  }

  lemma BlankWaitGroups(s: State, t: Thread)
    requires WaitGroups(s.threads, s.runtimes) && Blank(s, t)
    ensures WaitGroups(s.threads + [t], s.runtimes)
  {
    Joined(s.threads, t);
  }

  lemma BlankConserved(s: State, t: Thread)
    requires Conserved(s.threads, s.server, s.runtimes) && Blank(s, t)
    ensures Conserved(s.threads + [t], s.server, s.runtimes)
  {
    Joined(s.threads, t);
  }

  lemma BlankCounters(s: State, t: Thread)
    requires Counters(s) && Blank(s, t) && |s.threads| > 0
    ensures Counters(s.(threads := s.threads + [t]))
  {
    Joined(s.threads, t);
  }

  lemma BlankNumbers(s: State, t: Thread)
    requires Numbers(s) && Blank(s, t) && |s.threads| > 0
    ensures Numbers(s.(threads := s.threads + [t]))
  {
    BlankWaitGroups(s, t);
    BlankConserved(s, t);
    BlankCounters(s, t);
  }

  lemma BlankPlaces(s: State, t: Thread)
    requires Places(s) && Blank(s, t)
    ensures Places(s.(threads := s.threads + [t]))
  {}

  function WithReload(s: State, backends: nat, enabled: bool): State {
    var g := s.nextGeneration + 1;
    s.(threads := s.threads + [Reload(Building(g, backends, false))],
       nextGeneration := g,
       runtimes := s.runtimes[g := Runtime(0, 0, false, enabled)])
  }

  lemma ReloadWaitGroups(s: State, backends: nat, enabled: bool)
    requires WaitGroups(s.threads, s.runtimes) && Generations(s)
    ensures WaitGroups(WithReload(s, backends, enabled).threads, WithReload(s, backends, enabled).runtimes)
  {
    Joined(s.threads, Reload(Building(s.nextGeneration + 1, backends, false)));
  }

  lemma ReloadConserved(s: State, backends: nat, enabled: bool)
    requires Conserved(s.threads, s.server, s.runtimes) && s.nextGeneration + 1 !in s.runtimes
    ensures var s' := WithReload(s, backends, enabled);
      Conserved(s'.threads, s'.server, s'.runtimes)
  {
    var g := s.nextGeneration + 1;
    var s' := WithReload(s, backends, enabled);
    forall x
      ensures Total(s'.threads, Claims(x)) == Total(s.threads, Claims(x)) + Bit(x == g)
    {
      TotalAppend(s.threads, Reload(Building(g, backends, false)), Claims(x));
    }
    assert forall x :: x in s'.runtimes <==> x in s.runtimes || x == g;
  }

  lemma ReloadCounters(s: State, backends: nat, enabled: bool)
    requires Counters(s) && |s.threads| > 0
    ensures Counters(WithReload(s, backends, enabled))
  {
    Joined(s.threads, Reload(Building(s.nextGeneration + 1, backends, false)));
  }

  lemma ReloadPlaces(s: State, backends: nat, enabled: bool)
    requires Places(s) && Generations(s) && Drained(s)
    ensures Places(WithReload(s, backends, enabled))
    ensures Generations(WithReload(s, backends, enabled)) && Drained(WithReload(s, backends, enabled))
  {
    var s' := WithReload(s, backends, enabled);
    forall j | 0 <= j < |s.threads|
      ensures ThreadOk(s'.server, s'.runtimes, s.threads[j])
    {
      assert ThreadOk(s.server, s.runtimes, s.threads[j]);
    }
  }

  function StartMove(s: State): Move {
    Move(Start(Started(s.server.active)), None, Nothing)
  }

  lemma StartNumbers(s: State)
    requires Numbers(s) && |s.threads| > 0 && s.threads[0] == Start(Idle) && Total(s.threads, Callers) == 0
    ensures Numbers(Apply(s, 0, StartMove(s)))
  {
    TotalsAfter(s, 0, StartMove(s));
  }

  lemma StartPlaces(s: State)
    requires Places(s) && s.threads[0] == Start(Idle) && !s.server.begun
    ensures Places(Apply(s, 0, StartMove(s)))
  {}

  lemma RequestKeeps(s: State, s': State)
    requires Inv(s) && Next(s, NewRequest) == Some(s')
    ensures Inv(s')
  {
    BlankNumbers(s, Request(Arrived));
    BlankPlaces(s, Request(Arrived));
  }

  lemma ShutdownKeeps(s: State, s': State)
    requires Inv(s) && CallersOrdered(s, NewShutdown) && Next(s, NewShutdown) == Some(s')
    ensures Inv(s')
  {
    BlankNumbers(s, Shutdown(Called));
    BlankPlaces(s, Shutdown(Called));
  }

  lemma ReloadKeeps(s: State, backends: nat, enabled: bool, s': State)
    requires Inv(s) && Next(s, NewReload(backends, enabled)) == Some(s')
    ensures Inv(s')
  {
    ReloadWaitGroups(s, backends, enabled);
    ReloadConserved(s, backends, enabled);
    ReloadCounters(s, backends, enabled);
    ReloadPlaces(s, backends, enabled);
  }

  lemma StartKeeps(s: State, s': State)
    requires Inv(s) && CallersOrdered(s, StartServer) && Next(s, StartServer) == Some(s')
    ensures Inv(s')
  {
    StartNumbers(s);
    StartPlaces(s);
  }

  /** Every event that respects the callers' ordering keeps the invariant. */
  lemma NextKeeps(s: State, e: Event, s': State)
    requires Inv(s) && CallersOrdered(s, e) && Next(s, e) == Some(s')
    ensures Inv(s')
  {
    match e
    case NewRequest => RequestKeeps(s, s');
    case NewShutdown => ShutdownKeeps(s, s');
    case NewReload(backends, enabled) => ReloadKeeps(s, backends, enabled, s');
    case StartServer => StartKeeps(s, s');
    case Run(i, c) => MoveKeeps(s, i, c, MoveOf(s, i, c).value);
  }

  function InitialThreads(probers: nat): seq<Thread> {
    [Start(Idle)] + seq(probers, (slot: nat) => Prober(1, slot, Looping))
  }

  lemma MoreProbers(probers: nat, m: Meter)
    ensures Total(InitialThreads(probers + 1), m)
         == Total(InitialThreads(probers), m) + Weight(m, Prober(1, probers, Looping))
  {
    assert InitialThreads(probers + 1) == InitialThreads(probers) + [Prober(1, probers, Looping)];
    TotalAppend(InitialThreads(probers), Prober(1, probers, Looping), m);
  }

  lemma NoProbers(m: Meter)
    ensures Total(InitialThreads(0), m) == Weight(m, Start(Idle))
  {
    var none: seq<Thread> := [];
    TotalAppend(none, Start(Idle), m);
    assert InitialThreads(0) == none + [Start(Idle)];
  }

  lemma {:induction false} InitialWorkers(probers: nat, g: nat)
    ensures Total(InitialThreads(probers), Workers(g)) == if g == 1 then probers else 0
  {
    if probers == 0 {
      NoProbers(Workers(g));
    } else {
      InitialWorkers(probers - 1, g);
      MoreProbers(probers - 1, Workers(g));
    }
  }

  lemma {:induction false} InitialLoops(probers: nat, g: nat, slot: nat)
    ensures Total(InitialThreads(probers), Loops(g, slot)) == Bit(g == 1 && slot < probers)
  {
    if probers == 0 {
      NoProbers(Loops(g, slot));
    } else {
      InitialLoops(probers - 1, g, slot);
      MoreProbers(probers - 1, Loops(g, slot));
    }
  }

  /** The initial threads weigh on no other meter of the invariant. */
  lemma {:induction false} InitialRest(probers: nat, m: Meter)
    requires !m.Workers? && !m.Loops? && !m.Work? && !m.Remaining?
    ensures Total(InitialThreads(probers), m) == 0
  {
    if probers == 0 {
      NoProbers(m);
    } else {
      InitialRest(probers - 1, m);
      MoreProbers(probers - 1, m);
    }
  }

  lemma InitialWaitGroups(probers: nat, rts: map<nat, Runtime>, enabled: bool)
    requires rts == map[1 := Runtime(0, probers, false, enabled)]
    ensures WaitGroups(InitialThreads(probers), rts)
  {
    forall g
      ensures RequestsOf(rts, g) == Total(InitialThreads(probers), InFlight(g))
      ensures WorkersOf(rts, g) == Total(InitialThreads(probers), Workers(g))
    {
      InitialRest(probers, InFlight(g));
      InitialWorkers(probers, g);
    }
    forall g, slot
      ensures Total(InitialThreads(probers), Loops(g, slot)) <= Bit(g in rts)
    {
      InitialLoops(probers, g, slot);
    }
  }

  lemma InitialNumbers(probers: nat, enabled: bool)
    ensures Numbers(InitialState(probers, enabled))
  {
    var s := InitialState(probers, enabled);
    assert s.threads == InitialThreads(probers);
    InitialWaitGroups(probers, s.runtimes, enabled);
    InitialRest(probers, Readers);
    InitialRest(probers, Gauge);
    InitialRest(probers, Counted);
    InitialRest(probers, Owners);
    InitialRest(probers, Callers);
    forall g
      ensures Total(s.threads, Claims(g)) == 0
    {
      InitialRest(probers, Claims(g));
    }
  }

  lemma InitialInv(probers: nat, enabled: bool)
    ensures Inv(InitialState(probers, enabled))
  {
    InitialNumbers(probers, enabled);
  }

  /** The invariant holds in every state of every ordered run. */
  lemma {:induction false} RunInv(states: seq<State>, events: seq<Event>, k: nat)
    requires IsOrderedRun(states, events) && k < |states|
    ensures Inv(states[k])
  {
    if k == 0 {
      var probers, enabled :| states[0] == InitialState(probers, enabled);
      InitialInv(probers, enabled);
    } else {
      RunInv(states, events, k - 1);
      NextKeeps(states[k - 1], events[k - 1], states[k]);
    }
  }
}
