/**
 The invariant of ordered runs.

 It is stated in groups, each over the part of the state it needs. The module after this one
 proves that every event keeps every group.
 */
module LifecycleInvariant {
  import opened Lifecycle

  /** The thread holds `runtimeMu` for writing. */
  predicate Critical(t: Thread) {
    match t
    case Reload(r) => r.Checking? || r.Allowed? || r.Swapped? || r.Refusing?
    case Shutdown(c) =>
      c.Deciding? || c.Marking? || c.Capturing? || c.Settling? || c.Closing? || c.Closed? || c.Reading?
    case Start(b) => b.Judging? || b.Retracting? || b.Retracted?
    case _ => false
  }

  /** The thread's next action is `runtimeMu.Lock()`. */
  predicate AtLock(t: Thread) {
    match t
    case Reload(r) => r.Built?
    case Shutdown(c) => c.Called? || c.Completing? || c.Woken?
    case Start(b) => b.ServeFailed?
    case _ => false
  }

  /** The thread runs `Server.Start`. */
  predicate IsStarter(t: Thread) {
    t.Start? || (t.Stop? && (t.why == ByListen || t.why == ByServe))
  }

  /** Handlers may be on their way in: there is a listener and the HTTP server has not drained. */
  predicate Serves(sv: Server) {
    sv.listening && !sv.httpClosed
  }

  predicate LeftRunning(sv: Server) {
    sv.phase == ShuttingDown || sv.phase == Stopped
  }

  /** No handler can acquire generation `g` any more: it is not the active one, the HTTP server
      has drained, or the server is past Running and never listened. */
  predicate Unreachable(sv: Server, g: nat) {
    g != sv.active || sv.httpClosed || (LeftRunning(sv) && !sv.listening)
  }

  ghost predicate Generations(s: State) {
    && (forall g :: g in s.runtimes <==> 1 <= g <= s.nextGeneration)
    && (forall g :: g in s.server.built ==> g in s.runtimes)
    && s.server.active in s.server.built
  }

  /** The wait groups equal what the threads say. */
  ghost predicate WaitGroups(ts: seq<Thread>, rts: map<nat, Runtime>) {
    && (forall g :: RequestsOf(rts, g) == Total(ts, InFlight(g)))
    && (forall g :: WorkersOf(rts, g) == Total(ts, Workers(g)))
    && (forall g, slot :: Total(ts, Loops(g, slot)) <= Bit(g in rts))
  }

  /** So do the reader count, the metrics and the number of live shutdown owners. */
  ghost predicate Counters(s: State) {
    && s.readers == Total(s.threads, Readers)
    && s.inflight == Total(s.threads, Gauge)
    && s.requestsTotal == Total(s.threads, Counted)
    && Total(s.threads, Owners) + s.server.closes == Bit(s.server.begun)
    && (s.server.begun ==> Total(s.threads, Callers) > 0)
    && (|s.threads| > 0 && InStartWindow(s.threads[0]) ==> Total(s.threads, Callers) == 0)
  }

  /** Every generation ever numbered is in exactly one place: with the one thread that builds
      it, gave it up, must install it or must stop it, with the server's pointer, or retired. */
  ghost predicate Conserved(ts: seq<Thread>, sv: Server, rts: map<nat, Runtime>) {
    forall g :: Total(ts, Claims(g)) + Bit(sv.pointerOwns && g == sv.active) + Bit(g in sv.retired) == Bit(g in rts)
  }

  ghost predicate LockDiscipline(s: State) {
    && (forall i :: 0 <= i < |s.threads| ==> (Critical(s.threads[i]) <==> s.writer == Held(i)))
    && (s.writer.Pending? ==> s.writer.who < |s.threads| && AtLock(s.threads[s.writer.who]))
    && (s.writer.Held? ==> s.writer.who < |s.threads| && s.readers == 0)
  }

  predicate PhaseOk(sv: Server) {
    && (sv.phase == Starting || sv.phase == Running ==> sv.pointerOwns && !sv.begun)
    && (sv.phase == ShuttingDown ==> sv.begun)
    && (!sv.begun ==> sv.shutdownErr == Success)
    && (sv.httpClosed ==> sv.begun)
    && (sv.listening ==> sv.srv)
    && (sv.phase == Stopped ==> !sv.ready && sv.shutdownErr == Success)
    && (sv.closes > 0 ==> sv.phase == if sv.shutdownErr == Success then Stopped else ShuttingDown)
    && (sv.phase == Stopped && sv.begun ==> ShutDown(sv))
  }

  /** What a shutdown that succeeds leaves behind. */
  predicate ShutDown(sv: Server) {
    sv.active in sv.retired && (sv.srv ==> sv.httpClosed)
  }

  predicate StopOk(sv: Server, rts: map<nat, Runtime>, g: nat, stage: Stage, why: Reason) {
    && g in sv.built
    && (stage != Cancel ==> Cancelled(rts, g))
    && (stage == DrainWorkers && Unreachable(sv, g) ==> RequestsOf(rts, g) == 0)
    && (if why == Replaced || why == Refused then g != sv.active else g == sv.active && !sv.pointerOwns)
    && (why == ByShutdown ==> sv.phase == ShuttingDown && (sv.srv ==> sv.httpClosed))
    && (why == ByListen || why == ByServe ==> sv.phase == Stopped && !sv.begun)
    && (why == ByListen ==> !sv.listening)
  }

  predicate HandlerOk(sv: Server, rts: map<nat, Runtime>, h: Handler) {
    match h
    case Arrived => Serves(sv)
    case ReadLocked => Serves(sv)
    case Loaded(g) => g == sv.active && Serves(sv)
    case Acquired(g) => g in sv.built && Serves(sv)
    case Serving(g) => g in sv.built
    case Tracked(g, on) => g in sv.built && on == Enabled(rts, g)
    case Recorded(g, on) => g in sv.built && on == Enabled(rts, g)
    case Untracked(g, on) => g in sv.built && on == Enabled(rts, g)
    case Answered(g, on) => g in sv.built && on == Enabled(rts, g)
  }

  predicate ReloaderOk(sv: Server, rts: map<nat, Runtime>, r: Reloader) {
    match r
    case Building(g, _, _) => g in rts && g !in sv.built
    case BuildFailed(g) => Cancelled(rts, g) && g !in sv.built
    case Reloaded(g, _) => g in sv.retired && g != sv.active
    case _ => r.g in sv.built && r.g != sv.active && (r.Allowed? || r.Swapped? ==> sv.phase == Running)
  }

  predicate CallerOk(sv: Server, c: Caller) {
    match c
    case Called => true
    case Deciding => true
    case Marking => sv.phase == ShuttingDown && sv.pointerOwns
    case Capturing => sv.phase == ShuttingDown && sv.pointerOwns
    case Owning(g) => sv.phase == ShuttingDown && g == sv.active && !sv.pointerOwns
    case Forcing(g) => sv.phase == ShuttingDown && g == sv.active && !sv.pointerOwns
    case Completing(r) => sv.phase == ShuttingDown && (r == Success ==> ShutDown(sv))
    case Settling(r) => sv.phase == ShuttingDown && (r == Success ==> ShutDown(sv))
    case Closing(r) => sv.shutdownErr == r && sv.phase == if r == Success then Stopped else ShuttingDown
    case Closed(r) => sv.shutdownErr == r && sv.closes > 0
    case Waiting => sv.begun
    case Woken => sv.closes > 0
    case Reading => sv.closes > 0
    case Returned(r) => r == sv.shutdownErr && (sv.phase == Stopped || sv.closes > 0)
  }

  predicate StarterOk(sv: Server, b: Starter) {
    match b
    case Idle => !sv.srv && !sv.listening && !sv.ready && (sv.phase == Starting || sv.begun)
    case Bound => sv.phase == Starting && !sv.ready
    case Announcing => sv.phase == Starting && sv.ready
    case Accepting => sv.phase != Starting && (sv.phase == Running ==> sv.ready)
    case ServeFailed => sv.phase != Starting && (sv.phase == Running ==> sv.ready)
    case Judging => sv.phase != Starting && (sv.phase == Running ==> sv.ready)
    case Retracting => sv.phase == Running && !sv.ready
    case Retracted => sv.phase == Stopped && sv.pointerOwns && !sv.begun
    case Ended => sv.phase == ShuttingDown || sv.phase == Stopped
    case _ => sv.phase == Starting && b.g == sv.active && !sv.ready && !sv.listening && (!b.Started? ==> sv.srv)
  }

  predicate ThreadOk(sv: Server, rts: map<nat, Runtime>, t: Thread) {
    match t
    case Request(h) => HandlerOk(sv, rts, h)
    case Reload(r) => ReloaderOk(sv, rts, r)
    case Stop(g, stage, why) => StopOk(sv, rts, g, stage, why)
    case Shutdown(c) => CallerOk(sv, c)
    case Start(b) => StarterOk(sv, b)
    case Prober(g, _, _) => g in rts
  }

  ghost predicate Threads(s: State) {
    && |s.threads| > 0
    && (forall i :: 0 <= i < |s.threads| ==> (IsStarter(s.threads[i]) <==> i == 0))
    && (forall i :: 0 <= i < |s.threads| ==> ThreadOk(s.server, s.runtimes, s.threads[i]))
  }

  /** Outside the critical section that begins a shutdown, a server that left Running is not ready. */
  ghost predicate Unready(s: State) {
    s.server.phase == ShuttingDown && s.server.ready ==>
      s.writer.Held? && s.writer.who < |s.threads| && s.threads[s.writer.who] == Shutdown(Marking)
  }

  /** A retired generation has no worker, and no request unless handlers can still reach it. */
  predicate DrainOk(sv: Server, rts: map<nat, Runtime>, g: nat) {
    Cancelled(rts, g) && WorkersOf(rts, g) == 0 && (Unreachable(sv, g) ==> RequestsOf(rts, g) == 0)
  }

  ghost predicate Drained(s: State) {
    forall g :: g in s.server.retired ==> DrainOk(s.server, s.runtimes, g)
  }

  ghost predicate Inv(s: State) {
    && Generations(s)
    && WaitGroups(s.threads, s.runtimes)
    && Counters(s)
    && Conserved(s.threads, s.server, s.runtimes)
    && LockDiscipline(s)
    && PhaseOk(s.server)
    && Threads(s)
    && Unready(s)
    && Drained(s)
  }
}
