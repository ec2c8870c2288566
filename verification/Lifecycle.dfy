/**
 The runtime-generation lifecycle as a transition system.

 Every goroutine is a `Thread` holding a program counter. A state also holds the fields of
 the proxy server, the reader/writer lock `runtimeMu`, two wait groups per generation and the
 two request metrics. One event is one atomic action of one thread, so a run is one
 interleaving.
 */
module Lifecycle {
  import opened Options

  datatype Phase = Starting | Running | ShuttingDown | Stopped

  /** Go's RWMutex: an announced writer already keeps new readers out. */
  datatype Writer = Free | Pending(who: nat) | Held(who: nat)

  datatype Result = Success | Failure

  datatype Runtime = Runtime(requestWG: int, workerWG: int, cancelled: bool, enabled: bool)

  /** `Server.httpHandler`, named after what the request has just done. */
  datatype Handler =
    | Arrived
    | ReadLocked
    | Loaded(g: nat)
    | Acquired(g: nat)
    | Serving(g: nat)
    | Tracked(g: nat, on: bool)
    | Recorded(g: nat, on: bool)
    | Untracked(g: nat, on: bool)
    | Answered(g: nat, on: bool)

  /** `Manager.Reload`: `BuildRuntime`, then `Server.Reload` up to its `Stop` call. */
  datatype Reloader =
    | Building(g: nat, left: nat, reserved: bool)
    | BuildFailed(g: nat)
    | Built(g: nat)
    | Checking(g: nat)
    | Allowed(g: nat)
    | Swapped(g: nat)
    | Refusing(g: nat)
    | Reloaded(g: nat, accepted: bool)

  /** The next action of a `Runtime.Stop` in progress. */
  datatype Stage = Cancel | DrainRequests | DrainWorkers

  /** Who called `Runtime.Stop`, hence where control returns to. */
  datatype Reason = Replaced | Refused | ByShutdown | ByListen | ByServe

  /** `Server.Shutdown`, apart from its `Stop` call. */
  datatype Caller =
    | Called
    | Deciding
    | Marking
    | Capturing
    | Owning(g: nat)
    | Forcing(g: nat)
    | Completing(r: Result)
    | Settling(r: Result)
    | Closing(r: Result)
    | Closed(r: Result)
    | Waiting
    | Woken
    | Reading
    | Returned(r: Result)

  /** `Server.Start`, apart from its `Stop` calls. */
  datatype Starter =
    | Idle
    | Started(g: nat)
    | Listening(g: nat)
    | Bound
    | Announcing
    | ListenFailed(g: nat)
    | Unannounced(g: nat)
    | Accepting
    | ServeFailed
    | Judging
    | Retracting
    | Retracted
    | Ended

  /** The goroutine of `StartProber` for one backend. */
  datatype Probe = Looping | Probing | Panicked | Restarting | Reserved | Leaving | Gone

  datatype Thread =
    | Request(h: Handler)
    | Reload(r: Reloader)
    | Stop(g: nat, stage: Stage, why: Reason)
    | Shutdown(c: Caller)
    | Start(b: Starter)
    | Prober(g: nat, slot: nat, at: Probe)

  /** The fields of `proxy.Server` apart from its lock (`listening` says that the listener is
      set), whether the HTTP server has drained, and four history variables: a Shutdown has marked
      the server; the runtimes BuildRuntime returned; the runtimes whose Stop returned; the
      pointer, not a stopping thread, is responsible for the active runtime. */
  datatype Server = Server(
    active: nat,
    phase: Phase,
    ready: bool,
    srv: bool,
    listening: bool,
    shutdownErr: Result,
    closes: nat,
    httpClosed: bool,
    begun: bool,
    built: set<nat>,
    retired: set<nat>,
    pointerOwns: bool
  )

  datatype State = State(
    threads: seq<Thread>,
    server: Server,
    runtimes: map<nat, Runtime>,
    nextGeneration: nat,
    writer: Writer,
    readers: int,
    inflight: int,
    requestsTotal: nat
  )

  /** What resolves a step: the normal way on, an external failure, a ticker or timer, a
      panic of the probed code, or an expired graceful deadline. */
  datatype Choice = Go | Fail | Tick | Panic | Timeout

  datatype Event =
    | NewRequest
    | NewReload(backends: nat, enabled: bool)
    | NewShutdown
    | StartServer
    | Run(i: nat, c: Choice)

  // ---------------------------------------------------------------------------------------
  // Totals: how much a list of threads weighs on a meter
  // ---------------------------------------------------------------------------------------

  datatype Meter =
    | InFlight(g: nat)         // handlers between AcquireRequest and ReleaseRequest
    | Workers(g: nat)          // AddWorker calls without their DoneWorker
    | Loops(g: nat, slot: nat) // the right to run the probe loop of one backend
    | Readers                  // holders of the read lock
    | Entering                 // handlers that have not let go of the read lock yet
    | Gauge                    // handlers counted by the in-flight gauge
    | Counted                  // handlers counted by the request counter
    | Claims(g: nat)           // threads that build, gave up, must install or must stop generation g
    | Owners                   // shutdown owners that have not closed shutdownDone
    | Callers                  // Shutdown calls ever made
    | Reloads                  // reload attempts not finished
    | Work                     // steps left before the thread rests
    | Remaining(g: nat)        // steps left to the handlers and probers of generation g once it is cancelled

  function Bit(b: bool): nat {
    if b then 1 else 0
  }

  function HandlerWork(h: Handler): nat {
    match h
    case Arrived => 8 case ReadLocked => 7 case Loaded(_) => 6 case Acquired(_) => 5 case Serving(_) => 4
    case Tracked(_, _) => 3 case Recorded(_, _) => 2 case Untracked(_, _) => 1 case Answered(_, _) => 0
  }

  function HandlerWeight(m: Meter, h: Handler): nat {
    match m
    case InFlight(g) => Bit((h.Acquired? || h.Serving? || h.Tracked? || h.Recorded? || h.Untracked?) && h.g == g)
    case Readers => Bit(h.ReadLocked? || h.Loaded? || h.Acquired?)
    case Entering => Bit(h.Arrived? || h.ReadLocked? || h.Loaded? || h.Acquired?)
    case Gauge => Bit((h.Tracked? || h.Recorded?) && h.on)
    case Counted => Bit((h.Recorded? || h.Untracked? || h.Answered?) && h.on)
    case Work => HandlerWork(h)
    case Remaining(g) => if !h.Arrived? && !h.ReadLocked? && !h.Loaded? && h.g == g then HandlerWork(h) else 0
    case _ => 0
  }

  function ReloaderWeight(m: Meter, r: Reloader): nat {
    match m
    case Workers(g) => Bit(r.Building? && r.g == g && r.reserved)
    case Loops(g, slot) => Bit(r.Building? && r.g == g && slot < r.left + Bit(r.reserved))
    case Claims(g) => Bit(!r.Reloaded? && r.g == g)
    case Reloads => Bit(!r.BuildFailed? && !r.Reloaded?)
    case Work =>
      (match r
       case Building(_, left, reserved) => 8 + 4 * left + 3 * Bit(reserved)
       case BuildFailed(_) => 0 case Built(_) => 7 case Checking(_) => 6 case Allowed(_) => 5
       case Swapped(_) => 4 case Refusing(_) => 4 case Reloaded(_, _) => 0)
    case _ => 0
  }

  function StopWeight(m: Meter, g: nat, stage: Stage, why: Reason): nat {
    match m
    case Claims(g') => Bit(g == g')
    case Owners => Bit(why == ByShutdown)
    case Callers => Bit(why == ByShutdown)
    case Reloads => Bit(why == Replaced || why == Refused)
    case Work =>
      (match stage case Cancel => 3 case DrainRequests => 2 case DrainWorkers => 1) + 4 * Bit(why == ByShutdown)
    case _ => 0
  }

  function CallerWeight(m: Meter, c: Caller): nat {
    match m
    case Claims(g) => Bit((c.Owning? || c.Forcing?) && c.g == g)
    case Owners =>
      Bit(|| c.Marking? || c.Capturing? || c.Owning? || c.Forcing?
          || c.Completing? || c.Settling? || c.Closing?)
    case Callers => 1
    case Work =>
      (match c
       case Called => 13 case Deciding => 12 case Marking => 11 case Capturing => 10
       case Owning(_) => 9 case Forcing(_) => 8
       case Completing(_) => 4 case Settling(_) => 3 case Closing(_) => 2 case Closed(_) => 1
       case Waiting => 3 case Woken => 2 case Reading => 1 case Returned(_) => 0)
    case _ => 0
  }

  function StarterWeight(m: Meter, b: Starter): nat {
    match m
    case Work =>
      (match b
       case Idle => 0 case Started(_) => 12 case Listening(_) => 11 case Bound => 10 case Announcing => 9
       case ListenFailed(_) => 5 case Unannounced(_) => 4
       case Accepting => 8 case ServeFailed => 7 case Judging => 6 case Retracting => 5 case Retracted => 4
       case Ended => 0)
    case _ => 0
  }

  function ProberWeight(m: Meter, g: nat, slot: nat, at: Probe): nat {
    match m
    case Workers(g') => if g != g' || at == Gone then 0 else if at == Reserved then 2 else 1
    case Loops(g', slot') => Bit(g == g' && slot == slot' && at != Leaving && at != Gone)
    case Work =>
      (match at
       case Panicked => 6 case Restarting => 5 case Reserved => 4 case Probing => 3 case Looping => 2
       case Leaving => 1 case Gone => 0)
    case Remaining(g') =>
      if g != g' then 0 else
      (match at
       case Restarting => 6 case Reserved => 5 case Probing => 4 case Looping => 3 case Panicked => 2
       case Leaving => 1 case Gone => 0)
    case _ => 0
  }

  function Weight(m: Meter, t: Thread): nat {
    match t
    case Request(h) => HandlerWeight(m, h)
    case Reload(r) => ReloaderWeight(m, r)
    case Stop(g, stage, why) => StopWeight(m, g, stage, why)
    case Shutdown(c) => CallerWeight(m, c)
    case Start(b) => StarterWeight(m, b)
    case Prober(g, slot, at) => ProberWeight(m, g, slot, at)
  }

  function Total(ts: seq<Thread>, m: Meter): (n: nat) {
    if ts == [] then 0 else Total(ts[..|ts| - 1], m) + Weight(m, ts[|ts| - 1])
  }

  // ---------------------------------------------------------------------------------------
  // Steps
  // ---------------------------------------------------------------------------------------

  predicate Enabled(rts: map<nat, Runtime>, g: nat) {
    g in rts && rts[g].enabled
  }

  predicate Cancelled(rts: map<nat, Runtime>, g: nat) {
    g in rts && rts[g].cancelled
  }

  function RequestsOf(rts: map<nat, Runtime>, g: nat): int {
    if g in rts then rts[g].requestWG else 0
  }

  function WorkersOf(rts: map<nat, Runtime>, g: nat): int {
    if g in rts then rts[g].workerWG else 0
  }

  /** The shared effect of one atomic action. */
  datatype Effect =
    | Nothing
    | EnterRead
    | LeaveRead
    | Announce
    | EnterWrite
    | Store(server: Server, unlock: bool)
    | AddRequests(g: nat, d: int)
    | AddWorkers(g: nat, d: int)
    | CancelContext(g: nat)
    | AddInflight(d: int)
    | AddTotal(n: nat)

  /** One atomic action: where the thread goes, the goroutine it starts, its shared effect. */
  datatype Move = Move(next: Thread, child: Option<Thread>, effect: Effect)

  function To(next: Thread, effect: Effect): Option<Move> {
    Some(Move(next, None, effect))
  }

  /** `runtimeMu.Lock()` of thread `i`: announce, then enter once the readers have left. */
  function WriteLock(s: State, i: nat, t: Thread, inside: Thread): Option<Move> {
    match s.writer
    case Free => To(t, Announce)
    case Pending(j) => if j == i && s.readers == 0 then To(inside, EnterWrite) else None
    case Held(_) => None
  }

  function HandlerMove(s: State, h: Handler): Option<Move> {
    match h
    case Arrived => if s.writer.Free? then To(Request(ReadLocked), EnterRead) else None
    case ReadLocked => To(Request(Loaded(s.server.active)), Nothing)
    case Loaded(g) => To(Request(Acquired(g)), AddRequests(g, 1))
    case Acquired(g) => To(Request(Serving(g)), LeaveRead)
    case Serving(g) => var on := Enabled(s.runtimes, g); To(Request(Tracked(g, on)), AddInflight(Bit(on)))
    case Tracked(g, _) => var on := Enabled(s.runtimes, g); To(Request(Recorded(g, on)), AddTotal(Bit(on)))
    case Recorded(g, _) =>
      var on := Enabled(s.runtimes, g);
      To(Request(Untracked(g, on)), AddInflight(if on then -1 else 0))
    case Untracked(g, on) => To(Request(Answered(g, on)), AddRequests(g, -1))
    case Answered(_, _) => None
  }

  function ReloaderMove(s: State, i: nat, r: Reloader, c: Choice): Option<Move> {
    if r.Building? && !r.reserved && c == Fail then To(Reload(BuildFailed(r.g)), CancelContext(r.g))
    else if c != Go then None
    else
      match r
      case Building(g, left, reserved) =>
        if reserved then Some(Move(Reload(Building(g, left, false)), Some(Prober(g, left, Looping)), Nothing))
        else if left > 0 then To(Reload(Building(g, left - 1, true)), AddWorkers(g, 1))
        else To(Reload(Built(g)), Store(s.server.(built := s.server.built + {g}), false))
      case Built(g) => WriteLock(s, i, Reload(r), Reload(Checking(g)))
      case Checking(g) => To(Reload(if s.server.phase == Running then Allowed(g) else Refusing(g)), Nothing)
      case Allowed(g) => To(Reload(Swapped(s.server.active)), Store(s.server.(active := g), false))
      case Swapped(g) => To(Stop(g, Cancel, Replaced), Store(s.server, true))
      case Refusing(g) => To(Stop(g, Cancel, Refused), Store(s.server, true))
      case BuildFailed(_) => None
      case Reloaded(_, _) => None
  }

  function AfterStop(g: nat, why: Reason): Thread {
    match why
    case Replaced => Reload(Reloaded(g, true))
    case Refused => Reload(Reloaded(g, false))
    case ByShutdown => Shutdown(Completing(Success))
    case ByListen => Start(Ended)
    case ByServe => Start(Ended)
  }

  function StopMove(s: State, g: nat, stage: Stage, why: Reason): Option<Move> {
    match stage
    case Cancel => To(Stop(g, DrainRequests, why), CancelContext(g))
    case DrainRequests => if RequestsOf(s.runtimes, g) == 0 then To(Stop(g, DrainWorkers, why), Nothing) else None
    case DrainWorkers =>
      if WorkersOf(s.runtimes, g) == 0
      then To(AfterStop(g, why), Store(s.server.(retired := s.server.retired + {g}), false))
      else None
  }

  /** `http.Server.Shutdown` returns nil only when no handler is on its way in, and from then
      on `NewRequest` is disabled. A handler that has let go of the lock may still be running:
      its connection may have been taken over, and then the HTTP server does not wait for it. */
  predicate HttpDrained(s: State) {
    Total(s.threads, Entering) == 0
  }

  function CallerMove(s: State, i: nat, k: Caller, c: Choice): Option<Move> {
    var sv := s.server;
    if k.Owning? && c == Timeout then (if sv.srv then To(Shutdown(Forcing(k.g)), Nothing) else None)
    else if k.Forcing? && c == Fail then
      To(Shutdown(Completing(Failure)), Store(sv.(pointerOwns := true), false))
    else if c != Go then None
    else
      match k
      case Called => WriteLock(s, i, Shutdown(k), Shutdown(Deciding))
      case Deciding =>
        (match sv.phase
         case Stopped => To(Shutdown(Returned(sv.shutdownErr)), Store(sv, true))
         case ShuttingDown => To(Shutdown(Waiting), Store(sv, true))
         case _ => To(Shutdown(Marking), Store(sv.(phase := ShuttingDown, begun := true), false)))
      case Marking => To(Shutdown(Capturing), Store(sv.(ready := false), false))
      case Capturing => To(Shutdown(Owning(sv.active)), Store(sv.(pointerOwns := false), true))
      case Owning(g) =>
        if !sv.srv then To(Stop(g, Cancel, ByShutdown), Nothing)
        else if HttpDrained(s) then To(Stop(g, Cancel, ByShutdown), Store(sv.(httpClosed := true), false))
        else None
      case Forcing(g) =>
        if HttpDrained(s) then To(Stop(g, Cancel, ByShutdown), Store(sv.(httpClosed := true), false)) else None
      case Completing(r) => WriteLock(s, i, Shutdown(k), Shutdown(Settling(r)))
      case Settling(r) =>
        var phase := if r == Success then Stopped else sv.phase;
        To(Shutdown(Closing(r)), Store(sv.(shutdownErr := r, phase := phase), false))
      case Closing(r) => To(Shutdown(Closed(r)), Store(sv.(closes := sv.closes + 1), false))
      case Closed(r) => To(Shutdown(Returned(r)), Store(sv, true))
      case Waiting => if sv.closes > 0 then To(Shutdown(Woken), Nothing) else None
      case Woken => WriteLock(s, i, Shutdown(k), Shutdown(Reading))
      case Reading => To(Shutdown(Returned(sv.shutdownErr)), Store(sv, true))
      case Returned(_) => None
  }

  function StarterMove(s: State, i: nat, b: Starter, c: Choice): Option<Move> {
    var sv := s.server;
    if b.Listening? && c == Fail then To(Start(ListenFailed(b.g)), Nothing)
    else if b.Accepting? && c == Fail then To(Start(ServeFailed), Nothing)
    else if c != Go then None
    else
      match b
      case Idle => None
      case Started(g) => To(Start(Listening(g)), Store(sv.(srv := true), false))
      case Listening(g) => To(Start(Bound), Store(sv.(listening := true), false))
      case Bound => To(Start(Announcing), Store(sv.(ready := true), false))
      case Announcing => To(Start(Accepting), Store(sv.(phase := Running), false))
      case ListenFailed(g) => To(Start(Unannounced(g)), Store(sv.(ready := false), false))
      case Unannounced(g) =>
        To(Stop(g, Cancel, ByListen), Store(sv.(phase := Stopped, pointerOwns := false), false))
      case Accepting => if sv.begun then To(Start(Ended), Nothing) else None
      case ServeFailed => WriteLock(s, i, Start(b), Start(Judging))
      case Judging =>
        if sv.phase == Running then To(Start(Retracting), Store(sv.(ready := false), false))
        else To(Start(Ended), Store(sv, true))
      case Retracting => To(Start(Retracted), Store(sv.(phase := Stopped), false))
      case Retracted => To(Stop(sv.active, Cancel, ByServe), Store(sv.(pointerOwns := false), true))
      case Ended => None
  }

  function ProberMove(s: State, g: nat, slot: nat, at: Probe, c: Choice): Option<Move> {
    var cancelled := Cancelled(s.runtimes, g);
    match at
    case Looping =>
      if c == Tick then To(Prober(g, slot, Probing), Nothing)
      else if c == Panic then To(Prober(g, slot, Panicked), Nothing)
      else if c == Go && cancelled then To(Prober(g, slot, Leaving), Nothing)
      else None
    case Probing =>
      if c == Go then To(Prober(g, slot, Looping), Nothing)
      else if c == Panic then To(Prober(g, slot, Panicked), Nothing)
      else None
    case Panicked =>
      if c == Tick then To(Prober(g, slot, if cancelled then Leaving else Restarting), Nothing)
      else if c == Panic || (c == Go && cancelled) then To(Prober(g, slot, Leaving), Nothing)
      else None
    case Restarting => if c == Go then To(Prober(g, slot, Reserved), AddWorkers(g, 1)) else None
    case Reserved =>
      if c == Go then Some(Move(Prober(g, slot, Leaving), Some(Prober(g, slot, Looping)), Nothing)) else None
    case Leaving => if c == Go then To(Prober(g, slot, Gone), AddWorkers(g, -1)) else None
    case Gone => None
  }

  /** The atomic action thread `i` takes next, or `None` when it is blocked. */
  function MoveOf(s: State, i: nat, c: Choice): Option<Move>
    requires i < |s.threads|
  {
    match s.threads[i]
    case Request(h) => if c == Go then HandlerMove(s, h) else None
    case Reload(r) => ReloaderMove(s, i, r, c)
    case Stop(g, stage, why) => if c == Go then StopMove(s, g, stage, why) else None
    case Shutdown(k) => CallerMove(s, i, k, c)
    case Start(b) => StarterMove(s, i, b, c)
    case Prober(g, slot, at) => ProberMove(s, g, slot, at, c)
  }

  function RuntimesAfter(rts: map<nat, Runtime>, e: Effect): map<nat, Runtime> {
    match e
    case AddRequests(g, d) => if g in rts then rts[g := rts[g].(requestWG := rts[g].requestWG + d)] else rts
    case AddWorkers(g, d) => if g in rts then rts[g := rts[g].(workerWG := rts[g].workerWG + d)] else rts
    case CancelContext(g) => if g in rts then rts[g := rts[g].(cancelled := true)] else rts
    case _ => rts
  }

  function WriterAfter(w: Writer, i: nat, e: Effect): Writer {
    match e
    case Announce => Pending(i)
    case EnterWrite => Held(i)
    case Store(_, unlock) => if unlock then Free else w
    case _ => w
  }

  function ServerAfter(sv: Server, e: Effect): Server {
    if e.Store? then e.server else sv
  }

  function Apply(s: State, i: nat, mv: Move): State
    requires i < |s.threads|
  {
    var e := mv.effect;
    State(s.threads[i := mv.next] + (if mv.child.Some? then [mv.child.value] else []),
          ServerAfter(s.server, e),
          RuntimesAfter(s.runtimes, e),
          s.nextGeneration,
          WriterAfter(s.writer, i, e),
          s.readers + (if e.EnterRead? then 1 else if e.LeaveRead? then -1 else 0),
          s.inflight + (if e.AddInflight? then e.d else 0),
          s.requestsTotal + (if e.AddTotal? then e.n else 0))
  }

  /** The state after an event, or `None` when the event cannot happen. Requests come
      over the listener, so none arrives before `Start` has one. */
  function Next(s: State, e: Event): Option<State> {
    match e
    case NewRequest =>
      if s.server.listening && !s.server.httpClosed then Some(s.(threads := s.threads + [Request(Arrived)])) else None
    case NewReload(backends, enabled) =>
      var g := s.nextGeneration + 1;
      Some(s.(threads := s.threads + [Reload(Building(g, backends, false))],
              nextGeneration := g,
              runtimes := s.runtimes[g := Runtime(0, 0, false, enabled)]))
    case NewShutdown => Some(s.(threads := s.threads + [Shutdown(Called)]))
    case StartServer =>
      if |s.threads| > 0 && s.threads[0] == Start(Idle)
      then Some(Apply(s, 0, Move(Start(Started(s.server.active)), None, Nothing)))
      else None
    case Run(i, c) =>
      if i >= |s.threads| then None else
      (match MoveOf(s, i, c)
       case Some(mv) => Some(Apply(s, i, mv))
       case None => None)
  }

  // ---------------------------------------------------------------------------------------
  // Runs
  // ---------------------------------------------------------------------------------------

  /** `NewServer` has stored generation 1, whose probers are already running. */
  function InitialState(probers: nat, enabled: bool): State {
    State([Start(Idle)] + seq(probers, (slot: nat) => Prober(1, slot, Looping)),
          Server(1, Starting, false, false, false, Success, 0, false, false, {1}, {}, true),
          map[1 := Runtime(0, probers, false, enabled)], 1, Free, 0, 0, 0)
  }

  /** `Start` is between its call and its unlocked store of the server state. */
  predicate InStartWindow(t: Thread) {
    t.Start? &&
    (t.b.Started? || t.b.Listening? || t.b.Bound? || t.b.Announcing? || t.b.ListenFailed? || t.b.Unannounced?)
  }

  /** The ordering the callers of the server must keep: no `Shutdown` call inside that window,
      and no `Start` after a `Shutdown` call. */
  predicate CallersOrdered(s: State, e: Event) {
    && (e.NewShutdown? ==> |s.threads| > 0 && !InStartWindow(s.threads[0]))
    && (e.StartServer? ==> Total(s.threads, Callers) == 0)
  }

  /** Reloads come one at a time, as the watcher loop issues them. */
  predicate ReloadsSerial(s: State, e: Event) {
    e.NewReload? ==> Total(s.threads, Reloads) == 0
  }

  /** A run: the states visited and the events between them, from some initial state. */
  ghost predicate IsRun(states: seq<State>, events: seq<Event>) {
    && |states| == |events| + 1
    && (exists probers, enabled :: states[0] == InitialState(probers, enabled))
    && forall k :: 0 <= k < |events| ==> Next(states[k], events[k]) == Some(states[k + 1])
  }

  ghost predicate IsOrderedRun(states: seq<State>, events: seq<Event>) {
    && IsRun(states, events)
    && forall k :: 0 <= k < |events| ==> CallersOrdered(states[k], events[k])
  }

  ghost predicate IsSerialRun(states: seq<State>, events: seq<Event>) {
    && IsOrderedRun(states, events)
    && forall k :: 0 <= k < |events| ==> ReloadsSerial(states[k], events[k])
  }
}
