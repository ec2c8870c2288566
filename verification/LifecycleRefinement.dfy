/** A server that handles one thing at a time: what clients may assume about the real one. */
module SequentialServer {
  datatype Mode = NotYet | Open | Shut

  /** The installed generation, whether it may still be replaced, the generations that were built,
      those that were replaced, and which generation answered each request so far. */
  datatype Spec = Spec(current: nat, mode: Mode, made: set<nat>, used: set<nat>, answers: map<nat, nat>)

  predicate Build(a: Spec, a': Spec, g: nat) {
    g !in a.made && a' == a.(made := a.made + {g})
  }

  /** Only a generation that is complete and was never installed before replaces the current one. */
  predicate Install(a: Spec, a': Spec) {
    && a.mode == Open
    && a'.current in a.made && a'.current != a.current && a'.current !in a.used
    && a' == a.(current := a'.current, used := a.used + {a.current})
  }

  predicate Answer(a: Spec, a': Spec, request: nat) {
    request !in a.answers && a' == a.(answers := a.answers[request := a.current])
  }

  predicate Switch(a: Spec, a': Spec) {
    a' == a.(mode := a'.mode) && (a.mode == NotYet || (a.mode == Open && a'.mode == Shut))
  }

  ghost predicate Step(a: Spec, a': Spec) {
    || a' == a
    || (exists g :: Build(a, a', g))
    || Install(a, a')
    || Switch(a, a')
    || exists request :: Answer(a, a', request)
  }

  ghost predicate IsRun(run: seq<Spec>) {
    && run != []
    && run[0].current in run[0].made && run[0].used == {} && run[0].answers == map[]
    && forall k :: 0 <= k < |run| - 1 ==> Step(run[k], run[k + 1])
  }

  /** The current generation is complete and was never replaced, and every answer came from it or
      from one that was. */
  ghost predicate Orderly(a: Spec) {
    && a.current in a.made && a.current !in a.used
    && (forall request :: request in a.answers ==> a.answers[request] in a.used + {a.current})
  }

  lemma StepOrderly(a: Spec, a': Spec)
    requires Orderly(a) && Step(a, a')
    ensures Orderly(a')
    ensures a.used <= a'.used && (a'.current == a.current || a.current in a'.used)
  {}

  lemma {:induction false} RunOrderly(run: seq<Spec>, k: nat)
    requires IsRun(run) && k < |run|
    ensures Orderly(run[k])
  {
    if k > 0 {
      RunOrderly(run, k - 1);
      StepOrderly(run[k - 1], run[k - 1 + 1]);
    }
  }

  lemma {:induction false} UsedGrows(run: seq<Spec>, j: nat, k: nat)
    requires IsRun(run) && j <= k < |run|
    ensures run[j].used <= run[k].used && (run[k].current == run[j].current || run[j].current in run[k].used)
  {
    if j < k {
      UsedGrows(run, j, k - 1);
      RunOrderly(run, k - 1);
      StepOrderly(run[k - 1], run[k - 1 + 1]);
    }
  }

  /** A generation that was replaced is never current again. */
  lemma NeverAgain(run: seq<Spec>, j: nat, m: nat, k: nat)
    requires IsRun(run) && j <= m <= k < |run| && run[m].current != run[j].current
    ensures run[k].current != run[j].current
  {
    UsedGrows(run, j, m);
    UsedGrows(run, m, k);
    RunOrderly(run, k);
  }
}

/** The concurrent machine refines the sequential server, and with reloads issued one at a time
    the generations that answer never go back. */
module LifecycleRefinement {
  import opened Options
  import opened Lifecycle
  import opened LifecycleTotals
  import opened LifecycleInvariant
  import opened LifecyclePreservation
  import opened LifecycleSafety
  import SequentialServer

  function Answers(ts: seq<Thread>): map<nat, nat> {
    map i: nat | i < |ts| && RoutedBy(ts[i]).Some? :: RoutedBy(ts[i]).value
  }

  /** The generation that an accepted reload has replaced. */
  function Replaces(t: Thread): Option<nat> {
    if !Accepted(t) then None else if t.Reload? then Some(t.r.g) else Some(t.g)
  }

  function Used(ts: seq<Thread>): set<nat> {
    set i: nat | i < |ts| && Replaces(ts[i]).Some? :: Replaces(ts[i]).value
  }

  function ModeOf(p: Phase): SequentialServer.Mode {
    match p
    case Starting => SequentialServer.NotYet
    case Running => SequentialServer.Open
    case _ => SequentialServer.Shut
  }

  function Abstract(s: State): SequentialServer.Spec {
    SequentialServer.Spec(s.server.active, ModeOf(s.server.phase), s.server.built, Used(s.threads), Answers(s.threads))
  }

  // ---------------------------------------------------------------------------------------
  // One action
  // ---------------------------------------------------------------------------------------

  lemma AnswersAfter(s: State, i: nat, mv: Move)
    requires i < |s.threads| && (mv.child.Some? ==> RoutedBy(mv.child.value).None?)
    requires Follows(s.server, s.threads[i], mv.next)
    ensures var a, a' := Answers(s.threads), Answers(Apply(s, i, mv).threads);
      a' == a || (i !in a && a' == a[i := s.server.active])
    ensures RoutedBy(mv.next).None? ==> Answers(Apply(s, i, mv).threads) == Answers(s.threads)
  {
    var a, a' := Answers(s.threads), Answers(Apply(s, i, mv).threads);
    if RoutedBy(s.threads[i]) == RoutedBy(mv.next) {
      assert a' == a;
    } else {
      assert a' == a[i := s.server.active];
    }
  }

  lemma UsedAfter(s: State, i: nat, mv: Move)
    requires i < |s.threads| && (mv.child.Some? ==> Replaces(mv.child.value).None?)
    requires Replaces(s.threads[i]).None? || Replaces(mv.next) == Replaces(s.threads[i])
    ensures var u, u' := Used(s.threads), Used(Apply(s, i, mv).threads);
      u' == if Replaces(mv.next).Some? then u + {Replaces(mv.next).value} else u
  {
    var ts, ts' := s.threads, Apply(s, i, mv).threads;
    assert forall j :: 0 <= j < |ts| && j != i ==> ts'[j] == ts[j];
    assert ts'[i] == mv.next;
    forall g | g in Used(ts)
      ensures g in Used(ts')
    {
      var j: nat :| j < |ts| && Replaces(ts[j]) == Some(g);
      assert Replaces(ts'[j]) == Some(g);
    }
  }

  /** What an action that is not a request's does to the sequential server. */
  predicate Plain(sv: Server, t: Thread, mv: Move) {
    var sv' := ServerAfter(sv, mv.effect);
    && RoutedBy(mv.next).None?
    && (mv.child.Some? ==> mv.child.value.Prober?)
    && (if t.Reload? && t.r.Allowed? then
          sv' == sv.(active := t.r.g) && Replaces(t).None? && Replaces(mv.next) == Some(sv.active)
        else
          && sv'.active == sv.active && Replaces(mv.next) == Replaces(t)
          && (sv'.built == sv.built
              || (t.Reload? && t.r.Building? && sv' == sv.(built := sv.built + {t.r.g}))))
  }

  lemma ReloaderPlain(s: State, i: nat, r: Reloader, c: Choice, mv: Move)
    requires ReloaderMove(s, i, r, c) == Some(mv)
    ensures Plain(s.server, Reload(r), mv)
  {}

  lemma CallerPlain(s: State, i: nat, k: Caller, c: Choice, mv: Move)
    requires CallerMove(s, i, k, c) == Some(mv)
    ensures Plain(s.server, Shutdown(k), mv)
  {}

  lemma StarterPlain(s: State, i: nat, b: Starter, c: Choice, mv: Move)
    requires StarterMove(s, i, b, c) == Some(mv)
    ensures Plain(s.server, Start(b), mv)
  {}

  lemma StopPlain(s: State, g: nat, stage: Stage, why: Reason, mv: Move)
    requires StopMove(s, g, stage, why) == Some(mv)
    ensures Plain(s.server, Stop(g, stage, why), mv)
  {}

  lemma PlainHolds(s: State, i: nat, c: Choice, mv: Move)
    requires i < |s.threads| && MoveOf(s, i, c) == Some(mv) && !s.threads[i].Request?
    ensures Plain(s.server, s.threads[i], mv)
  {
    match s.threads[i]
    case Reload(r) => ReloaderPlain(s, i, r, c, mv);
    case Stop(g, stage, why) => StopPlain(s, g, stage, why, mv);
    case Shutdown(k) => CallerPlain(s, i, k, c, mv);
    case Start(b) => StarterPlain(s, i, b, c, mv);
    case _ =>
  }

  /** What is known about the generation of a reload: it is new while it is being built, and it was
      never installed when the reload is about to install it. */
  ghost predicate Fresh(s: State, t: Thread) {
    && (t.Reload? && t.r.Building? ==> t.r.g !in s.server.built)
    && (t.Reload? && t.r.Allowed? ==>
          && t.r.g in s.server.built && t.r.g != s.server.active && t.r.g !in Used(s.threads)
          && s.server.phase == Running)
  }

  lemma NeverInstalled(s: State, i: nat, g: nat)
    requires Inv(s) && i < |s.threads| && s.threads[i] == Reload(Allowed(g))
    ensures g !in Used(s.threads)
  {
    StandingHolds(s, i);
    if g in Used(s.threads) {
      var j: nat :| j < |s.threads| && Replaces(s.threads[j]) == Some(g);
      assert ThreadOk(s.server, s.runtimes, s.threads[j]);
      ExclusiveHolds(s, i, j);
    }
  }

  lemma FreshHolds(s: State, i: nat)
    requires Inv(s) && i < |s.threads|
    ensures Fresh(s, s.threads[i])
  {
    assert ThreadOk(s.server, s.runtimes, s.threads[i]);
    if s.threads[i].Reload? && s.threads[i].r.Allowed? {
      NeverInstalled(s, i, s.threads[i].r.g);
    }
  }

  /** The request's action answers it or changes nothing that the sequential server shows. */
  lemma RequestRefines(s: State, i: nat, h: Handler, mv: Move)
    requires i < |s.threads| && s.threads[i] == Request(h) && HandlerMove(s, h) == Some(mv)
    requires HandlerOk(s.server, s.runtimes, h)
    ensures SequentialServer.Step(Abstract(s), Abstract(Apply(s, i, mv)))
  {
    var a, a' := Abstract(s), Abstract(Apply(s, i, mv));
    AnswersAfter(s, i, mv);
    UsedAfter(s, i, mv);
    assert a' == a || SequentialServer.Answer(a, a', i);
  }

  lemma PlainRefines(s: State, i: nat, mv: Move)
    requires i < |s.threads| && !s.threads[i].Request? && Plain(s.server, s.threads[i], mv)
    requires Fresh(s, s.threads[i]) && Onward(s.server, ServerAfter(s.server, mv.effect))
    requires Follows(s.server, s.threads[i], mv.next)
    ensures SequentialServer.Step(Abstract(s), Abstract(Apply(s, i, mv)))
  {
    var t := s.threads[i];
    var a, a' := Abstract(s), Abstract(Apply(s, i, mv));
    AnswersAfter(s, i, mv);
    UsedAfter(s, i, mv);
    if t.Reload? && t.r.Allowed? {
      assert SequentialServer.Install(a, a');
    } else {
      assert a'.used == a.used by {
        if Replaces(t).Some? {
          assert Replaces(t).value in Used(s.threads);
        }
      }
      if a'.made != a.made {
        assert SequentialServer.Build(a, a', t.r.g);
      } else {
        assert a' == a || SequentialServer.Switch(a, a');
      }
    }
  }

  lemma MoveRefines(s: State, i: nat, c: Choice, mv: Move)
    requires i < |s.threads| && MoveOf(s, i, c) == Some(mv) && Before(s, s.threads[i]) && Fresh(s, s.threads[i])
    ensures SequentialServer.Step(Abstract(s), Abstract(Apply(s, i, mv)))
  {
    match s.threads[i]
    case Request(h) => RequestRefines(s, i, h, mv);
    case _ =>
      FollowsHolds(s, i, c, mv);
      PlainHolds(s, i, c, mv);
      OnwardHolds(s, i, c, mv);
      PlainRefines(s, i, mv);
  }

  lemma ArrivalRefines(s: State, e: Event, s': State)
    requires !e.Run? && Next(s, e) == Some(s')
    ensures Abstract(s') == Abstract(s)
  {
    assert Answers(s'.threads) == Answers(s.threads);
    assert |s.threads| <= |s'.threads|;
    assert forall i :: 0 <= i < |s.threads| ==> Replaces(s'.threads[i]) == Replaces(s.threads[i]);
    assert forall i :: |s.threads| <= i < |s'.threads| ==> Replaces(s'.threads[i]).None?;
    forall g | g in Used(s.threads)
      ensures g in Used(s'.threads)
    {
      var i: nat :| i < |s.threads| && Replaces(s.threads[i]) == Some(g);
      assert Replaces(s'.threads[i]) == Some(g);
    }
    assert Used(s'.threads) == Used(s.threads);
  }

  lemma EventRefines(s: State, e: Event, s': State)
    requires Inv(s) && Next(s, e) == Some(s')
    ensures SequentialServer.Step(Abstract(s), Abstract(s'))
  {
    if e.Run? {
      StandingHolds(s, e.i);
      FreshHolds(s, e.i);
      MoveRefines(s, e.i, e.c, MoveOf(s, e.i, e.c).value);
    } else {
      ArrivalRefines(s, e, s');
    }
  }

  // ---------------------------------------------------------------------------------------
  // Runs
  // ---------------------------------------------------------------------------------------

  /** Every event of every ordered run is a step of the sequential server or invisible to it:
      each request is answered once, by the generation installed at its acquire action, and that
      choice never changes; and only complete generations are installed, each at most once. */
  lemma RunRefines(states: seq<State>, events: seq<Event>, k: nat)
    requires IsOrderedRun(states, events) && k < |events|
    ensures SequentialServer.Step(Abstract(states[k]), Abstract(states[k + 1]))
  {
    RunInv(states, events, k);
    EventRefines(states[k], events[k], states[k + 1]);
  }

  function AbstractRun(states: seq<State>): (run: seq<SequentialServer.Spec>)
    ensures |run| == |states| && forall k :: 0 <= k < |run| ==> run[k] == Abstract(states[k])
  {
    seq(|states|, k requires 0 <= k < |states| => Abstract(states[k]))
  }

  lemma StartsEmpty(probers: nat, enabled: bool)
    ensures var a := Abstract(InitialState(probers, enabled));
      a.current in a.made && a.used == {} && a.answers == map[]
  {
    var ts := InitialState(probers, enabled).threads;
    assert forall i :: 0 <= i < |ts| ==> RoutedBy(ts[i]).None? && Replaces(ts[i]).None?;
  }

  lemma RunIsSequential(states: seq<State>, events: seq<Event>)
    requires IsOrderedRun(states, events)
    ensures SequentialServer.IsRun(AbstractRun(states))
  {
    var probers, enabled :| states[0] == InitialState(probers, enabled);
    StartsEmpty(probers, enabled);
    var run := AbstractRun(states);
    forall k | 0 <= k < |run| - 1
      ensures SequentialServer.Step(run[k], run[k + 1])
    {
      RunRefines(states, events, k);
    }
  }

  /** Even when reloads overlap, a generation that has been replaced is never active again. */
  lemma NeverActiveAgain(states: seq<State>, events: seq<Event>, j: nat, m: nat, k: nat)
    requires IsOrderedRun(states, events) && j <= m <= k < |states|
    requires states[m].server.active != states[j].server.active
    ensures states[k].server.active != states[j].server.active
  {
    RunIsSequential(states, events);
    SequentialServer.NeverAgain(AbstractRun(states), j, m, k);
  }

  // ---------------------------------------------------------------------------------------
  // Serial reloads
  // ---------------------------------------------------------------------------------------

  /** The reload has not yet installed its generation. */
  predicate Upcoming(t: Thread) {
    t.Reload? && (t.r.Building? || t.r.Built? || t.r.Checking? || t.r.Allowed?)
  }

  ghost predicate SerialInv(s: State) {
    && Total(s.threads, Reloads) <= 1
    && forall i :: 0 <= i < |s.threads| && Upcoming(s.threads[i]) ==> s.threads[i].r.g > s.server.active
  }

  lemma ReloadsStep(s: State, i: nat, c: Choice, mv: Move)
    requires i < |s.threads| && MoveOf(s, i, c) == Some(mv)
    ensures Delta(Reloads, s.threads[i], mv) <= 0
  {}

  /** Only the thread of an upcoming generation can install it. */
  predicate UpcomingKept(sv: Server, t: Thread, mv: Move) {
    var active := ServerAfter(sv, mv.effect).active;
    && (mv.child.Some? ==> !Upcoming(mv.child.value))
    && (Upcoming(mv.next) ==> Upcoming(t) && mv.next.r.g == t.r.g)
    && (active != sv.active ==> Upcoming(t) && active == t.r.g && !Upcoming(mv.next))
  }

  lemma ReloaderUpcoming(s: State, i: nat, r: Reloader, c: Choice, mv: Move)
    requires ReloaderMove(s, i, r, c) == Some(mv)
    ensures UpcomingKept(s.server, Reload(r), mv)
  {}

  lemma CallerUpcoming(s: State, i: nat, k: Caller, c: Choice, mv: Move)
    requires CallerMove(s, i, k, c) == Some(mv)
    ensures UpcomingKept(s.server, Shutdown(k), mv)
  {}

  lemma StarterUpcoming(s: State, i: nat, b: Starter, c: Choice, mv: Move)
    requires StarterMove(s, i, b, c) == Some(mv)
    ensures UpcomingKept(s.server, Start(b), mv)
  {}

  lemma StopUpcoming(s: State, g: nat, stage: Stage, why: Reason, mv: Move)
    requires StopMove(s, g, stage, why) == Some(mv)
    ensures UpcomingKept(s.server, Stop(g, stage, why), mv)
  {}

  lemma UpcomingStep(s: State, i: nat, c: Choice, mv: Move)
    requires i < |s.threads| && MoveOf(s, i, c) == Some(mv)
    ensures UpcomingKept(s.server, s.threads[i], mv)
  {
    match s.threads[i]
    case Reload(r) => ReloaderUpcoming(s, i, r, c, mv);
    case Shutdown(k) => CallerUpcoming(s, i, k, c, mv);
    case Start(b) => StarterUpcoming(s, i, b, c, mv);
    case Stop(g, stage, why) => StopUpcoming(s, g, stage, why, mv);
    case _ =>
  }

  lemma SerialMove(s: State, i: nat, c: Choice, mv: Move)
    requires i < |s.threads| && MoveOf(s, i, c) == Some(mv) && SerialInv(s)
    ensures SerialInv(Apply(s, i, mv)) && s.server.active <= Apply(s, i, mv).server.active
  {
    ReloadsStep(s, i, c, mv);
    UpcomingStep(s, i, c, mv);
    TotalsAfter(s, i, mv);
    if Upcoming(s.threads[i]) {
      OnlyBearer(s.threads, i, Reloads);
    }
  }

  /** A thread that is no reload changes nothing. */
  lemma SerialJoin(s: State, t: Thread)
    requires SerialInv(s) && !t.Reload? && !t.Stop?
    ensures SerialInv(s.(threads := s.threads + [t]))
  {
    TotalAppend(s.threads, t, Reloads);
  }

  lemma SerialReload(s: State, backends: nat, enabled: bool)
    requires SerialInv(s) && s.server.active <= s.nextGeneration && Total(s.threads, Reloads) == 0
    ensures SerialInv(WithReload(s, backends, enabled))
  {
    TotalAppend(s.threads, Reload(Building(s.nextGeneration + 1, backends, false)), Reloads);
  }

  lemma SerialStarted(s: State)
    requires SerialInv(s) && |s.threads| > 0 && s.threads[0] == Start(Idle)
    ensures SerialInv(Apply(s, 0, StartMove(s)))
  {
    TotalPut(s.threads, 0, Start(Started(s.server.active)), Reloads);
    assert Apply(s, 0, StartMove(s)).threads == s.threads[0 := Start(Started(s.server.active))];
  }

  lemma SerialKeeps(s: State, e: Event, s': State)
    requires SerialInv(s) && s.server.active <= s.nextGeneration && ReloadsSerial(s, e) && Next(s, e) == Some(s')
    ensures SerialInv(s') && s.server.active <= s'.server.active
  {
    match e
    case Run(i, c) => SerialMove(s, i, c, MoveOf(s, i, c).value);
    case StartServer => SerialStarted(s);
    case NewRequest => SerialJoin(s, Request(Arrived));
    case NewShutdown => SerialJoin(s, Shutdown(Called));
    case NewReload(backends, enabled) => SerialReload(s, backends, enabled);
  }

  lemma SerialStart(states: seq<State>, events: seq<Event>)
    requires IsRun(states, events)
    ensures SerialInv(states[0])
  {
    var probers, enabled :| states[0] == InitialState(probers, enabled);
    InitialRest(probers, Reloads);
    assert states[0].threads == InitialThreads(probers);
  }

  lemma ActiveNumbered(states: seq<State>, events: seq<Event>, k: nat)
    requires IsOrderedRun(states, events) && k < |states|
    ensures states[k].server.active <= states[k].nextGeneration
  {
    RunInv(states, events, k);
  }

  lemma SerialNext(states: seq<State>, events: seq<Event>, k: nat)
    requires IsSerialRun(states, events) && k < |events| && SerialInv(states[k])
    ensures SerialInv(states[k + 1]) && states[k].server.active <= states[k + 1].server.active
  {
    ActiveNumbered(states, events, k);
    SerialKeeps(states[k], events[k], states[k + 1]);
  }

  lemma {:induction false} SerialRun(states: seq<State>, events: seq<Event>, k: nat)
    requires IsSerialRun(states, events) && k < |states|
    ensures SerialInv(states[k])
  {
    if k == 0 {
      SerialStart(states, events);
    } else {
      SerialRun(states, events, k - 1);
      SerialNext(states, events, k - 1);
    }
  }

  ghost predicate Rising(states: seq<State>) {
    forall k :: 0 <= k < |states| - 1 ==> states[k].server.active <= states[k + 1].server.active
  }

  lemma SerialRises(states: seq<State>, events: seq<Event>)
    requires IsSerialRun(states, events)
    ensures Rising(states)
  {
    forall k | 0 <= k < |states| - 1
      ensures states[k].server.active <= states[k + 1].server.active
    {
      SerialRun(states, events, k);
      SerialNext(states, events, k);
    }
  }

  lemma {:induction false} RisingFar(states: seq<State>, j: nat, k: nat)
    requires Rising(states) && j <= k < |states|
    ensures states[j].server.active <= states[k].server.active
  {
    if j < k {
      RisingFar(states, j, k - 1);
    }
  }

  /** Request `i` acquires generation `g` at event `k`. */
  ghost predicate Acquires(states: seq<State>, events: seq<Event>, k: nat, i: nat, g: nat)
    requires |states| == |events| + 1
  {
    && k < |events|
    && events[k] == Run(i, Go)
    && i < |states[k].threads| && states[k].threads[i] == Request(Loaded(g))
    && i < |states[k + 1].threads| && states[k + 1].threads[i] == Request(Acquired(g))
  }

  /** With reloads issued one at a time, the generations of successive acquires never go back. */
  lemma AcquiresMonotone(states: seq<State>, events: seq<Event>, j: nat, k: nat, i: nat, i': nat, g: nat, g': nat)
    requires IsSerialRun(states, events) && j <= k
    requires Acquires(states, events, j, i, g) && Acquires(states, events, k, i', g')
    ensures g <= g'
  {
    RunInv(states, events, j);
    assert ThreadOk(states[j].server, states[j].runtimes, states[j].threads[i]);
    RunInv(states, events, k);
    assert ThreadOk(states[k].server, states[k].runtimes, states[k].threads[i']);
    SerialRises(states, events);
    RisingFar(states, j, k);
  }
}
