/**
 What each operation does when no other thread acts in between: the sequential meaning of the
 source's functions, over every state of the machine. Nothing is assumed about the other threads
 except that they do not stand in the way.
 */
module LifecycleAlone {
  import opened Options
  import opened Lifecycle
  import opened LifecycleTotals

  /** The states thread `i` goes through when it alone acts, with these choices. */
  ghost predicate IsPath(states: seq<State>, i: nat, cs: seq<Choice>) {
    && |states| == |cs| + 1
    && forall k :: 0 <= k < |cs| ==> Next(states[k], Run(i, cs[k])) == Some(states[k + 1])
  }

  /** Thread `i`, acting alone, comes from `s` to `s'`. */
  ghost predicate Leads(s: State, i: nat, cs: seq<Choice>, s': State) {
    exists states :: IsPath(states, i, cs) && states[0] == s && states[|cs|] == s'
  }

  /** `n` ordinary actions. */
  function Gos(n: nat): seq<Choice> {
    seq(n, _ => Go)
  }

  lemma Nowhere(s: State, i: nat)
    ensures Leads(s, i, [], s) && Gos(0) == []
  {
    assert IsPath([s], i, []);
  }

  lemma Once(s: State, i: nat, c: Choice, s': State)
    requires Next(s, Run(i, c)) == Some(s')
    ensures Leads(s, i, [c], s')
  {
    assert IsPath([s, s'], i, [c]);
  }

  lemma Along(s: State, i: nat, cs: seq<Choice>, mid: State, ds: seq<Choice>, s': State)
    requires Leads(s, i, cs, mid) && Leads(mid, i, ds, s')
    ensures Leads(s, i, cs + ds, s')
  {
    var xs :| IsPath(xs, i, cs) && xs[0] == s && xs[|cs|] == mid;
    var ys :| IsPath(ys, i, ds) && ys[0] == mid && ys[|ds|] == s';
    var zs, es := xs + ys[1..], cs + ds;
    forall k | 0 <= k < |es|
      ensures Next(zs[k], Run(i, es[k])) == Some(zs[k + 1])
    {
      if k < |cs| {
        assert zs[k] == xs[k] && zs[k + 1] == xs[k + 1] && es[k] == cs[k];
      } else {
        assert zs[k] == ys[k - |cs|] && zs[k + 1] == ys[k - |cs| + 1] && es[k] == ds[k - |cs|];
      }
    }
    assert IsPath(zs, i, es);
  }

  /** There is no other state it can come to in this way. */
  lemma {:induction false} PathsAgree(xs: seq<State>, ys: seq<State>, i: nat, cs: seq<Choice>, k: nat)
    requires IsPath(xs, i, cs) && IsPath(ys, i, cs) && xs[0] == ys[0] && k <= |cs|
    ensures xs[k] == ys[k]
  {
    if k > 0 {
      PathsAgree(xs, ys, i, cs, k - 1);
      assert Next(xs[k - 1], Run(i, cs[k - 1])) == Some(xs[k - 1 + 1]);
      assert Next(ys[k - 1], Run(i, cs[k - 1])) == Some(ys[k - 1 + 1]);
    }
  }

  lemma LeadsNowhereElse(s: State, i: nat, cs: seq<Choice>, a: State, b: State)
    requires Leads(s, i, cs, a) && Leads(s, i, cs, b)
    ensures a == b
  {
    var xs :| IsPath(xs, i, cs) && xs[0] == s && xs[|cs|] == a;
    var ys :| IsPath(ys, i, cs) && ys[0] == s && ys[|cs|] == b;
    PathsAgree(xs, ys, i, cs, |cs|);
  }

  lemma GoesOn(s: State, i: nat, m: nat, mid: State, n: nat, s': State)
    requires Leads(s, i, Gos(m), mid) && Leads(mid, i, Gos(n), s')
    ensures Leads(s, i, Gos(m + n), s')
  {
    Along(s, i, Gos(m), mid, Gos(n), s');
    assert Gos(m) + Gos(n) == Gos(m + n);
  }

  // ---------------------------------------------------------------------------------------
  // What one thread can change
  // ---------------------------------------------------------------------------------------

  /** Everything but the other threads. */
  datatype View = View(
    t: Thread,
    server: Server,
    runtimes: map<nat, Runtime>,
    writer: Writer,
    readers: int,
    inflight: int,
    requestsTotal: nat
  )

  function Get(s: State, i: nat): View
    requires i < |s.threads|
  {
    View(s.threads[i], s.server, s.runtimes, s.writer, s.readers, s.inflight, s.requestsTotal)
  }

  function Put(s: State, i: nat, v: View): State
    requires i < |s.threads|
  {
    State(s.threads[i := v.t], v.server, v.runtimes, s.nextGeneration, v.writer, v.readers, v.inflight, v.requestsTotal)
  }

  function After(v: View, i: nat, mv: Move): View {
    var e := mv.effect;
    View(mv.next,
         ServerAfter(v.server, e),
         RuntimesAfter(v.runtimes, e),
         WriterAfter(v.writer, i, e),
         v.readers + (if e.EnterRead? then 1 else if e.LeaveRead? then -1 else 0),
         v.inflight + (if e.AddInflight? then e.d else 0),
         v.requestsTotal + (if e.AddTotal? then e.n else 0))
  }

  lemma GetPut(s: State, i: nat)
    requires i < |s.threads|
    ensures Put(s, i, Get(s, i)) == s
  {
    assert s.threads[i := s.threads[i]] == s.threads;
  }

  lemma Act(s: State, i: nat, v: View, c: Choice, mv: Move)
    requires i < |s.threads| && MoveOf(Put(s, i, v), i, c) == Some(mv) && mv.child.None?
    ensures Leads(Put(s, i, v), i, [c], Put(s, i, After(v, i, mv)))
  {
    assert s.threads[i := v.t][i := mv.next] + [] == s.threads[i := mv.next];
    Once(Put(s, i, v), i, c, Put(s, i, After(v, i, mv)));
  }

  /** One ordinary action more. */
  lemma More(start: State, n: nat, s: State, i: nat, v: View, mv: Move)
    requires i < |s.threads| && Leads(start, i, Gos(n), Put(s, i, v))
    requires MoveOf(Put(s, i, v), i, Go) == Some(mv) && mv.child.None?
    ensures Leads(start, i, Gos(n + 1), Put(s, i, After(v, i, mv)))
  {
    Act(s, i, v, Go, mv);
    assert Gos(1) == [Go];
    GoesOn(start, i, n, Put(s, i, v), 1, Put(s, i, After(v, i, mv)));
  }

  lemma Begin(s: State, i: nat)
    requires i < |s.threads|
    ensures Leads(s, i, Gos(0), Put(s, i, Get(s, i)))
  {
    GetPut(s, i);
    Nowhere(s, i);
  }

  /** Two ordinary actions that take the free lock. */
  lemma TakeLock(start: State, n: nat, s: State, i: nat, v: View, inside: Thread)
    requires i < |s.threads| && Leads(start, i, Gos(n), Put(s, i, v)) && v.writer == Free && v.readers == 0
    requires MoveOf(Put(s, i, v), i, Go) == WriteLock(Put(s, i, v), i, v.t, inside)
    requires var v' := v.(writer := Pending(i));
      MoveOf(Put(s, i, v'), i, Go) == WriteLock(Put(s, i, v'), i, v.t, inside)
    ensures Leads(start, i, Gos(n + 2), Put(s, i, v.(t := inside, writer := Held(i))))
  {
    More(start, n, s, i, v, Move(v.t, None, Announce));
    More(start, n + 1, s, i, v.(writer := Pending(i)), Move(inside, None, EnterWrite));
  }

  // ---------------------------------------------------------------------------------------
  // httpHandler
  // ---------------------------------------------------------------------------------------

  /** The first half: the request is registered with the active runtime and the lock is free again. */
  lemma RequestEnters(s: State, i: nat) returns (s': State)
    requires i < |s.threads| && s.threads[i] == Request(Arrived) && s.writer == Free && s.server.active in s.runtimes
    ensures var g := s.server.active;
      var rt := s.runtimes[g];
      s' == s.(threads := s.threads[i := Request(Serving(g))],
               runtimes := s.runtimes[g := rt.(requestWG := rt.requestWG + 1)])
    ensures Leads(s, i, Gos(4), s')
  {
    var g := s.server.active;
    var v := Get(s, i);
    var v1 := v.(t := Request(ReadLocked), readers := v.readers + 1);
    var v2 := v1.(t := Request(Loaded(g)));
    var v3 := v2.(t := Request(Acquired(g)), runtimes := RuntimesAfter(v.runtimes, AddRequests(g, 1)));
    Begin(s, i);
    More(s, 0, s, i, v, Move(v1.t, None, EnterRead));
    More(s, 1, s, i, v1, Move(v2.t, None, Nothing));
    More(s, 2, s, i, v2, Move(v3.t, None, AddRequests(g, 1)));
    More(s, 3, s, i, v3, Move(Request(Serving(g)), None, LeaveRead));
    s' := Put(s, i, v3.(t := Request(Serving(g)), readers := v.readers));
  }

  /** Then it is counted in the gauge and the counter, exactly if the runtime observes. */
  lemma RequestCounted(s: State, i: nat, g: nat) returns (s': State)
    requires i < |s.threads| && s.threads[i] == Request(Serving(g)) && g in s.runtimes
    ensures var on := s.runtimes[g].enabled;
      var n := if on then 1 else 0;
      s' == s.(threads := s.threads[i := Request(Recorded(g, on))],
               inflight := s.inflight + n, requestsTotal := s.requestsTotal + n)
    ensures Leads(s, i, Gos(2), s')
  {
    var on := s.runtimes[g].enabled;
    var v := Get(s, i);
    var v1 := v.(t := Request(Tracked(g, on)), inflight := v.inflight + Bit(on));
    Begin(s, i);
    More(s, 0, s, i, v, Move(v1.t, None, AddInflight(Bit(on))));
    More(s, 1, s, i, v1, Move(Request(Recorded(g, on)), None, AddTotal(Bit(on))));
    s' := Put(s, i, v1.(t := Request(Recorded(g, on)), requestsTotal := v.requestsTotal + Bit(on)));
  }

  /** At last it leaves the gauge and releases the runtime. */
  lemma RequestReleased(s: State, i: nat, g: nat, was: bool) returns (s': State)
    requires i < |s.threads| && s.threads[i] == Request(Recorded(g, was)) && g in s.runtimes
    ensures var rt := s.runtimes[g];
      s' == s.(threads := s.threads[i := Request(Answered(g, rt.enabled))],
               runtimes := s.runtimes[g := rt.(requestWG := rt.requestWG - 1)],
               inflight := s.inflight - (if rt.enabled then 1 else 0))
    ensures Leads(s, i, Gos(2), s')
  {
    var on := s.runtimes[g].enabled;
    var d := if on then -1 else 0;
    var v := Get(s, i);
    var v1 := v.(t := Request(Untracked(g, on)), inflight := v.inflight + d);
    Begin(s, i);
    More(s, 0, s, i, v, Move(v1.t, None, AddInflight(d)));
    More(s, 1, s, i, v1, Move(Request(Answered(g, on)), None, AddRequests(g, -1)));
    s' := Put(s, i, v1.(t := Request(Answered(g, on)), runtimes := RuntimesAfter(v.runtimes, AddRequests(g, -1))));
  }

  /** A request that meets nobody is answered by the active runtime, counted once exactly if that
      runtime observes, and leaves no other trace. */
  lemma RequestAlone(s: State, i: nat)
    requires i < |s.threads| && s.threads[i] == Request(Arrived) && s.writer == Free && s.server.active in s.runtimes
    ensures var g := s.server.active;
      var on := s.runtimes[g].enabled;
      Leads(s, i, Gos(8), s.(threads := s.threads[i := Request(Answered(g, on))],
                             requestsTotal := s.requestsTotal + (if on then 1 else 0)))
  {
    var g := s.server.active;
    var on := s.runtimes[g].enabled;
    var entered := RequestEnters(s, i);
    var counted := RequestCounted(entered, i, g);
    var s' := RequestReleased(counted, i, g, on);
    GoesOn(s, i, 4, entered, 2, counted);
    GoesOn(s, i, 6, counted, 2, s');
    assert s'.runtimes == s.runtimes;
    assert s'.threads == s.threads[i := Request(Answered(g, on))];
  }

  // ---------------------------------------------------------------------------------------
  // Reload and Stop
  // ---------------------------------------------------------------------------------------

  lemma ReloadChecks(s: State, i: nat, g: nat) returns (s': State)
    requires i < |s.threads| && s.threads[i] == Reload(Built(g)) && s.writer == Free && s.readers == 0
    ensures s' == s.(threads := s.threads[i := Reload(Checking(g))], writer := Held(i)) && Leads(s, i, Gos(2), s')
  {
    Begin(s, i);
    TakeLock(s, 0, s, i, Get(s, i), Reload(Checking(g)));
    s' := Put(s, i, Get(s, i).(t := Reload(Checking(g)), writer := Held(i)));
  }

  lemma ReloadSwaps(s: State, i: nat, g: nat) returns (s': State)
    requires i < |s.threads| && s.threads[i] == Reload(Checking(g)) && s.server.phase == Running
    ensures s' == s.(threads := s.threads[i := Stop(s.server.active, Cancel, Replaced)], writer := Free,
                     server := s.server.(active := g))
    ensures Leads(s, i, Gos(3), s')
  {
    var v := Get(s, i);
    var v1 := v.(t := Reload(Allowed(g)));
    var v2 := v1.(t := Reload(Swapped(s.server.active)), server := s.server.(active := g));
    var v3 := v2.(t := Stop(s.server.active, Cancel, Replaced), writer := Free);
    Begin(s, i);
    More(s, 0, s, i, v, Move(v1.t, None, Nothing));
    More(s, 1, s, i, v1, Move(v2.t, None, Store(v2.server, false)));
    More(s, 2, s, i, v2, Move(v3.t, None, Store(v2.server, true)));
    s' := Put(s, i, v3);
  }

  /** A reload that meets nobody on a Running server swaps the pointer and goes on to stop the
      runtime it replaced. */
  lemma ReloadAccepted(s: State, i: nat, g: nat)
    requires i < |s.threads| && s.threads[i] == Reload(Built(g)) && s.writer == Free && s.readers == 0
    requires s.server.phase == Running
    ensures Leads(s, i, Gos(5), s.(threads := s.threads[i := Stop(s.server.active, Cancel, Replaced)],
                                   server := s.server.(active := g)))
  {
    var mid := ReloadChecks(s, i, g);
    var s' := ReloadSwaps(mid, i, g);
    GoesOn(s, i, 2, mid, 3, s');
    assert s'.threads == s.threads[i := Stop(s.server.active, Cancel, Replaced)];
  }

  /** On any other server it changes nothing and goes on to stop the runtime it had built. */
  lemma ReloadRefused(s: State, i: nat, g: nat)
    requires i < |s.threads| && s.threads[i] == Reload(Built(g)) && s.writer == Free && s.readers == 0
    requires s.server.phase != Running
    ensures Leads(s, i, Gos(4), s.(threads := s.threads[i := Stop(g, Cancel, Refused)]))
  {
    var v := Get(s, i);
    var v2 := v.(t := Reload(Checking(g)), writer := Held(i));
    var v3 := v2.(t := Reload(Refusing(g)));
    Begin(s, i);
    TakeLock(s, 0, s, i, v, Reload(Checking(g)));
    More(s, 2, s, i, v2, Move(v3.t, None, Nothing));
    More(s, 3, s, i, v3, Move(Stop(g, Cancel, Refused), None, Store(s.server, true)));
  }

  /** `Stop` of a runtime without requests and workers cancels its context and returns to its caller. */
  lemma StopAlone(s: State, i: nat, g: nat, why: Reason)
    requires i < |s.threads| && s.threads[i] == Stop(g, Cancel, why)
    requires g in s.runtimes && s.runtimes[g].requestWG == 0 && s.runtimes[g].workerWG == 0
    ensures var returned := match why
        case Replaced => Reload(Reloaded(g, true))
        case Refused => Reload(Reloaded(g, false))
        case ByShutdown => Shutdown(Completing(Success))
        case ByListen => Start(Ended)
        case ByServe => Start(Ended);
      Leads(s, i, Gos(3), s.(threads := s.threads[i := returned],
                             server := s.server.(retired := s.server.retired + {g}),
                             runtimes := s.runtimes[g := s.runtimes[g].(cancelled := true)]))
  {
    var v := Get(s, i);
    var v1 := v.(t := Stop(g, DrainRequests, why), runtimes := RuntimesAfter(v.runtimes, CancelContext(g)));
    var v2 := v1.(t := Stop(g, DrainWorkers, why));
    var sv' := s.server.(retired := s.server.retired + {g});
    Begin(s, i);
    More(s, 0, s, i, v, Move(v1.t, None, CancelContext(g)));
    More(s, 1, s, i, v1, Move(v2.t, None, Nothing));
    More(s, 2, s, i, v2, Move(AfterStop(g, why), None, Store(sv', false)));
  }

  // ---------------------------------------------------------------------------------------
  // BuildRuntime
  // ---------------------------------------------------------------------------------------

  /** The probers of `n` backends, in the order in which they are started. */
  function Probers(g: nat, n: nat): seq<Thread> {
    if n == 0 then [] else [Prober(g, n - 1, Looping)] + Probers(g, n - 1)
  }

  lemma StartsProber(s: State, i: nat, g: nat, n: nat) returns (s': State)
    requires i < |s.threads| && s.threads[i] == Reload(Building(g, n, false)) && n > 0 && g in s.runtimes
    ensures var rt := s.runtimes[g];
      s' == s.(threads := s.threads[i := Reload(Building(g, n - 1, false))] + [Prober(g, n - 1, Looping)],
               runtimes := s.runtimes[g := rt.(workerWG := rt.workerWG + 1)])
    ensures Leads(s, i, Gos(2), s')
  {
    var v := Get(s, i);
    var v1 := v.(t := Reload(Building(g, n - 1, true)), runtimes := RuntimesAfter(v.runtimes, AddWorkers(g, 1)));
    Begin(s, i);
    More(s, 0, s, i, v, Move(v1.t, None, AddWorkers(g, 1)));
    var mid := Put(s, i, v1);
    s' := mid.(threads := s.threads[i := Reload(Building(g, n - 1, false))] + [Prober(g, n - 1, Looping)]);
    assert mid.threads[i := Reload(Building(g, n - 1, false))] == s.threads[i := Reload(Building(g, n - 1, false))];
    Once(mid, i, Go, s');
    assert Gos(1) == [Go];
    GoesOn(s, i, 1, mid, 1, s');
  }

  /** The state after the rest of a build that has `n` backends left. */
  function BuildDone(s: State, i: nat, g: nat, n: nat): State
    requires i < |s.threads| && g in s.runtimes
  {
    s.(threads := s.threads[i := Reload(Built(g))] + Probers(g, n),
       server := s.server.(built := s.server.built + {g}),
       runtimes := s.runtimes[g := s.runtimes[g].(workerWG := s.runtimes[g].workerWG + n)])
  }

  lemma BuildEnds(s: State, i: nat, g: nat)
    requires i < |s.threads| && s.threads[i] == Reload(Building(g, 0, false)) && g in s.runtimes
    ensures Leads(s, i, Gos(1), BuildDone(s, i, g, 0))
  {
    Begin(s, i);
    var mv := Move(Reload(Built(g)), None, Store(s.server.(built := s.server.built + {g}), false));
    More(s, 0, s, i, Get(s, i), mv);
    assert s.threads[i := Reload(Built(g))] + Probers(g, 0) == s.threads[i := Reload(Built(g))];
    assert BuildDone(s, i, g, 0).runtimes == s.runtimes;
    assert Put(s, i, After(Get(s, i), i, mv)) == BuildDone(s, i, g, 0);
  }

  lemma BuildSteps(s: State, mid: State, i: nat, g: nat, n: nat)
    requires i < |s.threads| && g in s.runtimes && n > 0
    requires var rt := s.runtimes[g];
      mid == s.(threads := s.threads[i := Reload(Building(g, n - 1, false))] + [Prober(g, n - 1, Looping)],
                runtimes := s.runtimes[g := rt.(workerWG := rt.workerWG + 1)])
    ensures BuildDone(mid, i, g, n - 1) == BuildDone(s, i, g, n)
  {
    assert BuildDone(mid, i, g, n - 1).threads == BuildDone(s, i, g, n).threads;
    assert BuildDone(mid, i, g, n - 1).runtimes == BuildDone(s, i, g, n).runtimes;
  }

  /** A build that does not fail registers and starts one prober per backend and yields a complete
      runtime. */
  lemma {:induction false} BuildAlone(s: State, i: nat, g: nat, n: nat)
    requires i < |s.threads| && s.threads[i] == Reload(Building(g, n, false)) && g in s.runtimes
    ensures Leads(s, i, Gos(2 * n + 1), BuildDone(s, i, g, n))
    decreases n
  {
    if n == 0 {
      BuildEnds(s, i, g);
    } else {
      var mid := StartsProber(s, i, g, n);
      BuildAlone(mid, i, g, n - 1);
      BuildSteps(s, mid, i, g, n);
      GoesOn(s, i, 2, mid, 2 * (n - 1) + 1, BuildDone(s, i, g, n));
    }
  }

  /** A build that fails cancels the runtime's context and starts nothing more. */
  lemma BuildFails(s: State, i: nat, g: nat, n: nat)
    requires i < |s.threads| && s.threads[i] == Reload(Building(g, n, false)) && g in s.runtimes
    ensures Leads(s, i, [Fail], s.(threads := s.threads[i := Reload(BuildFailed(g))],
                                   runtimes := s.runtimes[g := s.runtimes[g].(cancelled := true)]))
  {
    GetPut(s, i);
    Act(s, i, Get(s, i), Fail, Move(Reload(BuildFailed(g)), None, CancelContext(g)));
  }

  // ---------------------------------------------------------------------------------------
  // Shutdown
  // ---------------------------------------------------------------------------------------

  lemma CallDecides(s: State, i: nat) returns (s': State)
    requires i < |s.threads| && s.threads[i] == Shutdown(Called) && s.writer == Free && s.readers == 0
    ensures s' == s.(threads := s.threads[i := Shutdown(Deciding)], writer := Held(i)) && Leads(s, i, Gos(2), s')
  {
    Begin(s, i);
    TakeLock(s, 0, s, i, Get(s, i), Shutdown(Deciding));
    s' := Put(s, i, Get(s, i).(t := Shutdown(Deciding), writer := Held(i)));
  }

  lemma CallOwns(s: State, i: nat) returns (s': State)
    requires i < |s.threads| && s.threads[i] == Shutdown(Deciding)
    requires s.server.phase == Starting || s.server.phase == Running
    ensures s' == s.(threads := s.threads[i := Shutdown(Owning(s.server.active))], writer := Free,
                     server := s.server.(phase := ShuttingDown, ready := false, begun := true, pointerOwns := false))
    ensures Leads(s, i, Gos(3), s')
  {
    var v := Get(s, i);
    var v1 := v.(t := Shutdown(Marking), server := s.server.(phase := ShuttingDown, begun := true));
    var v2 := v1.(t := Shutdown(Capturing), server := v1.server.(ready := false));
    var v3 := v2.(t := Shutdown(Owning(s.server.active)), server := v2.server.(pointerOwns := false), writer := Free);
    Begin(s, i);
    More(s, 0, s, i, v, Move(v1.t, None, Store(v1.server, false)));
    More(s, 1, s, i, v1, Move(v2.t, None, Store(v2.server, false)));
    More(s, 2, s, i, v2, Move(v3.t, None, Store(v3.server, true)));
    s' := Put(s, i, v3);
  }

  /** A call on a server that is starting or Running marks it, withdraws its readiness, captures the
      active runtime and lets go of the lock. */
  lemma ShutdownBegins(s: State, i: nat)
    requires i < |s.threads| && s.threads[i] == Shutdown(Called) && s.writer == Free && s.readers == 0
    requires s.server.phase == Starting || s.server.phase == Running
    ensures Leads(s, i, Gos(5),
                  s.(threads := s.threads[i := Shutdown(Owning(s.server.active))],
                     server := s.server.(phase := ShuttingDown, ready := false, begun := true, pointerOwns := false)))
  {
    var mid := CallDecides(s, i);
    var s' := CallOwns(mid, i);
    GoesOn(s, i, 2, mid, 3, s');
    assert s'.threads == s.threads[i := Shutdown(Owning(s.server.active))];
  }

  /** A call on a server that is shutting down waits; on a stopped one it returns the result stored
      there. Neither changes anything. */
  lemma ShutdownLate(s: State, i: nat)
    requires i < |s.threads| && s.threads[i] == Shutdown(Called) && s.writer == Free && s.readers == 0
    requires s.server.phase == ShuttingDown || s.server.phase == Stopped
    ensures var c := if s.server.phase == Stopped then Returned(s.server.shutdownErr) else Waiting;
      Leads(s, i, Gos(3), s.(threads := s.threads[i := Shutdown(c)]))
  {
    var v := Get(s, i);
    var c := if s.server.phase == Stopped then Returned(s.server.shutdownErr) else Waiting;
    Begin(s, i);
    TakeLock(s, 0, s, i, v, Shutdown(Deciding));
    More(s, 2, s, i, v.(t := Shutdown(Deciding), writer := Held(i)), Move(Shutdown(c), None, Store(s.server, true)));
  }

  /** A caller that waited returns the owner's result once the channel is closed. */
  lemma ShutdownWoken(s: State, i: nat)
    requires i < |s.threads| && s.threads[i] == Shutdown(Waiting) && s.writer == Free && s.readers == 0
    requires s.server.closes > 0
    ensures Leads(s, i, Gos(4), s.(threads := s.threads[i := Shutdown(Returned(s.server.shutdownErr))]))
  {
    var v := Get(s, i);
    var v1 := v.(t := Shutdown(Woken));
    Begin(s, i);
    More(s, 0, s, i, v, Move(v1.t, None, Nothing));
    TakeLock(s, 1, s, i, v1, Shutdown(Reading));
    var c := Returned(s.server.shutdownErr);
    More(s, 3, s, i, v1.(t := Shutdown(Reading), writer := Held(i)), Move(Shutdown(c), None, Store(s.server, true)));
  }

  /** When no handler is on its way in, the owner goes on to stop the runtime: at once without an
      HTTP server, and after the graceful deadline as well as before it with one. */
  lemma OwnerStops(s: State, i: nat, g: nat, forced: bool)
    requires i < |s.threads| && s.threads[i] == Shutdown(Owning(g)) && (forced ==> s.server.srv)
    requires s.server.srv ==> HttpDrained(s)
    ensures Leads(s, i, if forced then [Timeout, Go] else [Go],
                  s.(threads := s.threads[i := Stop(g, Cancel, ByShutdown)],
                     server := s.server.(httpClosed := s.server.httpClosed || s.server.srv)))
  {
    var v := Get(s, i);
    var to := Stop(g, Cancel, ByShutdown);
    var effect := if s.server.srv then Store(s.server.(httpClosed := true), false) else Nothing;
    GetPut(s, i);
    if forced {
      var v1 := v.(t := Shutdown(Forcing(g)));
      Act(s, i, v, Timeout, Move(v1.t, None, Nothing));
      TotalPut(s.threads, i, v1.t, Entering);
      Act(s, i, v1, Go, Move(to, None, effect));
      Along(s, i, [Timeout], Put(s, i, v1), [Go], Put(s, i, After(v1, i, Move(to, None, effect))));
      assert [Timeout] + [Go] == [Timeout, Go];
    } else {
      Act(s, i, v, Go, Move(to, None, effect));
    }
  }

  /** Only when the graceful deadline has expired and the forced attempt has failed too does the
      owner give up; the runtime stays with the pointer. */
  lemma OwnerFails(s: State, i: nat, g: nat)
    requires i < |s.threads| && s.threads[i] == Shutdown(Owning(g)) && s.server.srv
    ensures Leads(s, i, [Timeout, Fail], s.(threads := s.threads[i := Shutdown(Completing(Failure))],
                                            server := s.server.(pointerOwns := true)))
  {
    var v := Get(s, i);
    var v1 := v.(t := Shutdown(Forcing(g)));
    var mv := Move(Shutdown(Completing(Failure)), None, Store(s.server.(pointerOwns := true), false));
    GetPut(s, i);
    Act(s, i, v, Timeout, Move(v1.t, None, Nothing));
    Act(s, i, v1, Fail, mv);
    Along(s, i, [Timeout], Put(s, i, v1), [Fail], Put(s, i, After(v1, i, mv)));
    assert [Timeout] + [Fail] == [Timeout, Fail];
  }

  lemma OwnerSettles(s: State, i: nat, r: Result) returns (s': State)
    requires i < |s.threads| && s.threads[i] == Shutdown(Completing(r)) && s.writer == Free && s.readers == 0
    ensures s' == s.(threads := s.threads[i := Shutdown(Settling(r))], writer := Held(i)) && Leads(s, i, Gos(2), s')
  {
    Begin(s, i);
    TakeLock(s, 0, s, i, Get(s, i), Shutdown(Settling(r)));
    s' := Put(s, i, Get(s, i).(t := Shutdown(Settling(r)), writer := Held(i)));
  }

  lemma OwnerPublishes(s: State, i: nat, r: Result) returns (s': State)
    requires i < |s.threads| && s.threads[i] == Shutdown(Settling(r))
    ensures var phase := if r == Success then Stopped else s.server.phase;
      s' == s.(threads := s.threads[i := Shutdown(Closing(r))],
               server := s.server.(shutdownErr := r, phase := phase))
    ensures Leads(s, i, Gos(1), s')
  {
    var phase := if r == Success then Stopped else s.server.phase;
    var sv' := s.server.(shutdownErr := r, phase := phase);
    Begin(s, i);
    More(s, 0, s, i, Get(s, i), Move(Shutdown(Closing(r)), None, Store(sv', false)));
    s' := Put(s, i, Get(s, i).(t := Shutdown(Closing(r)), server := sv'));
  }

  lemma OwnerCloses(s: State, i: nat, r: Result) returns (s': State)
    requires i < |s.threads| && s.threads[i] == Shutdown(Closing(r))
    ensures s' == s.(threads := s.threads[i := Shutdown(Returned(r))], writer := Free,
                     server := s.server.(closes := s.server.closes + 1))
    ensures Leads(s, i, Gos(2), s')
  {
    var v := Get(s, i);
    var v1 := v.(t := Shutdown(Closed(r)), server := v.server.(closes := s.server.closes + 1));
    Begin(s, i);
    More(s, 0, s, i, v, Move(v1.t, None, Store(v1.server, false)));
    More(s, 1, s, i, v1, Move(Shutdown(Returned(r)), None, Store(v1.server, true)));
    s' := Put(s, i, v1.(t := Shutdown(Returned(r)), writer := Free));
  }

  /** The owner publishes its result, closes the channel and returns; only success stops the server. */
  lemma ShutdownCompletes(s: State, i: nat, r: Result)
    requires i < |s.threads| && s.threads[i] == Shutdown(Completing(r)) && s.writer == Free && s.readers == 0
    ensures var phase := if r == Success then Stopped else s.server.phase;
      Leads(s, i, Gos(5), s.(threads := s.threads[i := Shutdown(Returned(r))],
                             server := s.server.(shutdownErr := r, phase := phase, closes := s.server.closes + 1)))
  {
    var settled := OwnerSettles(s, i, r);
    var published := OwnerPublishes(settled, i, r);
    var s' := OwnerCloses(published, i, r);
    GoesOn(s, i, 2, settled, 1, published);
    GoesOn(s, i, 3, published, 2, s');
    assert s'.threads == s.threads[i := Shutdown(Returned(r))];
  }

  // ---------------------------------------------------------------------------------------
  // Start
  // ---------------------------------------------------------------------------------------

  lemma StartListens(s: State, i: nat, g: nat) returns (s': State)
    requires i < |s.threads| && s.threads[i] == Start(Started(g))
    ensures s' == s.(threads := s.threads[i := Start(Bound)], server := s.server.(srv := true, listening := true))
    ensures Leads(s, i, Gos(2), s')
  {
    var v := Get(s, i);
    var v1 := v.(t := Start(Listening(g)), server := s.server.(srv := true));
    var v2 := v1.(t := Start(Bound), server := v1.server.(listening := true));
    Begin(s, i);
    More(s, 0, s, i, v, Move(v1.t, None, Store(v1.server, false)));
    More(s, 1, s, i, v1, Move(v2.t, None, Store(v2.server, false)));
    s' := Put(s, i, v2);
  }

  lemma StartAnnounces(s: State, i: nat) returns (s': State)
    requires i < |s.threads| && s.threads[i] == Start(Bound)
    ensures s' == s.(threads := s.threads[i := Start(Accepting)], server := s.server.(ready := true, phase := Running))
    ensures Leads(s, i, Gos(2), s')
  {
    var v := Get(s, i);
    var v1 := v.(t := Start(Announcing), server := s.server.(ready := true));
    var v2 := v1.(t := Start(Accepting), server := v1.server.(phase := Running));
    Begin(s, i);
    More(s, 0, s, i, v, Move(v1.t, None, Store(v1.server, false)));
    More(s, 1, s, i, v1, Move(v2.t, None, Store(v2.server, false)));
    s' := Put(s, i, v2);
  }

  /** `Start` makes the HTTP server and the listener, announces readiness and then Running. */
  lemma StartAlone(s: State, i: nat, g: nat)
    requires i < |s.threads| && s.threads[i] == Start(Started(g))
    ensures Leads(s, i, Gos(4),
                  s.(threads := s.threads[i := Start(Accepting)],
                     server := s.server.(srv := true, listening := true, ready := true, phase := Running)))
  {
    var mid := StartListens(s, i, g);
    var s' := StartAnnounces(mid, i);
    GoesOn(s, i, 2, mid, 2, s');
    assert s'.threads == s.threads[i := Start(Accepting)];
  }

  /** A failed listen stops the server, without the lock, and goes on to stop the runtime. */
  lemma ListenFails(s: State, i: nat, g: nat)
    requires i < |s.threads| && s.threads[i] == Start(Listening(g))
    ensures Leads(s, i, [Fail, Go, Go], s.(threads := s.threads[i := Stop(g, Cancel, ByListen)],
                                           server := s.server.(ready := false, phase := Stopped, pointerOwns := false)))
  {
    var v := Get(s, i);
    var v1 := v.(t := Start(ListenFailed(g)));
    var v2 := v1.(t := Start(Unannounced(g)), server := s.server.(ready := false));
    var mv := Move(Stop(g, Cancel, ByListen), None, Store(v2.server.(phase := Stopped, pointerOwns := false), false));
    GetPut(s, i);
    Act(s, i, v, Fail, Move(v1.t, None, Nothing));
    Act(s, i, v1, Go, Move(v2.t, None, Store(v2.server, false)));
    Act(s, i, v2, Go, mv);
    Along(s, i, [Fail], Put(s, i, v1), [Go], Put(s, i, v2));
    Along(s, i, [Fail] + [Go], Put(s, i, v2), [Go], Put(s, i, After(v2, i, mv)));
    assert [Fail] + [Go] + [Go] == [Fail, Go, Go];
  }

  lemma StartJudges(s: State, i: nat) returns (s': State)
    requires i < |s.threads| && s.threads[i] == Start(ServeFailed) && s.writer == Free && s.readers == 0
    ensures s' == s.(threads := s.threads[i := Start(Judging)], writer := Held(i)) && Leads(s, i, Gos(2), s')
  {
    Begin(s, i);
    TakeLock(s, 0, s, i, Get(s, i), Start(Judging));
    s' := Put(s, i, Get(s, i).(t := Start(Judging), writer := Held(i)));
  }

  lemma StartWithdraws(s: State, i: nat) returns (s': State)
    requires i < |s.threads| && s.threads[i] == Start(Judging) && s.server.phase == Running
    ensures s' == s.(threads := s.threads[i := Start(Retracted)],
                     server := s.server.(ready := false, phase := Stopped))
    ensures Leads(s, i, Gos(2), s')
  {
    var v := Get(s, i);
    var v1 := v.(t := Start(Retracting), server := s.server.(ready := false));
    var v2 := v1.(t := Start(Retracted), server := v1.server.(phase := Stopped));
    Begin(s, i);
    More(s, 0, s, i, v, Move(v1.t, None, Store(v1.server, false)));
    More(s, 1, s, i, v1, Move(v2.t, None, Store(v2.server, false)));
    s' := Put(s, i, v2);
  }

  lemma StartRetracts(s: State, i: nat) returns (s': State)
    requires i < |s.threads| && s.threads[i] == Start(Judging) && s.server.phase == Running
    ensures s' == s.(threads := s.threads[i := Stop(s.server.active, Cancel, ByServe)], writer := Free,
                     server := s.server.(ready := false, phase := Stopped, pointerOwns := false))
    ensures Leads(s, i, Gos(3), s')
  {
    var mid := StartWithdraws(s, i);
    var v := Get(mid, i);
    var to, sv' := Stop(s.server.active, Cancel, ByServe), mid.server.(pointerOwns := false);
    Begin(mid, i);
    More(mid, 0, mid, i, v, Move(to, None, Store(sv', true)));
    s' := Put(mid, i, v.(t := to, server := sv', writer := Free));
    GoesOn(s, i, 2, mid, 1, s');
    assert s'.threads == s.threads[i := to];
  }

  /** `Serve` failing under a Running server stops it under the lock and goes on to stop the active
      runtime. */
  lemma ServeFails(s: State, i: nat)
    requires i < |s.threads| && s.threads[i] == Start(ServeFailed) && s.writer == Free && s.readers == 0
    requires s.server.phase == Running
    ensures Leads(s, i, Gos(5), s.(threads := s.threads[i := Stop(s.server.active, Cancel, ByServe)],
                                   server := s.server.(ready := false, phase := Stopped, pointerOwns := false)))
  {
    var mid := StartJudges(s, i);
    var s' := StartRetracts(mid, i);
    GoesOn(s, i, 2, mid, 3, s');
    assert s'.threads == s.threads[i := Stop(s.server.active, Cancel, ByServe)];
  }

  /** `Serve` can fail at any time. On a server that a shutdown owns, `Start` then just returns, as it
      does when the shutdown closes the listener. */
  lemma ServeEnds(s: State, i: nat)
    requires i < |s.threads| && s.threads[i] == Start(Accepting)
    ensures Leads(s, i, [Fail], s.(threads := s.threads[i := Start(ServeFailed)]))
    ensures s.server.begun ==> Leads(s, i, [Go], s.(threads := s.threads[i := Start(Ended)]))
  {
    GetPut(s, i);
    Act(s, i, Get(s, i), Fail, Move(Start(ServeFailed), None, Nothing));
    if s.server.begun {
      Act(s, i, Get(s, i), Go, Move(Start(Ended), None, Nothing));
    }
  }

  lemma ServeFailsLate(s: State, i: nat)
    requires i < |s.threads| && s.threads[i] == Start(ServeFailed) && s.writer == Free && s.readers == 0
    requires s.server.phase != Running
    ensures Leads(s, i, Gos(3), s.(threads := s.threads[i := Start(Ended)]))
  {
    var v := Get(s, i);
    Begin(s, i);
    TakeLock(s, 0, s, i, v, Start(Judging));
    More(s, 2, s, i, v.(t := Start(Judging), writer := Held(i)), Move(Start(Ended), None, Store(s.server, true)));
  }

  // ---------------------------------------------------------------------------------------
  // StartProber
  // ---------------------------------------------------------------------------------------

  /** A tick probes the backend and comes back to the loop; a panic in the loop or in the probe is
      caught. */
  lemma ProbeAlone(s: State, i: nat, g: nat, slot: nat)
    requires i < |s.threads| && s.threads[i] == Prober(g, slot, Looping)
    ensures Leads(s, i, [Tick, Go], s)
    ensures Leads(s, i, [Tick, Panic], s.(threads := s.threads[i := Prober(g, slot, Panicked)]))
    ensures Leads(s, i, [Panic], s.(threads := s.threads[i := Prober(g, slot, Panicked)]))
  {
    var v := Get(s, i);
    var v1 := v.(t := Prober(g, slot, Probing));
    GetPut(s, i);
    Act(s, i, v, Tick, Move(v1.t, None, Nothing));
    Act(s, i, v1, Go, Move(Prober(g, slot, Looping), None, Nothing));
    Act(s, i, v1, Panic, Move(Prober(g, slot, Panicked), None, Nothing));
    Act(s, i, v, Panic, Move(Prober(g, slot, Panicked), None, Nothing));
    Along(s, i, [Tick], Put(s, i, v1), [Go], s);
    Along(s, i, [Tick], Put(s, i, v1), [Panic], Put(s, i, v.(t := Prober(g, slot, Panicked))));
    assert [Tick] + [Go] == [Tick, Go] && [Tick] + [Panic] == [Tick, Panic];
  }

  lemma RestartBegins(s: State, i: nat, g: nat, slot: nat) returns (s': State)
    requires i < |s.threads| && s.threads[i] == Prober(g, slot, Panicked) && g in s.runtimes
    requires !s.runtimes[g].cancelled
    ensures var rt := s.runtimes[g];
      s' == s.(threads := s.threads[i := Prober(g, slot, Reserved)],
               runtimes := s.runtimes[g := rt.(workerWG := rt.workerWG + 1)])
    ensures Leads(s, i, [Tick, Go], s')
  {
    var v := Get(s, i);
    var v1 := v.(t := Prober(g, slot, Restarting));
    var mv := Move(Prober(g, slot, Reserved), None, AddWorkers(g, 1));
    GetPut(s, i);
    Act(s, i, v, Tick, Move(v1.t, None, Nothing));
    Act(s, i, v1, Go, mv);
    s' := Put(s, i, After(v1, i, mv));
    Along(s, i, [Tick], Put(s, i, v1), [Go], s');
    assert [Tick] + [Go] == [Tick, Go];
  }

  lemma RestartEnds(s: State, i: nat, g: nat, slot: nat) returns (s': State)
    requires i < |s.threads| && s.threads[i] == Prober(g, slot, Reserved) && g in s.runtimes
    ensures var rt := s.runtimes[g];
      s' == s.(threads := s.threads[i := Prober(g, slot, Gone)] + [Prober(g, slot, Looping)],
               runtimes := s.runtimes[g := rt.(workerWG := rt.workerWG - 1)])
    ensures Leads(s, i, [Go, Go], s')
  {
    var mid := s.(threads := s.threads[i := Prober(g, slot, Leaving)] + [Prober(g, slot, Looping)]);
    Once(s, i, Go, mid);
    var mv := Move(Prober(g, slot, Gone), None, AddWorkers(g, -1));
    GetPut(mid, i);
    Act(mid, i, Get(mid, i), Go, mv);
    s' := Put(mid, i, After(Get(mid, i), i, mv));
    assert s'.threads == s.threads[i := Prober(g, slot, Gone)] + [Prober(g, slot, Looping)];
    Along(s, i, [Go], mid, [Go], s');
    assert [Go] + [Go] == [Go, Go];
  }

  /** A crashed prober of a runtime that is not cancelled is replaced by a new one of the same
      backend when the timer fires, and ends; the wait group is as before. */
  lemma RestartAlone(s: State, i: nat, g: nat, slot: nat)
    requires i < |s.threads| && s.threads[i] == Prober(g, slot, Panicked) && g in s.runtimes
    requires !s.runtimes[g].cancelled
    ensures Leads(s, i, [Tick, Go, Go, Go],
                  s.(threads := s.threads[i := Prober(g, slot, Gone)] + [Prober(g, slot, Looping)]))
  {
    var mid := RestartBegins(s, i, g, slot);
    var s' := RestartEnds(mid, i, g, slot);
    Along(s, i, [Tick, Go], mid, [Go, Go], s');
    assert [Tick, Go] + [Go, Go] == [Tick, Go, Go, Go];
    assert s'.runtimes == s.runtimes;
    assert s'.threads == s.threads[i := Prober(g, slot, Gone)] + [Prober(g, slot, Looping)];
  }

  /** A prober of a cancelled runtime ends, from its loop or from its recovery, and so does one whose
      recovery panics. */
  lemma ProberEnds(s: State, i: nat, g: nat, slot: nat, at: Probe, c: Choice)
    requires i < |s.threads| && s.threads[i] == Prober(g, slot, at) && g in s.runtimes
    requires || (s.runtimes[g].cancelled && at == Looping && c == Go)
             || (s.runtimes[g].cancelled && at == Panicked && (c == Go || c == Tick))
             || (at == Panicked && c == Panic)
    ensures var rt := s.runtimes[g];
      Leads(s, i, [c, Go], s.(threads := s.threads[i := Prober(g, slot, Gone)],
                              runtimes := s.runtimes[g := rt.(workerWG := rt.workerWG - 1)]))
  {
    var v := Get(s, i);
    var v1 := v.(t := Prober(g, slot, Leaving));
    var mv := Move(Prober(g, slot, Gone), None, AddWorkers(g, -1));
    GetPut(s, i);
    Act(s, i, v, c, Move(v1.t, None, Nothing));
    Act(s, i, v1, Go, mv);
    Along(s, i, [c], Put(s, i, v1), [Go], Put(s, i, After(v1, i, mv)));
    assert [c] + [Go] == [c, Go];
  }

  // ---------------------------------------------------------------------------------------
  // From arrival to end
  // ---------------------------------------------------------------------------------------

  /** A listening server takes every request, and one that meets nobody is answered by the active
      runtime. */
  lemma RequestServed(s: State)
    requires s.server.listening && !s.server.httpClosed && s.writer == Free && s.server.active in s.runtimes
    ensures var g := s.server.active;
      var on := s.runtimes[g].enabled;
      && Next(s, NewRequest) == Some(s.(threads := s.threads + [Request(Arrived)]))
      && Leads(s.(threads := s.threads + [Request(Arrived)]), |s.threads|, Gos(8),
               s.(threads := s.threads + [Request(Answered(g, on))],
                  requestsTotal := s.requestsTotal + (if on then 1 else 0)))
  {
    var s1 := s.(threads := s.threads + [Request(Arrived)]);
    RequestAlone(s1, |s.threads|);
    var done := Request(Answered(s.server.active, s.runtimes[s.server.active].enabled));
    assert s1.threads[|s.threads| := done] == s.threads + [done];
  }

  /** `Start` on a fresh server brings it up. */
  lemma ServerStarts(s: State) returns (s1: State)
    requires |s.threads| > 0 && s.threads[0] == Start(Idle)
    ensures Next(s, StartServer) == Some(s1)
    ensures Leads(s1, 0, Gos(4),
                  s.(threads := s.threads[0 := Start(Accepting)],
                     server := s.server.(srv := true, listening := true, ready := true, phase := Running)))
  {
    var g := s.server.active;
    s1 := s.(threads := s.threads[0 := Start(Started(g))]);
    assert s.threads[0 := Start(Started(g))] + [] == s1.threads;
    StartAlone(s1, 0, g);
    assert s1.threads[0 := Start(Accepting)] == s.threads[0 := Start(Accepting)];
  }

  /** The state right after a hot reload has swapped the pointer. */
  function Reloading(s: State, backends: nat, enabled: bool): State {
    var g := s.nextGeneration + 1;
    s.(threads := s.threads + [Stop(s.server.active, Cancel, Replaced)] + Probers(g, backends),
       server := s.server.(active := g, built := s.server.built + {g}),
       runtimes := s.runtimes[g := Runtime(0, backends, false, enabled)],
       nextGeneration := g)
  }

  lemma ReloadBuilds(s: State, backends: nat, enabled: bool) returns (s1: State, s2: State)
    ensures var g := s.nextGeneration + 1;
      && s1 == s.(threads := s.threads + [Reload(Building(g, backends, false))], nextGeneration := g,
                  runtimes := s.runtimes[g := Runtime(0, 0, false, enabled)])
      && s2 == s.(threads := s.threads + [Reload(Built(g))] + Probers(g, backends), nextGeneration := g,
                  server := s.server.(built := s.server.built + {g}),
                  runtimes := s.runtimes[g := Runtime(0, backends, false, enabled)])
    ensures Next(s, NewReload(backends, enabled)) == Some(s1)
    ensures Leads(s1, |s.threads|, Gos(2 * backends + 1), s2)
  {
    var i, g := |s.threads|, s.nextGeneration + 1;
    s1 := s.(threads := s.threads + [Reload(Building(g, backends, false))], nextGeneration := g,
             runtimes := s.runtimes[g := Runtime(0, 0, false, enabled)]);
    BuildAlone(s1, i, g, backends);
    s2 := BuildDone(s1, i, g, backends);
    assert s1.threads[i := Reload(Built(g))] == s.threads + [Reload(Built(g))];
    assert s2.runtimes == s.runtimes[g := Runtime(0, backends, false, enabled)];
  }

  /** A hot reload of a Running server that meets nobody installs a new generation, with one
      registered prober per backend and the configured observability, and goes on to stop the one it
      replaced. */
  lemma HotReload(s: State, backends: nat, enabled: bool) returns (s1: State)
    requires s.writer == Free && s.readers == 0 && s.server.phase == Running
    ensures Next(s, NewReload(backends, enabled)) == Some(s1)
    ensures Leads(s1, |s.threads|, Gos(2 * backends + 6), Reloading(s, backends, enabled))
  {
    var i, g := |s.threads|, s.nextGeneration + 1;
    var s2;
    s1, s2 := ReloadBuilds(s, backends, enabled);
    ReloadAccepted(s2, i, g);
    var stop := Stop(s.server.active, Cancel, Replaced);
    assert s2.threads[i := stop] == s.threads + [stop] + Probers(g, backends);
    GoesOn(s1, i, 2 * backends + 1, s2, 5, Reloading(s, backends, enabled));
  }

  /** The state a successful shutdown leaves. */
  function ShutdownDone(s: State, i: nat): State
    requires i < |s.threads| && s.server.active in s.runtimes
  {
    var g := s.server.active;
    s.(threads := s.threads[i := Shutdown(Returned(Success))],
       server := s.server.(phase := Stopped, ready := false, begun := true, pointerOwns := false,
                           httpClosed := s.server.httpClosed || s.server.srv,
                           retired := s.server.retired + {g}, shutdownErr := Success, closes := s.server.closes + 1),
       runtimes := s.runtimes[g := s.runtimes[g].(cancelled := true)])
  }

  lemma ShutdownStops(s: State, i: nat) returns (s': State)
    requires i < |s.threads| && s.threads[i] == Shutdown(Called) && s.writer == Free && s.readers == 0
    requires (s.server.phase == Starting || s.server.phase == Running) && (s.server.srv ==> HttpDrained(s))
    ensures s' == s.(threads := s.threads[i := Stop(s.server.active, Cancel, ByShutdown)],
                     server := s.server.(phase := ShuttingDown, ready := false, begun := true, pointerOwns := false,
                                         httpClosed := s.server.httpClosed || s.server.srv))
    ensures Leads(s, i, Gos(6), s')
  {
    var g := s.server.active;
    var s1 := s.(threads := s.threads[i := Shutdown(Owning(g))],
                 server := s.server.(phase := ShuttingDown, ready := false, begun := true, pointerOwns := false));
    ShutdownBegins(s, i);
    TotalPut(s.threads, i, Shutdown(Owning(g)), Entering);
    OwnerStops(s1, i, g, false);
    s' := s1.(threads := s1.threads[i := Stop(g, Cancel, ByShutdown)],
              server := s1.server.(httpClosed := s.server.httpClosed || s.server.srv));
    assert s'.threads == s.threads[i := Stop(g, Cancel, ByShutdown)];
    assert Gos(1) == [Go];
    GoesOn(s, i, 5, s1, 1, s');
  }

  /** A `Shutdown` of a server without handlers on their way in whose active runtime has no requests
      and workers left returns success and leaves it stopped. */
  lemma ShutdownAlone(s: State, i: nat)
    requires i < |s.threads| && s.threads[i] == Shutdown(Called) && s.writer == Free && s.readers == 0
    requires (s.server.phase == Starting || s.server.phase == Running) && (s.server.srv ==> HttpDrained(s))
    requires var g := s.server.active;
      g in s.runtimes && s.runtimes[g].requestWG == 0 && s.runtimes[g].workerWG == 0
    ensures Leads(s, i, Gos(14), ShutdownDone(s, i))
  {
    var g := s.server.active;
    var s1 := ShutdownStops(s, i);
    StopAlone(s1, i, g, ByShutdown);
    var s2 := s1.(threads := s1.threads[i := Shutdown(Completing(Success))],
                  server := s1.server.(retired := s.server.retired + {g}),
                  runtimes := s.runtimes[g := s.runtimes[g].(cancelled := true)]);
    GoesOn(s, i, 6, s1, 3, s2);
    ShutdownCompletes(s2, i, Success);
    assert s2.threads[i := Shutdown(Returned(Success))] == s.threads[i := Shutdown(Returned(Success))];
    GoesOn(s, i, 9, s2, 5, ShutdownDone(s, i));
  }
}
