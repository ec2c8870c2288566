/** The configuration watcher's event loop, which owns the debounce timer. */
module Watcher {
  import opened Options

  const DEBOUNCE_MS: int := 250

  datatype Op = Create | Write | Remove | Rename | Chmod

  /** What one turn of the `select` receives. `Tick` only lets time pass: the debounce channel is
      received from if, at that time, the timer behind it has fired. */
  datatype Input =
    | FsEvent(at: int, path: Option<string>, ops: set<Op>)
    | Tick(at: int)
    | WatchError(at: int)
    | Cancelled
    | EventsClosed
    | ErrorsClosed

  /** What the loop did. */
  datatype Occurrence = Change(at: int) | Reload(at: int)

  /** A relevant event: an absolute path equal to the watched one and an operation that writes. */
  predicate Relevant(config: string, i: Input) {
    i.FsEvent? && i.path == Some(config) && (Write in i.ops || Create in i.ops || Rename in i.ops)
  }

  predicate Ends(i: Input) {
    i.Cancelled? || i.EventsClosed? || i.ErrorsClosed?
  }

  // ---------------------------------------------------------------------------------------
  // What the loop should do, without timers
  // ---------------------------------------------------------------------------------------

  /** A change was handled after the last reload. */
  predicate Pending(log: seq<Occurrence>) {
    log != [] && log[|log| - 1].Change?
  }

  function Respond(config: string, log: seq<Occurrence>, i: Input): seq<Occurrence> {
    if Relevant(config, i) then log + [Change(i.at)]
    else if i.Tick? && Pending(log) && i.at >= log[|log| - 1].at + DEBOUNCE_MS then log + [Reload(i.at)]
    else log
  }

  function Log(config: string, inputs: seq<Input>): seq<Occurrence> {
    if inputs == [] then []
    else
      var n := |inputs| - 1;
      var log := Log(config, inputs[..n]);
      if exists j :: 0 <= j < n && Ends(inputs[j]) then log else Respond(config, log, inputs[n])
  }

  // ---------------------------------------------------------------------------------------
  // The loop
  // ---------------------------------------------------------------------------------------

  datatype Timer = Timer(deadline: int, stopped: bool)

  class Loop {
    const config: string
    /** All timers ever made; `debounce` and `debounceC` name the timer and the channel in use. */
    var timers: seq<Timer>
    var debounce: Option<nat>
    var debounceC: Option<nat>
    var log: seq<Occurrence>

    /** A live channel is that of the newest timer, set for the last change, and there is one
        exactly when a change is pending. Every older timer has been stopped. */
    ghost predicate Valid()
      reads this
    {
      && (if timers == [] then debounce.None? else debounce == Some(|timers| - 1))
      && (forall j :: 0 <= j < |timers| - 1 ==> timers[j].stopped)
      && (debounceC.Some? <==> Pending(log))
      && (debounceC.Some? ==>
            && debounceC == debounce
            && debounceC.value == |timers| - 1
            && timers[debounceC.value] == Timer(log[|log| - 1].at + DEBOUNCE_MS, false))
    }

    constructor (config: string)
      ensures Valid() && this.config == config && log == []
    {
      this.config := config;
      timers, debounce, debounceC, log := [], None, None, [];
    }

    method StopDebounce()
      requires debounce.Some? ==> debounce.value < |timers|
      modifies this`timers
      ensures timers == if debounce.None? then old(timers)
                        else old(timers)[debounce.value := old(timers)[debounce.value].(stopped := true)]
    {
      if debounce.Some? {
        timers := timers[debounce.value := timers[debounce.value].(stopped := true)];
      }
    }

    /** One turn of the loop; `done` says that it returns. A written, created or renamed
        configuration file is a change; any other file, and an operation that only removes it or
        changes its mode, is not. */
    method Turn(i: Input) returns (done: bool)
      requires Valid()
      modifies this
      ensures Valid() || done
      ensures log == Respond(config, old(log), i)
      ensures i.FsEvent? && i.path == Some(config) && Write in i.ops ==> log == old(log) + [Change(i.at)]
      ensures i.FsEvent? && i.path == Some(config) && Create in i.ops ==> log == old(log) + [Change(i.at)]
      ensures i.FsEvent? && i.path == Some(config) && Rename in i.ops ==> log == old(log) + [Change(i.at)]
      ensures i.FsEvent? && (i.path != Some(config) || i.ops <= {Remove, Chmod}) ==> log == old(log)
      ensures i.WatchError? ==> log == old(log)
      ensures i.Cancelled? && old(timers) != [] ==> timers != [] && timers[|timers| - 1].stopped
      ensures done <==> i.Cancelled? || i.EventsClosed? || i.ErrorsClosed?
    {
      done := false;
      match i
      case Cancelled =>
        StopDebounce();
        done := true;
      case FsEvent(at, path, ops) =>
        if path != Some(config) {
          return;
        }
        if !(Write in ops || Create in ops || Rename in ops) {
          return;
        }
        StopDebounce();
        timers := timers + [Timer(at + DEBOUNCE_MS, false)];
        debounce := Some(|timers| - 1);
        debounceC := debounce;
        log := log + [Change(at)];
      case Tick(at) =>
        if debounceC.Some? && !timers[debounceC.value].stopped && at >= timers[debounceC.value].deadline {
          debounceC := None;
          log := log + [Reload(at)];
        }
      case WatchError(_) =>
      case EventsClosed => done := true;
      case ErrorsClosed => done := true;
    }

    /** The loop with its timers does what the log without timers says, for every schedule. */
    method Start(inputs: seq<Input>)
      requires Valid() && log == []
      modifies this
      ensures log == Log(config, inputs)
    {
      var n := 0;
      var done := false;
      while n < |inputs| && !done
        invariant 0 <= n <= |inputs|
        invariant !done ==> Valid() && forall j :: 0 <= j < n ==> !Ends(inputs[j])
        invariant done ==> n > 0 && Ends(inputs[n - 1])
        invariant log == Log(config, inputs[..n])
      {
        assert inputs[..n + 1][..n] == inputs[..n];
        assert forall j :: 0 <= j < n ==> inputs[..n + 1][j] == inputs[j];
        done := Turn(inputs[n]);
        n := n + 1;
      }
      if done {
        LogEnded(config, inputs, n);
      } else {
        assert inputs[..n] == inputs;
      }
    }
  }

  /** Nothing is logged after the loop has returned. */
  lemma {:induction false} LogEnded(config: string, inputs: seq<Input>, n: nat)
    requires 0 < n <= |inputs| && Ends(inputs[n - 1])
    ensures Log(config, inputs) == Log(config, inputs[..n])
    decreases |inputs|
  {
    if n == |inputs| {
      assert inputs[..n] == inputs;
    } else {
      var m := |inputs| - 1;
      LogEnded(config, inputs[..m], n);
      assert inputs[..m][..n] == inputs[..n];
    }
  }

  // ---------------------------------------------------------------------------------------
  // What follows for the log
  // ---------------------------------------------------------------------------------------

  function Count(log: seq<Occurrence>, reloads: bool): nat {
    if log == [] then 0
    else Count(log[..|log| - 1], reloads) + (if log[|log| - 1].Reload? == reloads then 1 else 0)
  }

  /** Every reload directly follows a change in the log, at least 250 ms later. */
  ghost predicate Paced(log: seq<Occurrence>) {
    forall k :: 0 <= k < |log| && log[k].Reload? ==>
      k > 0 && log[k - 1].Change? && log[k].at >= log[k - 1].at + 250
  }

  lemma {:induction false} LogPaced(config: string, inputs: seq<Input>)
    ensures Paced(Log(config, inputs))
  {
    if inputs != [] {
      LogPaced(config, inputs[..|inputs| - 1]);
    }
  }

  /** Hence reloads never outnumber the relevant events handled, and a pending change is one more. */
  lemma {:induction false} ReloadsNeverOutnumber(log: seq<Occurrence>)
    requires Paced(log)
    ensures Count(log, true) + (if Pending(log) then 1 else 0) <= Count(log, false)
  {
    if log != [] {
      var n := |log| - 1;
      assert forall k :: 0 <= k < n ==> log[..n][k] == log[k];
      ReloadsNeverOutnumber(log[..n]);
    }
  }

  /** A tick at or after the deadline. */
  predicate Late(i: Input, deadline: int) {
    i.Tick? && i.at >= deadline
  }

  /** Neither a relevant event nor the end of the loop. */
  predicate Quiet(config: string, i: Input) {
    !Relevant(config, i) && !Ends(i)
  }

  /** No handled change is forgotten and none is answered twice: after a relevant event and for any
      quiet continuation, however long, the first tick that comes the debounce time later, if
      there is one, adds the one reload, and nothing else adds anything. */
  lemma {:induction false} NothingForgotten(config: string, before: seq<Input>, change: Input, rest: seq<Input>, n: nat)
    requires forall j :: 0 <= j < |before| ==> !Ends(before[j])
    requires Relevant(config, change) && forall j :: 0 <= j < |rest| ==> Quiet(config, rest[j])
    requires n <= |rest| && forall j :: 0 <= j < n ==> !Late(rest[j], change.at + 250)
    requires n < |rest| ==> Late(rest[n], change.at + 250)
    ensures Log(config, before + [change] + rest)
         == Log(config, before) + [Change(change.at)] + (if n < |rest| then [Reload(rest[n].at)] else [])
    decreases |rest|
  {
    var inputs := before + [change] + rest;
    var m := |inputs| - 1;
    if rest == [] {
      assert inputs[..m] == before;
    } else {
      var rest' := rest[..|rest| - 1];
      assert inputs[..m] == before + [change] + rest';
      NothingForgotten(config, before, change, rest', if n < |rest'| then n else |rest'|);
    }
  }

  /** A pending change is that of the last relevant event, and no tick since was late enough. */
  lemma {:induction false} PendingCause(config: string, inputs: seq<Input>) returns (m: nat)
    requires Pending(Log(config, inputs)) && forall j :: 0 <= j < |inputs| ==> !Ends(inputs[j])
    ensures m < |inputs| && Relevant(config, inputs[m])
    ensures var log := Log(config, inputs);
      log[|log| - 1] == Change(inputs[m].at)
    ensures forall j :: m < j < |inputs| ==>
              !Relevant(config, inputs[j]) && !Late(inputs[j], inputs[m].at + 250)
  {
    m := |inputs| - 1;
    if !Relevant(config, inputs[m]) {
      m := PendingCause(config, inputs[..m]);
    }
  }

  /** Nothing is reloaded that was not asked for: every reload in the log of every run was made at
      a tick, before the loop ended, for the last relevant event before that tick and at least the
      debounce time after it; no earlier tick was late enough, so a superseded timer never fires. */
  lemma {:induction false} NoSpuriousReload(config: string, inputs: seq<Input>, k: nat) returns (m: nat, n: nat)
    requires k < |Log(config, inputs)| && Log(config, inputs)[k].Reload?
    ensures m < n < |inputs| && Relevant(config, inputs[m])
    ensures Late(inputs[n], inputs[m].at + 250) && Log(config, inputs)[k] == Reload(inputs[n].at)
    ensures forall j :: m < j < n ==>
              !Relevant(config, inputs[j]) && !Late(inputs[j], inputs[m].at + 250)
    ensures forall j :: 0 <= j < n ==> !Ends(inputs[j])
    ensures Log(config, inputs[..n]) == Log(config, inputs)[..k]
  {
    var last := |inputs| - 1;
    var log := Log(config, inputs[..last]);
    if k < |log| {
      m, n := NoSpuriousReload(config, inputs[..last], k);
      assert inputs[..last][..n] == inputs[..n];
    } else {
      n := last;
      m := PendingCause(config, inputs[..last]);
    }
  }
}
