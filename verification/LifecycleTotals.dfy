/** How totals over the threads change when one thread moves, and what a total says about
    single threads. */
module LifecycleTotals {
  import opened Lifecycle

  lemma {:induction false} TotalPut(ts: seq<Thread>, i: nat, t: Thread, m: Meter)
    requires i < |ts|
    ensures Total(ts[i := t], m) == Total(ts, m) - Weight(m, ts[i]) + Weight(m, t)
  {
    var n := |ts| - 1;
    if i == n {
      assert ts[i := t][..n] == ts[..n];
    } else {
      assert ts[i := t][..n] == ts[..n][i := t];
      TotalPut(ts[..n], i, t, m);
    }
  }

  lemma TotalAppend(ts: seq<Thread>, t: Thread, m: Meter)
    ensures Total(ts + [t], m) == Total(ts, m) + Weight(m, t)
  {
    assert (ts + [t])[..|ts|] == ts;
  }

  lemma {:induction false} TotalMember(ts: seq<Thread>, i: nat, m: Meter)
    requires i < |ts|
    ensures Total(ts, m) >= Weight(m, ts[i])
  {
    if i < |ts| - 1 {
      TotalMember(ts[..|ts| - 1], i, m);
    }
  }

  lemma {:induction false} TotalPair(ts: seq<Thread>, i: nat, j: nat, m: Meter)
    requires i < j < |ts|
    ensures Total(ts, m) >= Weight(m, ts[i]) + Weight(m, ts[j])
  {
    if j == |ts| - 1 {
      TotalMember(ts[..j], i, m);
    } else {
      TotalPair(ts[..|ts| - 1], i, j, m);
    }
  }

  lemma {:induction false} TotalWitness(ts: seq<Thread>, m: Meter) returns (i: nat)
    requires Total(ts, m) > 0
    ensures i < |ts| && Weight(m, ts[i]) > 0
  {
    i := |ts| - 1;
    if Weight(m, ts[i]) == 0 {
      i := TotalWitness(ts[..|ts| - 1], m);
    }
  }

  /** All totals at once, after thread `i` became `t`. */
  lemma Moved(ts: seq<Thread>, i: nat, t: Thread)
    requires i < |ts|
    ensures forall m :: Total(ts[i := t], m) == Total(ts, m) - Weight(m, ts[i]) + Weight(m, t)
  {
    forall m {
      TotalPut(ts, i, t, m);
    }
  }

  /** All totals at once, after a new thread appeared. */
  lemma Joined(ts: seq<Thread>, t: Thread)
    ensures forall m :: Total(ts + [t], m) == Total(ts, m) + Weight(m, t)
  {
    forall m {
      TotalAppend(ts, t, m);
    }
  }

  /** When a total is at most one, the thread that carries it is the only one. */
  lemma OnlyBearer(ts: seq<Thread>, i: nat, m: Meter)
    requires i < |ts| && Weight(m, ts[i]) >= 1 && Total(ts, m) <= 1
    ensures Total(ts, m) == Weight(m, ts[i]) == 1
    ensures forall j :: 0 <= j < |ts| && j != i ==> Weight(m, ts[j]) == 0
  {
    TotalMember(ts, i, m);
    forall j | 0 <= j < |ts| && j != i
      ensures Weight(m, ts[j]) == 0
    {
      if i < j { TotalPair(ts, i, j, m); } else { TotalPair(ts, j, i, m); }
    }
  }
}
