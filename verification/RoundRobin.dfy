/** The round-robin balancer: one atomic 64-bit counter and a scan for a healthy backend. */
module RoundRobin {
  import opened Options

  const WORD: nat := 0x1_0000_0000_0000_0000

  function Power(base: nat, exponent: nat): nat {
    if exponent == 0 then 1 else base * Power(base, exponent - 1)
  }

  /** The counter is 64 bits wide. */
  lemma WordIsWide()
    ensures WORD == Power(2, 64)
  {
    PowerAdds(32, 32);
    PowerAdds(16, 16);
    PowerAdds(8, 8);
    assert Power(2, 8) == 256;
  }

  lemma {:induction false} PowerAdds(m: nat, n: nat)
    ensures Power(2, m + n) == Power(2, m) * Power(2, n)
    decreases n
  {
    if n == 0 {
      assert Power(2, 0) == 1;
    } else {
      PowerAdds(m, n - 1);
      assert Power(2, m + n) == 2 * Power(2, m + (n - 1));
    }
  }

  class Backend {
    var healthy: bool

    constructor ()
      ensures healthy
    {
      healthy := true;
    }
  }

  function HealthOf(backends: seq<Backend>): (health: seq<bool>)
    reads backends
    ensures |health| == |backends|
    ensures forall i :: 0 <= i < |backends| ==> health[i] == backends[i].healthy
  {
    if backends == [] then []
    else HealthOf(backends[..|backends| - 1]) + [backends[|backends| - 1].healthy]
  }

  /** `index.Add(1)` on a 64-bit counter, which holds a number below `WORD`. */
  function Ticket(index: nat): nat {
    if index + 1 < WORD then index + 1 else 0
  }

  /** The backend a ticket stands for: `ticket % n`, by repeated subtraction. */
  function Slot(ticket: nat, n: nat): (slot: nat)
    requires n > 0
    ensures slot < n
  {
    if ticket < n then ticket else Slot(ticket - n, n)
  }

  /** What `tries` turns of the scan find, and the counter they leave. */
  function Scan(health: seq<bool>, index: nat, tries: nat): (Option<nat>, nat)
    decreases tries
  {
    if tries == 0 || health == [] then (None, index)
    else
      var t := Ticket(index);
      var slot := Slot(t, |health|);
      if health[slot] then (Some(slot), t) else Scan(health, t, tries - 1)
  }

  class Balancer {
    const backends: seq<Backend>
    var index: nat

    /** The counter is a 64-bit word. */
    predicate Valid()
      reads this
    {
      index < WORD
    }

    constructor (backends: seq<Backend>)
      ensures Valid() && this.backends == backends && index == 0
    {
      this.backends := backends;
      index := 0;
    }

    method Next() returns (backend: Backend?)
      requires Valid()
      modifies this`index
      ensures Valid()
      ensures var health := HealthOf(backends);
        var (pick, counter) := Scan(health, old(index), |backends|);
        && index == counter
        && (pick.Some? ==> pick.value < |backends| && backend == backends[pick.value])
        && (pick.None? ==> backend == null)
    {
      backend := null;
      if |backends| == 0 {
        return;
      }
      ghost var health := HealthOf(backends);
      for i := 0 to |backends|
        invariant Valid()
        invariant Scan(health, old(index), |backends|) == Scan(health, index, |backends| - i)
      {
        index := Ticket(index);
        SlotIsRemainder(index, |backends|);
        var candidate := backends[index % |backends|];
        if candidate.healthy {
          backend := candidate;
          return;
        }
      }
    }
  }

  // ---------------------------------------------------------------------------------------
  // Slots
  // ---------------------------------------------------------------------------------------

  lemma {:induction false} SlotIsRemainder(ticket: nat, n: nat)
    requires n > 0
    ensures Slot(ticket, n) == ticket % n
  {
    if ticket >= n {
      SlotIsRemainder(ticket - n, n);
      RemainderShift(ticket - n, n);
    }
  }

  lemma Multiple(k: int, n: nat)
    requires 0 < k * n
    ensures k * n >= n
  {
    if k > 0 {
      assert k * n == (k - 1) * n + n;
    }
  }

  lemma RemainderShift(t: nat, n: nat)
    requires n > 0
    ensures (t + n) % n == t % n
  {
    var k := (t + n) / n - t / n;
    assert k * n == ((t + n) / n) * n - (t / n) * n;
    var d := (t + n) % n - t % n;
    assert k * n == n - d;
    assert (k - 1) * n == -d && (1 - k) * n == d;
    if d > 0 { Multiple(1 - k, n); } else if d < 0 { Multiple(k - 1, n); }
  }

  lemma {:induction false} SameSlot(a: nat, b: nat, n: nat)
    requires n > 0 && a < b && Slot(a, n) == Slot(b, n)
    ensures b - a >= n
  {
    if a >= n {
      SameSlot(a - n, b - n, n);
    }
  }

  /** A window of `n` successive tickets meets every slot. */
  lemma {:induction false} WindowMeets(a: nat, n: nat, b: nat) returns (t: nat)
    requires b < n
    ensures a <= t < a + n && Slot(t, n) == b
    decreases a
  {
    if a >= n {
      t := WindowMeets(a - n, n, b);
      t := t + n;
    } else if a <= b {
      t := b;
    } else {
      t := b + n;
    }
  }

  lemma {:induction false} SlotPlus(t: nat, d: nat, n: nat)
    requires n > 0 && Slot(t, n) + d < n
    ensures Slot(t + d, n) == Slot(t, n) + d
  {
    if t >= n {
      SlotPlus(t - n, d, n);
    }
  }

  /** The next slot in cyclic order. */
  function After(slot: nat, n: nat): (next: nat)
    requires slot < n
    ensures next < n
  {
    if slot + 1 < n then slot + 1 else 0
  }

  lemma {:induction false} SlotAfter(t: nat, n: nat)
    requires n > 0
    ensures Slot(t + 1, n) == After(Slot(t, n), n)
  {
    if t >= n {
      SlotAfter(t - n, n);
    }
  }

  /** Also when the counter wraps, if the number of backends divides two to the 64. */
  lemma TicketAfter(index: nat, n: nat)
    requires index < WORD && n > 0 && (index + 1 < WORD || WORD % n == 0)
    ensures Slot(Ticket(index), n) == After(Slot(index, n), n)
  {
    SlotAfter(index, n);
    SlotIsRemainder(WORD, n);
  }

  // ---------------------------------------------------------------------------------------
  // Sequential calls
  // ---------------------------------------------------------------------------------------

  predicate Healthy(health: seq<bool>, ticket: nat) {
    health != [] && health[Slot(ticket, |health|)]
  }

  /** The healthy tickets from `a` up to but not including `b`. */
  function Between(health: seq<bool>, a: nat, b: nat): nat
    decreases b
  {
    if b <= a then 0 else Between(health, a, b - 1) + (if Healthy(health, b - 1) then 1 else 0)
  }

  function HealthyCount(health: seq<bool>): nat {
    if health == [] then 0
    else HealthyCount(health[..|health| - 1]) + (if health[|health| - 1] then 1 else 0)
  }

  lemma {:induction false} BetweenFront(health: seq<bool>, a: nat, b: nat)
    requires a < b
    ensures Between(health, a, b) == (if Healthy(health, a) then 1 else 0) + Between(health, a + 1, b)
    decreases b
  {
    if a + 1 < b {
      BetweenFront(health, a, b - 1);
    }
  }

  lemma {:induction false} BetweenSplit(health: seq<bool>, a: nat, b: nat, c: nat)
    requires a <= b <= c
    ensures Between(health, a, c) == Between(health, a, b) + Between(health, b, c)
    decreases c
  {
    if b < c {
      BetweenSplit(health, a, b, c - 1);
    }
  }

  lemma {:induction false} BetweenPrefix(health: seq<bool>, k: nat)
    requires k <= |health|
    ensures Between(health, 0, k) == HealthyCount(health[..k])
  {
    if k > 0 {
      BetweenPrefix(health, k - 1);
      assert health[..k][..k - 1] == health[..k - 1];
    }
  }

  /** Any window as long as the pool holds each healthy backend once. */
  lemma {:induction false} BetweenWindow(health: seq<bool>, a: nat)
    ensures Between(health, a, a + |health|) == HealthyCount(health)
  {
    var n := |health|;
    if a == 0 {
      BetweenPrefix(health, n);
      assert health[..n] == health;
    } else if n > 0 {
      BetweenWindow(health, a - 1);
      BetweenFront(health, a - 1, a - 1 + n);
      BetweenSplit(health, a, a - 1 + n, a + n);
    }
  }

  lemma {:induction false} BetweenNone(health: seq<bool>, a: nat, b: nat, t: nat)
    requires a <= t < b && Between(health, a, b) == 0
    ensures !Healthy(health, t)
    decreases b
  {
    if t < b - 1 {
      BetweenNone(health, a, b - 1, t);
    }
  }

  lemma {:induction false} CountZero(health: seq<bool>, b: nat)
    requires HealthyCount(health) == 0 && b < |health|
    ensures !health[b]
  {
    if b < |health| - 1 {
      CountZero(health[..|health| - 1], b);
    }
  }

  lemma {:induction false} ScanFindsNone(health: seq<bool>, index: nat, tries: nat)
    requires forall b :: 0 <= b < |health| ==> !health[b]
    ensures Scan(health, index, tries).0.None?
    decreases tries
  {
    if tries > 0 && health != [] {
      ScanFindsNone(health, Ticket(index), tries - 1);
    }
  }

  /** A scan over a window that holds a healthy ticket stops at the first one in it. */
  lemma {:induction false} FirstInside(health: seq<bool>, index: nat, tries: nat, stop: nat)
    requires health != [] && index < WORD && stop <= Ticket(index) + tries && stop <= WORD
    requires Between(health, Ticket(index), stop) > 0
    ensures var (pick, counter) := Scan(health, index, tries);
      && pick == Some(Slot(counter, |health|))
      && Ticket(index) <= counter < stop
      && Healthy(health, counter)
      && Between(health, Ticket(index), counter) == 0
    decreases tries
  {
    var first := Ticket(index);
    BetweenFront(health, first, stop);
    if !Healthy(health, first) {
      FirstInside(health, first, tries - 1, stop);
      BetweenFront(health, first, Scan(health, index, tries).1);
    }
  }

  /** The tickets at which `m` successive calls stop. */
  function Stops(health: seq<bool>, index: nat, m: nat): (ts: seq<nat>)
    decreases m
  {
    if m == 0 then []
    else
      var (pick, counter) := Scan(health, index, |health|);
      if pick.Some? then [counter] + Stops(health, counter, m - 1) else []
  }

  /** The backends that `m` successive calls return. */
  function Picks(health: seq<bool>, index: nat, m: nat): (bs: seq<nat>)
    decreases m
  {
    if m == 0 then []
    else
      var (pick, counter) := Scan(health, index, |health|);
      if pick.Some? then [pick.value] + Picks(health, counter, m - 1) else []
  }

  /** `ts` lists, in order, the healthy tickets from `first` up to but not including `stop`, and
      `bs` their slots. */
  ghost predicate Lists(health: seq<bool>, first: nat, stop: nat, ts: seq<nat>, bs: seq<nat>)
    requires health != []
  {
    && |ts| == |bs|
    && (forall i :: 0 <= i < |ts| ==>
          first <= ts[i] < stop && Healthy(health, ts[i]) && bs[i] == Slot(ts[i], |health|))
    && (forall i, j :: 0 <= i < j < |ts| ==> ts[i] < ts[j])
    && (forall t :: first <= t < stop && Healthy(health, t) ==> t in ts)
  }

  lemma ListsAll(health: seq<bool>, first: nat, hit: nat, stop: nat, ts: seq<nat>, t: nat)
    requires health != [] && first <= t < stop && Healthy(health, t) && Between(health, first, hit) == 0
    requires forall u :: hit + 1 <= u < stop && Healthy(health, u) ==> u in ts
    ensures t in [hit] + ts
  {
    if t < hit {
      BetweenNone(health, first, hit, t);
    }
  }

  lemma ListsMore(health: seq<bool>, first: nat, hit: nat, stop: nat, ts: seq<nat>, bs: seq<nat>)
    requires health != [] && first <= hit < stop && Healthy(health, hit)
    requires Between(health, first, hit) == 0 && Lists(health, hit + 1, stop, ts, bs)
    ensures Lists(health, first, stop, [hit] + ts, [Slot(hit, |health|)] + bs)
  {
    var ts', bs' := [hit] + ts, [Slot(hit, |health|)] + bs;
    forall i | 0 <= i < |ts'|
      ensures first <= ts'[i] < stop && Healthy(health, ts'[i]) && bs'[i] == Slot(ts'[i], |health|)
    {
      if i > 0 {
        assert ts'[i] == ts[i - 1] && bs'[i] == bs[i - 1];
      }
    }
    forall i, j | 0 <= i < j < |ts'|
      ensures ts'[i] < ts'[j]
    {
      assert ts'[j] == ts[j - 1];
    }
    forall t | first <= t < stop && Healthy(health, t)
      ensures t in ts'
    {
      ListsAll(health, first, hit, stop, ts, t);
    }
  }

  /** As many calls as the rest of a window holds healthy tickets stop at all of them, in order. */
  lemma {:induction false} StopsCover(health: seq<bool>, index: nat, first: nat, m: nat, stop: nat)
    requires health != [] && index < WORD && (m > 0 ==> first == Ticket(index))
    requires first <= stop <= first + |health| && stop <= WORD && Between(health, first, stop) == m
    ensures |Stops(health, index, m)| == m
    ensures Lists(health, first, stop, Stops(health, index, m), Picks(health, index, m))
    decreases m
  {
    if m == 0 {
      forall t | first <= t < stop
        ensures !Healthy(health, t)
      {
        BetweenNone(health, first, stop, t);
      }
    } else {
      var counter := Scan(health, index, |health|).1;
      FirstInside(health, index, |health|, stop);
      BetweenSplit(health, first, counter, stop);
      BetweenFront(health, counter, stop);
      StopsCover(health, counter, counter + 1, m - 1, stop);
      ListsMore(health, first, counter, stop, Stops(health, counter, m - 1), Picks(health, counter, m - 1));
    }
  }

  /** `h` successive calls, for `h` healthy backends, return each of them exactly once and no other. */
  ghost predicate Fair(health: seq<bool>, index: nat) {
    var bs := Picks(health, index, HealthyCount(health));
    && |bs| == HealthyCount(health)
    && (forall i :: 0 <= i < |bs| ==> bs[i] < |health| && health[bs[i]])
    && (forall i, j :: 0 <= i < j < |bs| ==> bs[i] != bs[j])
    && (forall b :: 0 <= b < |health| && health[b] ==> b in bs)
  }

  lemma FairInside(health: seq<bool>, index: nat)
    requires index < WORD && Ticket(index) + |health| <= WORD
    ensures Fair(health, index)
  {
    var n, m, first := |health|, HealthyCount(health), Ticket(index);
    if n > 0 {
      var ts, bs := Stops(health, index, m), Picks(health, index, m);
      BetweenWindow(health, first);
      StopsCover(health, index, first, m, first + n);
      forall i, j | 0 <= i < j < m
        ensures bs[i] != bs[j]
      {
        if bs[i] == bs[j] {
          SameSlot(ts[i], ts[j], n);
        }
      }
      forall b | 0 <= b < n && health[b]
        ensures b in bs
      {
        var t := WindowMeets(first, n, b);
        assert Healthy(health, t) && t in ts;
        var i :| 0 <= i < m && ts[i] == t;
        assert bs[i] == b;
      }
    }
  }

  // ---------------------------------------------------------------------------------------
  // Cyclic order, also over a wrap
  // ---------------------------------------------------------------------------------------

  /** The next healthy backend in cyclic order after `slot`, among the next `tries`. */
  function NextHealthy(health: seq<bool>, slot: nat, tries: nat): Option<nat>
    requires slot < |health|
    decreases tries
  {
    if tries == 0 then None
    else
      var next := After(slot, |health|);
      if health[next] then Some(next) else NextHealthy(health, next, tries - 1)
  }

  lemma {:induction false} NextHealthyMisses(health: seq<bool>, slot: nat, tries: nat, b: nat)
    requires slot < |health| && b < |health| && NextHealthy(health, slot, tries).None?
    requires (if slot < b then b else b + |health|) <= slot + tries
    ensures !health[b]
    decreases tries
  {
    var next := After(slot, |health|);
    if b != next {
      NextHealthyMisses(health, next, tries - 1, b);
    }
  }

  /** The call returns the next healthy backend in cyclic order, nil only if there is none. */
  ghost predicate InOrder(health: seq<bool>, index: nat)
    requires health != []
  {
    Scan(health, index, |health|).0 == NextHealthy(health, Slot(index, |health|), |health|)
  }

  lemma {:induction false} ScanInOrder(health: seq<bool>, index: nat, tries: nat)
    requires health != [] && index < WORD && (index + tries < WORD || WORD % |health| == 0)
    ensures Scan(health, index, tries).0 == NextHealthy(health, Slot(index, |health|), tries)
    decreases tries
  {
    if tries > 0 {
      TicketAfter(index, |health|);
      if !Healthy(health, Ticket(index)) {
        ScanInOrder(health, Ticket(index), tries - 1);
      }
    }
  }

  lemma {:induction false} ScanLands(health: seq<bool>, index: nat, tries: nat)
    requires health != [] && index < WORD
    ensures var (pick, counter) := Scan(health, index, tries);
      counter < WORD && (pick.Some? ==> pick.value == Slot(counter, |health|))
    decreases tries
  {
    if tries > 0 && !Healthy(health, Ticket(index)) {
      ScanLands(health, Ticket(index), tries - 1);
    }
  }

  /** When the number of backends divides two to the 64, only the slot of the counter matters. */
  lemma ScanSame(health: seq<bool>, i: nat, j: nat)
    requires health != [] && i < WORD && j < WORD && WORD % |health| == 0
    requires Slot(i, |health|) == Slot(j, |health|)
    ensures var (pick, a), (pick', b) := Scan(health, i, |health|), Scan(health, j, |health|);
      pick == pick' && a < WORD && b < WORD && (pick.Some? ==> Slot(a, |health|) == Slot(b, |health|))
  {
    ScanInOrder(health, i, |health|);
    ScanInOrder(health, j, |health|);
    ScanLands(health, i, |health|);
    ScanLands(health, j, |health|);
  }

  lemma {:induction false} PicksSame(health: seq<bool>, i: nat, j: nat, m: nat)
    requires health != [] && i < WORD && j < WORD && WORD % |health| == 0
    requires Slot(i, |health|) == Slot(j, |health|)
    ensures Picks(health, i, m) == Picks(health, j, m)
    decreases m
  {
    if m > 0 {
      ScanSame(health, i, j);
      if Scan(health, i, |health|).0.Some? {
        PicksSame(health, Scan(health, i, |health|).1, Scan(health, j, |health|).1, m - 1);
      }
    }
  }

  lemma TwiceFits(n: nat)
    requires 0 < n < WORD && WORD % n == 0
    ensures 2 * n <= WORD
  {
    var q := WORD / n;
    assert q * n == WORD;
    assert q != 0 && q != 1;
    assert q * n == 2 * n + (q - 2) * n;
  }

  // ---------------------------------------------------------------------------------------
  // What a wrap may do
  // ---------------------------------------------------------------------------------------

  /** The next `n` tickets do not wrap, or the wrap keeps their slots in step. */
  predicate Harmless(index: nat, n: nat) {
    Ticket(index) + n <= WORD || (n > 0 && WORD % n == 0)
  }

  /** The `d`-th ticket after `index`. */
  function Later(index: nat, d: nat): nat
    requires index < WORD && d <= WORD
  {
    if index + d < WORD then index + d else index + d - WORD
  }

  lemma {:induction false} ScanMisses(health: seq<bool>, index: nat, tries: nat)
    requires health != [] && index < WORD && tries <= WORD
    requires forall d :: 0 < d <= tries ==> !Healthy(health, Later(index, d))
    ensures Scan(health, index, tries).0.None?
    decreases tries
  {
    if tries > 0 {
      var t := Ticket(index);
      assert t == Later(index, 1);
      forall d | 0 < d <= tries - 1
        ensures !Healthy(health, Later(t, d))
      {
        assert Later(t, d) == Later(index, d + 1);
      }
      ScanMisses(health, t, tries - 1);
    }
  }

  /** Any other wrap leaves some slot out of the next `n` tickets. */
  lemma SlotLeftOut(index: nat, n: nat) returns (b: nat)
    requires index < WORD && n < WORD && !Harmless(index, n)
    ensures b < n && forall d :: 0 < d <= n ==> Slot(Later(index, d), n) != b
  {
    var a, w := WORD - 1 - index, WORD % n;
    b := if w < n - a then n - a else w;
    SlotIsRemainder(WORD, n);
    SlotPlus(WORD, b - w, n);
    forall d | 0 < d <= n
      ensures Slot(Later(index, d), n) != b
    {
      if d <= a && Slot(Later(index, d), n) == b {
        SameSlot(index + d, WORD + (b - w), n);
      }
    }
  }

  /** So a call can skip the only healthy backend and return nil. */
  lemma WrapSkips(index: nat, n: nat) returns (health: seq<bool>)
    requires index < WORD && n < WORD && !Harmless(index, n)
    ensures |health| == n && HealthyCount(health) > 0 && Scan(health, index, n).0.None?
    ensures exists b :: 0 <= b < n && health[b]
  {
    var b := SlotLeftOut(index, n);
    health := seq(n, k => k == b);
    if HealthyCount(health) == 0 {
      CountZero(health, b);
    }
    ScanMisses(health, index, n);
    assert health[b];
  }

  /** For example with three backends of which only the last is healthy. */
  lemma WrapSkipsLastOfThree()
    ensures Scan([false, false, true], WORD - 2, 3).0.None? && HealthyCount([false, false, true]) == 1
  {
    var health := [false, false, true];
    SlotIsRemainder(WORD - 1, 3);
    assert Scan(health, 1, 0) == (None, 1);
    assert Scan(health, 0, 1).0.None?;
    assert Scan(health, WORD - 1, 2).0.None?;
    assert Scan(health, WORD - 2, 3).0.None?;
    assert health[..1][..0] == [] && health[..2][..1] == health[..1];
    assert HealthyCount(health[..1]) == 0;
    assert HealthyCount(health[..2]) == 0;
  }

  /** `Next` returns nil exactly when no backend is healthy. */
  lemma NilOnlyIfNoneHealthy(health: seq<bool>, index: nat)
    requires index < WORD && |health| < WORD && Harmless(index, |health|)
    ensures Scan(health, index, |health|).0.None? <==> HealthyCount(health) == 0
  {
    if HealthyCount(health) == 0 {
      forall b | 0 <= b < |health|
        ensures !health[b]
      {
        CountZero(health, b);
      }
      ScanFindsNone(health, index, |health|);
    } else {
      EachHealthyOnce(health, index);
    }
  }

  /** Fairness: with `h` healthy backends, any `h` successive calls return each healthy backend
      exactly once and no other. */
  lemma EachHealthyOnce(health: seq<bool>, index: nat)
    requires index < WORD && |health| < WORD && Harmless(index, |health|)
    ensures Fair(health, index)
  {
    var n := |health|;
    if Ticket(index) + n <= WORD {
      FairInside(health, index);
    } else {
      var j := Slot(index, n);
      TwiceFits(n);
      SlotPlus(0, j, n);
      FairInside(health, j);
      PicksSame(health, index, j, HealthyCount(health));
    }
  }

  /** Both hold for every health of the pool exactly when the wrap is harmless. */
  lemma FairUnlessWrap(index: nat, n: nat)
    requires index < WORD && n < WORD
    ensures Harmless(index, n) <==> forall health: seq<bool> :: |health| == n ==> Fair(health, index)
    ensures Harmless(index, n) <==>
              forall health: seq<bool> :: |health| == n ==>
                (Scan(health, index, n).0.None? <==> HealthyCount(health) == 0)
  {
    if Harmless(index, n) {
      forall health: seq<bool> | |health| == n
        ensures Fair(health, index)
        ensures Scan(health, index, n).0.None? <==> HealthyCount(health) == 0
      {
        EachHealthyOnce(health, index);
        NilOnlyIfNoneHealthy(health, index);
      }
    } else {
      var health := WrapSkips(index, n);
      assert Picks(health, index, HealthyCount(health)) == [];
    }
  }

  /** The calls keep the cyclic order for every health of the pool exactly when no wrap can happen
      during the call or the pool size divides two to the 64. */
  lemma CyclicUnlessWrap(index: nat, n: nat)
    requires index < WORD && 0 < n < WORD
    ensures (index + n < WORD || WORD % n == 0) <==>
              forall health: seq<bool> :: |health| == n ==> InOrder(health, index)
  {
    if index + n < WORD || WORD % n == 0 {
      forall health: seq<bool> | |health| == n
        ensures InOrder(health, index)
      {
        ScanInOrder(health, index, n);
      }
    } else if index + 1 == WORD {
      var health := seq(n, _ => true);
      SlotAfter(index, n);
      SlotIsRemainder(WORD, n);
      assert !InOrder(health, index);
    } else {
      var health := WrapSkips(index, n);
      var b :| 0 <= b < n && health[b];
      if InOrder(health, index) {
        NextHealthyMisses(health, Slot(index, n), n, b);
      }
    }
  }
}

/**
 Concurrent callers of the balancer. A caller draws a ticket with one atomic action and reads
 the health of its backend with another; health may change in between.
 */
module RoundRobinConcurrent {
  import opened Options
  import opened RoundRobin

  datatype Caller =
    | Trying(drawn: seq<nat>)
    | Holding(drawn: seq<nat>)
    | Got(drawn: seq<nat>, slot: nat)
    | Nothing(drawn: seq<nat>)

  datatype State = State(index: nat, health: seq<bool>, callers: seq<Caller>)

  datatype Event = Arrive | Draw(i: nat) | Check(i: nat) | Probe(slot: nat, healthy: bool)

  /** The state after an event, or `None` when it cannot happen. A draw that would wrap the
      counter is outside this model. */
  function Next(s: State, e: Event): Option<State> {
    match e
    case Arrive => Some(s.(callers := s.callers + [Trying([])]))
    case Draw(i) =>
      if i < |s.callers| && s.callers[i].Trying? && |s.callers[i].drawn| < |s.health| && s.index + 1 < WORD
      then Some(s.(index := s.index + 1, callers := s.callers[i := Holding(s.callers[i].drawn + [s.index + 1])]))
      else None
    case Check(i) =>
      if i < |s.callers| && s.callers[i].Holding? && s.callers[i].drawn != [] && s.health != [] then
        var drawn := s.callers[i].drawn;
        var slot := Slot(drawn[|drawn| - 1], |s.health|);
        var after := if s.health[slot] then Got(drawn, slot)
                     else if |drawn| == |s.health| then Nothing(drawn)
                     else Trying(drawn);
        Some(s.(callers := s.callers[i := after]))
      else None
    case Probe(slot, healthy) =>
      if slot < |s.health| then Some(s.(health := s.health[slot := healthy])) else None
  }

  ghost predicate IsRun(states: seq<State>, events: seq<Event>) {
    && |states| == |events| + 1
    && states[0].callers == [] && states[0].index < WORD
    && forall k :: 0 <= k < |events| ==> Next(states[k], events[k]) == Some(states[k + 1])
  }

  // ---------------------------------------------------------------------------------------
  // Every ticket goes to one caller
  // ---------------------------------------------------------------------------------------

  function Occurrences(xs: seq<nat>, t: nat): nat {
    if xs == [] then 0 else Occurrences(xs[..|xs| - 1], t) + (if xs[|xs| - 1] == t then 1 else 0)
  }

  /** How often ticket `t` was drawn, over all callers. */
  function Draws(callers: seq<Caller>, t: nat): nat {
    if callers == [] then 0
    else Draws(callers[..|callers| - 1], t) + Occurrences(callers[|callers| - 1].drawn, t)
  }

  lemma {:induction false} DrawsPut(callers: seq<Caller>, i: nat, c: Caller, t: nat)
    requires i < |callers|
    ensures Draws(callers[i := c], t) == Draws(callers, t) - Occurrences(callers[i].drawn, t) + Occurrences(c.drawn, t)
  {
    var n := |callers| - 1;
    if i == n {
      assert callers[i := c][..n] == callers[..n];
    } else {
      assert callers[i := c][..n] == callers[..n][i := c];
      DrawsPut(callers[..n], i, c, t);
    }
  }

  lemma DrawnOnce(s: State, e: Event, s': State, start: nat, t: nat)
    requires Next(s, e) == Some(s') && start <= s.index
    requires Draws(s.callers, t) == (if start < t <= s.index then 1 else 0)
    ensures start <= s'.index && Draws(s'.callers, t) == (if start < t <= s'.index then 1 else 0)
  {
    match e
    case Arrive => assert (s.callers + [Trying([])])[..|s.callers|] == s.callers;
    case Draw(i) =>
      var drawn := s.callers[i].drawn;
      assert (drawn + [s.index + 1])[..|drawn|] == drawn;
      DrawsPut(s.callers, i, s'.callers[i], t);
    case Check(i) => DrawsPut(s.callers, i, s'.callers[i], t);
    case Probe(_, _) =>
  }

  /** Under every interleaving, whatever the probers do to the health flags, each value the
      counter has taken was drawn by exactly one call, and no other value was drawn. */
  lemma {:induction false} TicketsUnique(states: seq<State>, events: seq<Event>, k: nat, t: nat)
    requires IsRun(states, events) && k < |states|
    ensures states[0].index <= states[k].index
    ensures Draws(states[k].callers, t) == (if states[0].index < t <= states[k].index then 1 else 0)
  {
    if k > 0 {
      TicketsUnique(states, events, k - 1, t);
      DrawnOnce(states[k - 1], events[k - 1], states[k], states[0].index, t);
    }
  }

  // ---------------------------------------------------------------------------------------
  // Every answer rests on checks
  // ---------------------------------------------------------------------------------------

  /** Before event `j` caller `i` held the last of the `drawn` tickets, event `j` checked the
      backend of that ticket, and that backend was then healthy or not. */
  ghost predicate Checked(states: seq<State>, events: seq<Event>, j: nat, i: nat, drawn: seq<nat>, healthy: bool)
    requires |states| == |events| + 1
  {
    && j < |events| && events[j] == Check(i)
    && i < |states[j].callers| && states[j].callers[i] == Holding(drawn)
    && drawn != [] && states[j].health != []
    && states[j].health[Slot(drawn[|drawn| - 1], |states[j].health|)] == healthy
  }

  ghost predicate CheckedBefore(states: seq<State>, events: seq<Event>, k: nat, i: nat, drawn: seq<nat>, healthy: bool)
    requires |states| == |events| + 1
  {
    exists j: nat :: j < k && Checked(states, events, j, i, drawn, healthy)
  }

  /** The backend of ticket `d` of the caller was unhealthy when the caller checked it. */
  ghost predicate FailedBefore(states: seq<State>, events: seq<Event>, k: nat, i: nat, drawn: seq<nat>, d: nat)
    requires |states| == |events| + 1 && d < |drawn|
  {
    CheckedBefore(states, events, k, i, drawn[..d + 1], false)
  }

  /** How many of its tickets the caller has checked in vain. */
  function Failures(c: Caller): (n: nat)
    ensures n <= |c.drawn|
  {
    if c.Trying? || c.Nothing? || c.drawn == [] then |c.drawn| else |c.drawn| - 1
  }

  /** The answer of caller `i`, if it has one, rests on checks before state `k`. */
  ghost predicate Grounded(states: seq<State>, events: seq<Event>, k: nat, i: nat, n: nat)
    requires |states| == |events| + 1 && k < |states| && i < |states[k].callers|
  {
    var c := states[k].callers[i];
    && (forall d :: 0 <= d < Failures(c) ==> FailedBefore(states, events, k, i, c.drawn, d))
    && (c.Got? ==> CheckedBefore(states, events, k, i, c.drawn, true))
    && (c.Got? ==> c.drawn != [] && n > 0 && c.slot == Slot(c.drawn[|c.drawn| - 1], n))
    && (c.Nothing? ==> |c.drawn| == n)
  }

  lemma {:induction false} PoolKept(states: seq<State>, events: seq<Event>, k: nat)
    requires IsRun(states, events) && k < |states|
    ensures |states[k].health| == |states[0].health|
  {
    if k > 0 {
      PoolKept(states, events, k - 1);
    }
  }

  lemma FailureKept(states: seq<State>, events: seq<Event>, k: nat, i: nat, drawn: seq<nat>, drawn': seq<nat>, d: nat)
    requires |states| == |events| + 1 && 0 < k < |states| && d < |drawn| <= |drawn'| && drawn'[..|drawn|] == drawn
    requires FailedBefore(states, events, k - 1, i, drawn, d)
    ensures FailedBefore(states, events, k, i, drawn', d)
  {
    assert drawn'[..d + 1] == drawn'[..|drawn|][..d + 1];
  }

  /** The caller's own check decides; any other event leaves its checks alone. */
  lemma GroundedNext(states: seq<State>, events: seq<Event>, k: nat, i: nat, n: nat)
    requires IsRun(states, events) && 0 < k < |states| && i < |states[k - 1].callers|
    requires |states[k - 1].health| == n && Grounded(states, events, k - 1, i, n)
    ensures i < |states[k].callers| && Grounded(states, events, k, i, n)
  {
    var s, e := states[k - 1], events[k - 1];
    assert Next(s, e) == Some(states[k - 1 + 1]);
    var c, c' := s.callers[i], states[k].callers[i];
    if e == Check(i) {
      assert Checked(states, events, k - 1, i, c.drawn, c'.Got?);
      assert c.drawn[..|c.drawn|] == c.drawn;
    }
    assert c'.drawn[..|c.drawn|] == c.drawn;
    forall d | 0 <= d < Failures(c')
      ensures FailedBefore(states, events, k, i, c'.drawn, d)
    {
      if d < Failures(c) {
        FailureKept(states, events, k, i, c.drawn, c'.drawn, d);
      }
    }
  }

  lemma {:induction false} AnswersGrounded(states: seq<State>, events: seq<Event>, k: nat, i: nat)
    requires IsRun(states, events) && k < |states| && i < |states[k].callers|
    ensures Grounded(states, events, k, i, |states[0].health|)
  {
    if k > 0 {
      PoolKept(states, events, k - 1);
      assert Next(states[k - 1], events[k - 1]) == Some(states[k - 1 + 1]);
      if i < |states[k - 1].callers| {
        AnswersGrounded(states, events, k - 1, i);
        GroundedNext(states, events, k, i, |states[0].health|);
      }
    }
  }

  /** Under every interleaving a backend that was handed out had been found healthy by an earlier
      check of its caller, for the ticket the caller drew last. */
  lemma HandedOutHealthy(states: seq<State>, events: seq<Event>, k: nat, i: nat) returns (j: nat)
    requires IsRun(states, events) && k < |states| && i < |states[k].callers| && states[k].callers[i].Got?
    ensures j < k && events[j] == Check(i)
    ensures states[k].callers[i].slot < |states[j].health| && states[j].health[states[k].callers[i].slot]
  {
    AnswersGrounded(states, events, k, i);
    j :| j < k && Checked(states, events, j, i, states[k].callers[i].drawn, true);
    PoolKept(states, events, j);
  }

  /** And a caller that got nothing had drawn as many tickets as there are backends and found the
      backend of each unhealthy, every time with a check of its own. */
  lemma NothingAfterAllFailed(states: seq<State>, events: seq<Event>, k: nat, i: nat)
    requires IsRun(states, events) && k < |states| && i < |states[k].callers| && states[k].callers[i].Nothing?
    ensures |states[k].callers[i].drawn| == |states[k].health|
    ensures forall d :: 0 <= d < |states[k].callers[i].drawn| ==>
              FailedBefore(states, events, k, i, states[k].callers[i].drawn, d)
  {
    AnswersGrounded(states, events, k, i);
    PoolKept(states, events, k);
  }

  // ---------------------------------------------------------------------------------------
  // A call that meets nobody
  // ---------------------------------------------------------------------------------------

  /** Caller `i` alone draws and checks, at most `tries` times, until it has its answer. */
  function Alone(s: State, i: nat, tries: nat): Option<State>
    decreases tries
  {
    if tries == 0 || i >= |s.callers| || !s.callers[i].Trying? then Some(s)
    else
      var drew := Next(s, Draw(i));
      if drew.None? then None
      else
        var checked := Next(drew.value, Check(i));
        if checked.None? then None else Alone(checked.value, i, tries - 1)
  }

  /** The answer a scan means for a caller. */
  predicate Answers(c: Caller, pick: Option<nat>) {
    if pick.Some? then c.Got? && c.slot == pick.value else c.Nothing?
  }

  lemma OneTurn(s: State, i: nat, drawn: seq<nat>) returns (s': State)
    requires i < |s.callers| && s.callers[i] == Trying(drawn) && |drawn| < |s.health| && s.index + 1 < WORD
    ensures Next(s, Draw(i)).Some? && Next(Next(s, Draw(i)).value, Check(i)) == Some(s')
    ensures var slot := Slot(s.index + 1, |s.health|);
      var more := drawn + [s.index + 1];
      var c := if s.health[slot] then Got(more, slot) else if |more| == |s.health| then Nothing(more) else Trying(more);
      s' == s.(index := s.index + 1, callers := s.callers[i := c])
  {
    var drew := Next(s, Draw(i)).value;
    s' := Next(drew, Check(i)).value;
    assert drew.callers[i := s'.callers[i]] == s.callers[i := s'.callers[i]];
  }

  /** Without interference the concurrent call is the sequential one: it gets the backend, and leaves
      the counter, that the scan prescribes. */
  lemma {:induction false} AloneScans(s: State, i: nat, drawn: seq<nat>, tries: nat) returns (s': State)
    requires i < |s.callers| && s.callers[i] == Trying(drawn)
    requires tries > 0 && |drawn| + tries == |s.health| && s.index + tries < WORD
    ensures Alone(s, i, tries) == Some(s')
    ensures var (pick, counter) := Scan(s.health, s.index, tries);
      s'.index == counter && s'.health == s.health && i < |s'.callers| && Answers(s'.callers[i], pick)
    decreases tries
  {
    var next := OneTurn(s, i, drawn);
    if next.callers[i].Trying? {
      s' := AloneScans(next, i, drawn + [s.index + 1], tries - 1);
    } else {
      s' := next;
    }
  }

  // ---------------------------------------------------------------------------------------
  // Even spread
  // ---------------------------------------------------------------------------------------

  /** The tickets after `start` up to `end` that stand for slot `b`. */
  function OnSlot(start: nat, end: nat, n: nat, b: nat): nat
    requires n > 0
  {
    if end <= start then 0 else OnSlot(start, end - 1, n, b) + (if Slot(end, n) == b then 1 else 0)
  }

  /** Any `n` successive tickets meet slot `b` once. */
  lemma {:induction false} OnSlotRound(start: nat, end: nat, n: nat, b: nat)
    requires n > 0 && b < n && start + n <= end
    ensures OnSlot(start, end, n, b) == OnSlot(start, end - n, n, b) + 1
  {
    if end == start + n {
      OnSlotWindow(start, n, b);
    } else {
      OnSlotRound(start, end - 1, n, b);
    }
  }

  lemma {:induction false} OnSlotWindow(start: nat, n: nat, b: nat)
    requires b < n
    ensures OnSlot(start, start + n, n, b) == 1
  {
    var t := RoundRobin.WindowMeets(start + 1, n, b);
    OnSlotMissed(start, t - 1, n, b, t);
    OnSlotBeyond(start, t, start + n, n, b);
  }

  lemma {:induction false} OnSlotMissed(start: nat, end: nat, n: nat, b: nat, t: nat)
    requires b < n && start <= end < t <= start + n && Slot(t, n) == b
    ensures OnSlot(start, end, n, b) == 0
    decreases end
  {
    if start < end {
      OnSlotMissed(start, end - 1, n, b, t);
      if Slot(end, n) == b {
        SameSlot(end, t, n);
      }
    }
  }

  lemma {:induction false} OnSlotBeyond(start: nat, t: nat, end: nat, n: nat, b: nat)
    requires b < n && start < t <= end <= start + n && Slot(t, n) == b
    ensures OnSlot(start, end, n, b) == OnSlot(start, t, n, b)
    decreases end
  {
    if t < end {
      OnSlotBeyond(start, t, end - 1, n, b);
      if Slot(end, n) == b {
        SameSlot(t, end, n);
      }
    }
  }

  lemma {:induction false} OnSlotEven(start: nat, end: nat, n: nat, b: nat, c: nat)
    requires n > 0 && b < n && c < n && start <= end
    ensures OnSlot(start, end, n, b) <= OnSlot(start, end, n, c) + 1
    decreases end
  {
    if end < start + n {
      OnSlotFew(start, end, n, b);
    } else {
      OnSlotRound(start, end, n, b);
      OnSlotRound(start, end, n, c);
      OnSlotEven(start, end - n, n, b, c);
    }
  }

  lemma {:induction false} OnSlotFew(start: nat, end: nat, n: nat, b: nat)
    requires n > 0 && b < n && start <= end <= start + n
    ensures OnSlot(start, end, n, b) <= 1
    decreases end
  {
    if start < end {
      if Slot(end, n) == b {
        OnSlotMissed(start, end - 1, n, b, end);
      } else {
        OnSlotFew(start, end - 1, n, b);
      }
    }
  }

  /** Callers that hold or got a ticket of slot `b`. */
  function Assigned(callers: seq<Caller>, n: nat, b: nat): nat
    requires n > 0
  {
    if callers == [] then 0
    else Assigned(callers[..|callers| - 1], n, b) + AssignedOne(callers[|callers| - 1], n, b)
  }

  function AssignedOne(c: Caller, n: nat, b: nat): nat
    requires n > 0
  {
    if (c.Got? && c.slot == b) || (c.Holding? && c.drawn != [] && Slot(c.drawn[|c.drawn| - 1], n) == b) then 1 else 0
  }

  lemma {:induction false} AssignedPut(callers: seq<Caller>, i: nat, c: Caller, n: nat, b: nat)
    requires n > 0 && i < |callers|
    ensures Assigned(callers[i := c], n, b)
         == Assigned(callers, n, b) - AssignedOne(callers[i], n, b) + AssignedOne(c, n, b)
  {
    var m := |callers| - 1;
    if i == m {
      assert callers[i := c][..m] == callers[..m];
    } else {
      assert callers[i := c][..m] == callers[..m][i := c];
      AssignedPut(callers[..m], i, c, n, b);
    }
  }

  predicate AllHealthy(health: seq<bool>) {
    forall b :: 0 <= b < |health| ==> health[b]
  }

  lemma AssignedStep(s: State, e: Event, s': State, start: nat, b: nat)
    requires Next(s, e) == Some(s') && s.health != [] && AllHealthy(s.health) && start <= s.index
    requires Assigned(s.callers, |s.health|, b) == OnSlot(start, s.index, |s.health|, b)
    ensures |s'.health| == |s.health| && start <= s'.index
    ensures Assigned(s'.callers, |s.health|, b) == OnSlot(start, s'.index, |s.health|, b)
  {
    match e
    case Arrive => assert (s.callers + [Trying([])])[..|s.callers|] == s.callers;
    case Draw(i) => AssignedPut(s.callers, i, s'.callers[i], |s.health|, b);
    case Check(i) => AssignedPut(s.callers, i, s'.callers[i], |s.health|, b);
    case Probe(_, _) =>
  }

  lemma {:induction false} AssignedRun(states: seq<State>, events: seq<Event>, k: nat, b: nat)
    requires IsRun(states, events) && k < |states|
    requires states[0].health != [] && forall j :: 0 <= j < |states| ==> AllHealthy(states[j].health)
    ensures |states[k].health| == |states[0].health| && states[0].index <= states[k].index
    ensures Assigned(states[k].callers, |states[0].health|, b)
         == OnSlot(states[0].index, states[k].index, |states[0].health|, b)
  {
    if k > 0 {
      AssignedRun(states, events, k - 1, b);
      AssignedStep(states[k - 1], events[k - 1], states[k], states[0].index, b);
    }
  }

  /** While all backends stay healthy, the calls that have drawn a ticket are spread so that the
      counts of any two backends differ by at most one, at every moment of every run. */
  lemma EvenSpread(states: seq<State>, events: seq<Event>, k: nat, b: nat, c: nat)
    requires IsRun(states, events) && k < |states|
    requires states[0].health != [] && forall j :: 0 <= j < |states| ==> AllHealthy(states[j].health)
    requires b < |states[0].health| && c < |states[0].health|
    ensures Assigned(states[k].callers, |states[0].health|, b) <= Assigned(states[k].callers, |states[0].health|, c) + 1
  {
    AssignedRun(states, events, k, b);
    AssignedRun(states, events, k, c);
    OnSlotEven(states[0].index, states[k].index, |states[0].health|, b, c);
  }
}
