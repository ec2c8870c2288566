/**
 The rate limiter's Lua script: a token bucket kept in one Redis hash, written only on
 admission and expiring some time after it. Numbers are reals, the clock counts whole seconds.
 */
module TokenBucket {

  /** The hash of one key; `admitted` is the time of the write that set its expiry. */
  datatype Stored = Missing | Hash(tokens: real, lastRefill: int, admitted: int)

  function Min(a: real, b: real): real {
    if a <= b then a else b
  }

  function Ceil(x: real): int {
    -((-x).Floor)
  }

  /** `EXPIRE key ceil(capacity / rate) * 2`. */
  function Lifetime(capacity: real, rate: real): int
    requires rate > 0.0
  {
    Ceil(capacity / rate) * 2
  }

  function Elapsed(st: Stored, now: int): int
    requires st.Hash?
  {
    if now - st.lastRefill > 0 then now - st.lastRefill else 0
  }

  /** What `n` seconds are worth in tokens. */
  function Accrued(rate: real, n: int): real {
    n as real * rate
  }

  function RefillAmount(rate: real, st: Stored, now: int): int
    requires st.Hash?
  {
    Accrued(rate, Elapsed(st, now)).Floor
  }

  /** The tokens the script finds at `now`. */
  function Tokens(capacity: real, rate: real, st: Stored, now: int): real {
    if st.Missing? then capacity else Min(capacity, st.tokens + RefillAmount(rate, st, now) as real)
  }

  function LastRefill(rate: real, st: Stored, now: int): int {
    if st.Missing? || RefillAmount(rate, st, now) > 0 then now else st.lastRefill
  }

  /** One evaluation of the script on what it finds: its answer and what it leaves. */
  function Script(capacity: real, rate: real, st: Stored, now: int): (bool, Stored) {
    var tokens := Tokens(capacity, rate, st, now);
    if tokens >= 1.0 then (true, Hash(tokens - 1.0, LastRefill(rate, st, now), now)) else (false, st)
  }

  /** What Redis still shows of the hash at `now`. */
  function Visible(capacity: real, rate: real, st: Stored, now: int): Stored
    requires rate > 0.0
  {
    if st.Hash? && now >= st.admitted + Lifetime(capacity, rate) then Missing else st
  }

  /** One key in Redis, changed in place by the script. */
  class Key {
    var present: bool
    var tokens: real
    var lastRefill: int
    var admitted: int

    ghost function Contents(): Stored
      reads this
    {
      if present then Hash(tokens, lastRefill, admitted) else Missing
    }

    constructor ()
      ensures Contents() == Missing
    {
      present, tokens, lastRefill, admitted := false, 0.0, 0, 0;
    }

    method Eval(capacity: real, rate: real, now: int) returns (allowed: bool)
      requires rate > 0.0
      modifies this
      ensures (allowed, Contents()) == Script(capacity, rate, Visible(capacity, rate, old(Contents()), now), now)
    {
      if present && now >= admitted + Lifetime(capacity, rate) {
        present := false;
      }
      ghost var st := Contents();
      var found, last := capacity, now;
      if present {
        var elapsed := if now - lastRefill > 0 then now - lastRefill else 0;
        var amount := Accrued(rate, elapsed).Floor;
        found := Min(capacity, tokens + amount as real);
        last := if amount > 0 then now else lastRefill;
      }
      assert found == Tokens(capacity, rate, st, now) && last == LastRefill(rate, st, now);
      if found >= 1.0 {
        present, tokens, lastRefill, admitted := true, found - 1.0, last, now;
        allowed := true;
      } else {
        allowed := false;
      }
    }
  }

  // ---------------------------------------------------------------------------------------
  // Runs of one key
  // ---------------------------------------------------------------------------------------

  /** A key that never expires, from an empty start: the answers and the final contents. */
  function Run(capacity: real, rate: real, times: seq<int>): (seq<bool>, Stored) {
    if times == [] then ([], Missing)
    else
      var n := |times| - 1;
      var (answers, st) := Run(capacity, rate, times[..n]);
      var (a, st') := Script(capacity, rate, st, times[n]);
      (answers + [a], st')
  }

  /** The key as the script keeps it, with its expiry. */
  function RunExpiring(capacity: real, rate: real, times: seq<int>): (seq<bool>, Stored)
    requires rate > 0.0
  {
    if times == [] then ([], Missing)
    else
      var n := |times| - 1;
      var (answers, st) := RunExpiring(capacity, rate, times[..n]);
      var (a, st') := Script(capacity, rate, Visible(capacity, rate, st, times[n]), times[n]);
      (answers + [a], st')
  }

  /** A key that the server deletes before call `k` whenever `drops[k]` says so. */
  function RunDropping(capacity: real, rate: real, times: seq<int>, drops: seq<bool>): (seq<bool>, Stored)
    requires |times| == |drops|
  {
    if times == [] then ([], Missing)
    else
      var n := |times| - 1;
      var (answers, st) := RunDropping(capacity, rate, times[..n], drops[..n]);
      var (a, st') := Script(capacity, rate, if drops[n] then Missing else st, times[n]);
      (answers + [a], st')
  }

  predicate NonDecreasing(times: seq<int>) {
    forall i, j :: 0 <= i <= j < |times| ==> times[i] <= times[j]
  }

  /** What every stored hash satisfies. */
  predicate Sound(capacity: real, st: Stored, now: int) {
    st.Hash? ==> 0.0 <= st.tokens <= capacity - 1.0 && st.lastRefill <= st.admitted <= now
  }

  lemma ScriptSound(capacity: real, rate: real, st: Stored, now: int)
    requires rate > 0.0 && Sound(capacity, st, now)
    ensures Sound(capacity, Script(capacity, rate, st, now).1, now)
  {
    if st.Hash? {
      ProductNonNegative(Elapsed(st, now), rate);
    }
  }

  lemma ProductNonNegative(n: int, rate: real)
    requires n >= 0 && rate > 0.0
    ensures Accrued(rate, n) >= 0.0
  {}

  lemma {:induction false} RunSound(capacity: real, rate: real, times: seq<int>, now: int)
    requires rate > 0.0 && NonDecreasing(times) && (times != [] ==> times[|times| - 1] <= now)
    ensures Sound(capacity, Run(capacity, rate, times).1, now)
    decreases |times|
  {
    if times != [] {
      var n := |times| - 1;
      RunSound(capacity, rate, times[..n], times[n]);
      ScriptSound(capacity, rate, Run(capacity, rate, times[..n]).1, times[n]);
    }
  }

  // ---------------------------------------------------------------------------------------
  // Expiry is unobservable
  // ---------------------------------------------------------------------------------------

  /** The hash is old enough to be full again: deleting it is safe. */
  predicate Stale(capacity: real, rate: real, st: Stored, now: int) {
    st.Hash? ==> Accrued(rate, now - st.admitted) >= capacity + 1.0
  }

  lemma ProductMonotone(m: int, n: int, rate: real)
    requires m <= n && rate > 0.0
    ensures Accrued(rate, m) <= Accrued(rate, n)
  {
    ProductNonNegative(n - m, rate);
    assert n as real * rate == m as real * rate + (n - m) as real * rate;
  }

  /** Deleting a stale hash changes neither the answer nor what the script leaves. */
  lemma DropUnobservable(capacity: real, rate: real, st: Stored, now: int)
    requires rate > 0.0 && Sound(capacity, st, now) && Stale(capacity, rate, st, now)
    ensures Script(capacity, rate, Missing, now) == Script(capacity, rate, st, now)
  {
    if st.Hash? {
      ProductMonotone(now - st.admitted, Elapsed(st, now), rate);
      assert RefillAmount(rate, st, now) as real > capacity;
    }
  }

  /** An expired hash is stale. */
  lemma ExpiredIsStale(capacity: real, rate: real, st: Stored, now: int)
    requires rate > 0.0 && Sound(capacity, st, now) && Visible(capacity, rate, st, now).Missing?
    ensures Stale(capacity, rate, st, now)
  {
    if st.Hash? {
      var full := Ceil(capacity / rate);
      assert full as real >= capacity / rate;
      assert full as real * rate >= (capacity / rate) * rate == capacity;
      ProductMonotone(full + full, now - st.admitted, rate);
      assert (full + full) as real * rate == full as real * rate + full as real * rate;
    }
  }

  /** The hash is gone twice as long after its last admission as it takes, in whole seconds, to
      fill the bucket. */
  lemma ExpiresAfter(capacity: real, rate: real, st: Stored, now: int) returns (n: int)
    requires rate > 0.0
    ensures Accrued(rate, n - 1) < capacity <= Accrued(rate, n)
    ensures Visible(capacity, rate, st, now) == if st.Hash? && now - st.admitted >= 2 * n then Missing else st
  {
    n := Ceil(capacity / rate);
    assert (capacity / rate) * rate == capacity;
    assert (n - 1) as real < capacity / rate <= n as real;
    assert (n - 1) as real * rate < (capacity / rate) * rate <= n as real * rate;
  }

  /** For a clock that does not go back, the expiring key gives the same answers and holds the
      same contents as one that never expires, for every capacity and every positive rate. */
  lemma {:induction false} ExpiryUnobservable(capacity: real, rate: real, times: seq<int>)
    requires rate > 0.0 && NonDecreasing(times)
    ensures RunExpiring(capacity, rate, times) == Run(capacity, rate, times)
  {
    if times != [] {
      var n := |times| - 1;
      ExpiryUnobservable(capacity, rate, times[..n]);
      var st := Run(capacity, rate, times[..n]).1;
      RunSound(capacity, rate, times[..n], times[n]);
      if Visible(capacity, rate, st, times[n]).Missing? {
        ExpiredIsStale(capacity, rate, st, times[n]);
        DropUnobservable(capacity, rate, st, times[n]);
      }
    }
  }

  /** Every deletion meets a stale hash. */
  ghost predicate DropsStale(capacity: real, rate: real, times: seq<int>, drops: seq<bool>)
    requires |times| == |drops|
  {
    forall k :: 0 <= k < |times| && drops[k] ==>
      Stale(capacity, rate, RunDropping(capacity, rate, times[..k], drops[..k]).1, times[k])
  }

  /** More generally no deletion of stale hashes is observable, whenever the server makes it. */
  lemma {:induction false} DropsUnobservable(capacity: real, rate: real, times: seq<int>, drops: seq<bool>)
    requires rate > 0.0 && NonDecreasing(times) && |times| == |drops|
    requires DropsStale(capacity, rate, times, drops)
    ensures RunDropping(capacity, rate, times, drops) == Run(capacity, rate, times)
  {
    if times != [] {
      var n := |times| - 1;
      assert forall k :: 0 <= k < n ==> times[..n][..k] == times[..k] && drops[..n][..k] == drops[..k];
      DropsUnobservable(capacity, rate, times[..n], drops[..n]);
      RunSound(capacity, rate, times[..n], times[n]);
      if drops[n] {
        DropUnobservable(capacity, rate, Run(capacity, rate, times[..n]).1, times[n]);
      }
    }
  }

  // ---------------------------------------------------------------------------------------
  // The rate bound
  // ---------------------------------------------------------------------------------------

  /** What `n` seconds add at `rate` tokens per second. */
  function Gain(rate: real, n: int): real
    decreases if n > 0 then n else 0
  {
    if n <= 0 then 0.0 else Gain(rate, n - 1) + rate
  }

  lemma {:induction false} GainIsProduct(rate: real, n: int)
    requires n >= 0
    ensures Gain(rate, n) == Accrued(rate, n)
    decreases n
  {
    if n > 0 {
      GainIsProduct(rate, n - 1);
      assert (n - 1) as real * rate == n as real * rate - rate;
    }
  }

  lemma {:induction false} GainAdds(rate: real, m: int, n: int)
    requires m >= 0 && n >= 0
    ensures Gain(rate, m + n) == Gain(rate, m) + Gain(rate, n)
    decreases n
  {
    if n > 0 {
      GainAdds(rate, m, n - 1);
    }
  }

  lemma {:induction false} GainNonNegative(rate: real, n: int)
    requires rate > 0.0
    ensures Gain(rate, n) >= 0.0
    decreases if n > 0 then n else 0
  {
    if n > 0 {
      GainNonNegative(rate, n - 1);
    }
  }

  /** The most the bucket could hold at `now` if no fraction of a token were ever lost. */
  function Level(capacity: real, rate: real, st: Stored, now: int): real {
    if st.Missing? then capacity
    else Min(capacity, st.tokens + Gain(rate, Elapsed(st, now)))
  }

  function Admitted(answers: seq<bool>): nat {
    if answers == [] then 0
    else Admitted(answers[..|answers| - 1]) + (if answers[|answers| - 1] then 1 else 0)
  }

  /** An admission costs a whole token of level, a rejection none. */
  lemma ScriptCosts(capacity: real, rate: real, st: Stored, now: int)
    requires rate > 0.0 && Sound(capacity, st, now)
    ensures var (a, st') := Script(capacity, rate, st, now);
      Level(capacity, rate, st', now) <= Level(capacity, rate, st, now) - (if a then 1.0 else 0.0)
  {
    if st.Hash? {
      GainIsProduct(rate, Elapsed(st, now));
    }
  }

  /** Nor is more lost: a call that adds no whole token keeps the fraction that has accrued, and
      one that does loses less than one token. */
  lemma ScriptLoses(capacity: real, rate: real, st: Stored, now: int)
    requires rate > 0.0 && Sound(capacity, st, now)
    ensures var (a, st') := Script(capacity, rate, st, now);
      var left := Level(capacity, rate, st, now) - (if a then 1.0 else 0.0);
      && left - 1.0 < Level(capacity, rate, st', now) <= left
      && (st.Hash? && RefillAmount(rate, st, now) == 0 ==> Level(capacity, rate, st', now) == left)
  {
    ScriptCosts(capacity, rate, st, now);
    if st.Hash? {
      GainIsProduct(rate, Elapsed(st, now));
    }
  }

  /** The level grows by at most `rate` per second. */
  lemma LevelGrows(capacity: real, rate: real, st: Stored, now: int, later: int)
    requires rate > 0.0 && Sound(capacity, st, now) && now <= later
    ensures Level(capacity, rate, st, later) <= Level(capacity, rate, st, now) + Gain(rate, later - now)
  {
    GainNonNegative(rate, later - now);
    if st.Hash? {
      GainAdds(rate, now - st.lastRefill, later - now);
    }
  }

  lemma LevelBounds(capacity: real, rate: real, st: Stored, now: int)
    requires rate > 0.0 && capacity >= 0.0 && Sound(capacity, st, now)
    ensures 0.0 <= Level(capacity, rate, st, now) <= capacity
  {
    if st.Hash? {
      GainNonNegative(rate, Elapsed(st, now));
    }
  }

  lemma {:induction false} AdmittedTail(answers: seq<bool>, tail: seq<bool>)
    ensures Admitted(answers + tail) == Admitted(answers) + Admitted(tail)
  {
    if tail == [] {
      assert answers + tail == answers;
    } else {
      var n := |tail| - 1;
      assert (answers + tail)[..|answers| + n] == answers + tail[..n];
      AdmittedTail(answers, tail[..n]);
    }
  }

  lemma {:induction false} RunLength(capacity: real, rate: real, times: seq<int>)
    ensures |Run(capacity, rate, times).0| == |times|
  {
    if times != [] {
      RunLength(capacity, rate, times[..|times| - 1]);
    }
  }

  /** The requests admitted so far and the level that is left. */
  function Paid(capacity: real, rate: real, times: seq<int>, now: int): real {
    var (answers, st) := Run(capacity, rate, times);
    Admitted(answers) as real + Level(capacity, rate, st, now)
  }

  lemma PaidCall(capacity: real, rate: real, times: seq<int>, t: int)
    requires rate > 0.0 && NonDecreasing(times + [t])
    ensures Paid(capacity, rate, times + [t], t) <= Paid(capacity, rate, times, t)
  {
    var n := |times|;
    var (answers, st) := Run(capacity, rate, times);
    assert (times + [t])[..n] == times && (times + [t])[n] == t;
    assert forall i :: 0 <= i < n ==> times[i] == (times + [t])[i];
    RunSound(capacity, rate, times, t);
    ScriptCosts(capacity, rate, st, t);
    var a := Script(capacity, rate, st, t).0;
    assert (answers + [a])[..|answers|] == answers;
  }

  lemma PaidWait(capacity: real, rate: real, times: seq<int>, now: int, later: int)
    requires rate > 0.0 && NonDecreasing(times) && (times != [] ==> times[|times| - 1] <= now) && now <= later
    ensures Paid(capacity, rate, times, later) <= Paid(capacity, rate, times, now) + Gain(rate, later - now)
  {
    RunSound(capacity, rate, times, now);
    LevelGrows(capacity, rate, Run(capacity, rate, times).1, now, later);
  }

  /** Along a block of calls, what is paid grows only by the refill since its start. */
  lemma {:induction false} BlockPaid(capacity: real, rate: real, before: seq<int>, block: seq<int>)
    requires rate > 0.0 && block != [] && NonDecreasing(before + block)
    ensures var a, b := block[0], block[|block| - 1];
      Paid(capacity, rate, before + block, b) <= Paid(capacity, rate, before, a) + Gain(rate, b - a)
    decreases |block|
  {
    var n := |block| - 1;
    var init := before + block[..n];
    LastOfBlock(before, block);
    PaidCall(capacity, rate, init, block[n]);
    if n == 0 {
      assert init == before;
    } else {
      BlockPaid(capacity, rate, before, block[..n]);
      PaidWait(capacity, rate, init, block[n - 1], block[n]);
      GainAdds(rate, block[n - 1] - block[0], block[n] - block[n - 1]);
    }
  }

  /** The calls before the last one of a block. */
  lemma LastOfBlock(before: seq<int>, block: seq<int>)
    requires block != [] && NonDecreasing(before + block)
    ensures var n := |block| - 1;
      var init := before + block[..n];
      && before + block == init + [block[n]]
      && NonDecreasing(init)
      && (n > 0 ==> init[|init| - 1] == block[n - 1] && block[0] <= block[n - 1] <= block[n])
  {
    var n, m := |block| - 1, |before|;
    var all, init := before + block, before + block[..n];
    assert forall i :: 0 <= i < |init| ==> init[i] == all[i];
    assert all[m + n] == block[n] && all[m] == block[0];
    if n > 0 {
      assert all[m + n - 1] == block[n - 1];
    }
  }

  lemma {:induction false} RunPrefix(capacity: real, rate: real, before: seq<int>, block: seq<int>)
    ensures |Run(capacity, rate, before + block).0| == |before| + |block|
    ensures Run(capacity, rate, before + block).0[..|before|] == Run(capacity, rate, before).0
    decreases |block|
  {
    RunLength(capacity, rate, before + block);
    RunLength(capacity, rate, before);
    if block == [] {
      assert before + block == before;
    } else {
      var n := |block| - 1;
      assert (before + block)[..|before| + n] == before + block[..n];
      RunPrefix(capacity, rate, before, block[..n]);
    }
  }

  lemma BlockLevels(capacity: real, rate: real, before: seq<int>, block: seq<int>)
    requires capacity >= 0.0 && rate > 0.0 && block != [] && NonDecreasing(before + block)
    ensures Level(capacity, rate, Run(capacity, rate, before).1, block[0]) <= capacity
    ensures Level(capacity, rate, Run(capacity, rate, before + block).1, block[|block| - 1]) >= 0.0
  {
    var all := before + block;
    assert forall i :: 0 <= i < |before| ==> before[i] == all[i];
    assert all[|before|] == block[0] && all[|all| - 1] == block[|block| - 1];
    RunSound(capacity, rate, before, block[0]);
    LevelBounds(capacity, rate, Run(capacity, rate, before).1, block[0]);
    RunSound(capacity, rate, all, block[|block| - 1]);
    LevelBounds(capacity, rate, Run(capacity, rate, all).1, block[|block| - 1]);
  }

  lemma BlockBound(capacity: real, rate: real, before: seq<int>, block: seq<int>)
    requires capacity >= 0.0 && rate > 0.0 && block != [] && NonDecreasing(before + block)
    ensures Admitted(Run(capacity, rate, before + block).0) as real
         <= Admitted(Run(capacity, rate, before).0) as real + capacity + Accrued(rate, block[|block| - 1] - block[0])
  {
    BlockPaid(capacity, rate, before, block);
    BlockLevels(capacity, rate, before, block);
    var all := before + block;
    assert all[|before|] == block[0] && all[|all| - 1] == block[|block| - 1];
    GainIsProduct(rate, block[|block| - 1] - block[0]);
  }

  lemma RunBound(capacity: real, rate: real, before: seq<int>, block: seq<int>)
    requires capacity >= 0.0 && rate > 0.0 && block != [] && NonDecreasing(before + block)
    ensures var answers := Run(capacity, rate, before + block).0;
      && |answers| == |before| + |block|
      && Admitted(answers[|before|..]) as real <= capacity + Accrued(rate, block[|block| - 1] - block[0])
  {
    RunPrefix(capacity, rate, before, block);
    var answers := Run(capacity, rate, before + block).0;
    AdmittedTail(answers[..|before|], answers[|before|..]);
    assert answers == answers[..|before|] + answers[|before|..];
    BlockBound(capacity, rate, before, block);
  }

  /** Any contiguous block of calls on one key, from time a to time b of a clock that does not
      go back, admits at most `capacity + rate * (b - a)` requests. */
  lemma RateBound(capacity: real, rate: real, before: seq<int>, block: seq<int>)
    requires capacity >= 0.0 && rate > 0.0 && block != [] && NonDecreasing(before + block)
    ensures var answers := RunExpiring(capacity, rate, before + block).0;
      && |answers| == |before| + |block|
      && Admitted(answers[|before|..]) as real <= capacity + Accrued(rate, block[|block| - 1] - block[0])
  {
    ExpiryUnobservable(capacity, rate, before + block);
    RunBound(capacity, rate, before, block);
  }

  // ---------------------------------------------------------------------------------------
  // A clock that goes back
  // ---------------------------------------------------------------------------------------

  /** A call with a clock that is not ahead of the last refill adds nothing and takes nothing but
      the token it admits for. */
  lemma BackwardCall(capacity: real, rate: real, st: Stored, now: int)
    requires st.Hash? && now <= st.lastRefill && 0.0 <= st.tokens <= capacity && rate > 0.0
    ensures Script(capacity, rate, st, now)
         == if st.tokens >= 1.0 then (true, Hash(st.tokens - 1.0, st.lastRefill, now)) else (false, st)
  {
    assert Accrued(rate, 0) == 0.0;
  }

  /** The same calls by a clock that stands still where the given one goes back. */
  function Still(times: seq<int>): (still: seq<int>)
    ensures |still| == |times|
  {
    if times == [] then []
    else
      var n := |times| - 1;
      var still := Still(times[..n]);
      still + [if n > 0 && still[n - 1] > times[n] then still[n - 1] else times[n]]
  }

  lemma {:induction false} StillRises(times: seq<int>)
    ensures NonDecreasing(Still(times))
    ensures forall k :: 0 <= k < |times| ==> times[k] <= Still(times)[k]
  {
    if times != [] {
      var n := |times| - 1;
      StillRises(times[..n]);
      var still, rest := Still(times), Still(times[..n]);
      assert forall k :: 0 <= k < n ==> still[k] == rest[k] && times[..n][k] == times[k];
      assert n > 0 ==> rest[n - 1] <= still[n];
    }
  }

  /** The hashes differ at most in the time that counts for their expiry. */
  predicate SameBucket(st: Stored, st': Stored) {
    if st.Hash? && st'.Hash? then st.tokens == st'.tokens && st.lastRefill == st'.lastRefill else st == st'
  }

  /** What holds after a call at the latest time so far: whatever had accrued was added. */
  predicate NothingDue(capacity: real, rate: real, st: Stored, latest: int) {
    if st.Missing? then capacity < 1.0
    else 0.0 <= st.tokens <= capacity - 1.0 && st.lastRefill <= latest && RefillAmount(rate, st, latest) == 0
  }

  lemma ForwardSettles(capacity: real, rate: real, st: Stored, st': Stored, now: int)
    requires rate > 0.0 && SameBucket(st, st')
    requires st.Hash? ==> 0.0 <= st.tokens <= capacity - 1.0 && st.lastRefill <= now
    ensures Script(capacity, rate, st, now).0 == Script(capacity, rate, st', now).0
    ensures SameBucket(Script(capacity, rate, st, now).1, Script(capacity, rate, st', now).1)
    ensures NothingDue(capacity, rate, Script(capacity, rate, st, now).1, now)
  {
    assert Accrued(rate, 0) == 0.0;
    if st.Hash? {
      ProductNonNegative(Elapsed(st, now), rate);
    }
  }

  lemma BackwardSettles(capacity: real, rate: real, st: Stored, st': Stored, now: int, latest: int)
    requires rate > 0.0 && SameBucket(st, st') && NothingDue(capacity, rate, st, latest) && now <= latest
    ensures Script(capacity, rate, st, now).0 == Script(capacity, rate, st', latest).0
    ensures SameBucket(Script(capacity, rate, st, now).1, Script(capacity, rate, st', latest).1)
    ensures NothingDue(capacity, rate, Script(capacity, rate, st, now).1, latest)
  {
    if st.Hash? {
      ProductNonNegative(Elapsed(st, now), rate);
      ProductMonotone(Elapsed(st, now), Elapsed(st, latest), rate);
    }
  }

  lemma {:induction false} RunsAlike(capacity: real, rate: real, times: seq<int>)
    requires rate > 0.0
    ensures var (answers, st) := Run(capacity, rate, times);
      var (answers', st') := Run(capacity, rate, Still(times));
      && answers == answers' && SameBucket(st, st')
      && (times != [] ==> NothingDue(capacity, rate, st, Still(times)[|times| - 1]))
  {
    if times != [] {
      var n := |times| - 1;
      var still := Still(times);
      assert still[..n] == Still(times[..n]);
      RunsAlike(capacity, rate, times[..n]);
      var st, st' := Run(capacity, rate, times[..n]).1, Run(capacity, rate, still[..n]).1;
      if n > 0 && still[n - 1] > times[n] {
        BackwardSettles(capacity, rate, st, st', times[n], still[n - 1]);
      } else {
        ForwardSettles(capacity, rate, st, st', times[n]);
      }
    }
  }

  /** A clock that goes back is answered as one that stands still instead: for every capacity,
      every positive rate and every sequence of times. */
  lemma BackwardStandsStill(capacity: real, rate: real, times: seq<int>)
    requires rate > 0.0
    ensures NonDecreasing(Still(times)) && Run(capacity, rate, times).0 == Run(capacity, rate, Still(times)).0
  {
    StillRises(times);
    RunsAlike(capacity, rate, times);
  }

  lemma TailBound(capacity: real, rate: real, times: seq<int>, m: nat, answers: seq<bool>)
    requires capacity >= 0.0 && rate > 0.0 && m < |times| && NonDecreasing(times)
    requires answers == Run(capacity, rate, times).0
    ensures |answers| == |times|
    ensures Admitted(answers[m..]) as real <= capacity + Accrued(rate, times[|times| - 1] - times[m])
  {
    var before, block := times[..m], times[m..];
    assert before + block == times;
    RunBound(capacity, rate, before, block);
  }

  /** Hence for any clock at all the calls from the `m`-th on admit at most what the capacity and the
      advance of the latest time since then allow. */
  lemma RateBoundAnyClock(capacity: real, rate: real, times: seq<int>, m: nat, answers: seq<bool>)
    requires capacity >= 0.0 && rate > 0.0 && m < |times| && answers == Run(capacity, rate, times).0
    ensures |answers| == |times|
    ensures Admitted(answers[m..]) as real <= capacity + Accrued(rate, Still(times)[|times| - 1] - Still(times)[m])
  {
    BackwardStandsStill(capacity, rate, times);
    TailBound(capacity, rate, Still(times), m, answers);
  }

  // ---------------------------------------------------------------------------------------
  // The ideal bucket
  // ---------------------------------------------------------------------------------------

  /** A bucket that gains `rate` tokens per second up to its capacity, continuously, whether or
      not requests are admitted. */
  datatype Ideal = Ideal(level: real, at: int)

  function IdealCall(capacity: real, rate: real, b: Ideal, now: int): (bool, Ideal) {
    var level := Min(capacity, b.level + Gain(rate, now - b.at));
    if level >= 1.0 then (true, Ideal(level - 1.0, now)) else (false, Ideal(level, now))
  }

  function RunIdeal(capacity: real, rate: real, times: seq<int>): (seq<bool>, Ideal) {
    if times == [] then ([], Ideal(capacity, 0))
    else
      var n := |times| - 1;
      var (answers, b) := RunIdeal(capacity, rate, times[..n]);
      var (a, b') := IdealCall(capacity, rate, if n == 0 then Ideal(capacity, times[0]) else b, times[n]);
      (answers + [a], b')
  }

  /** The script answers by the level and takes from it exactly what it admits. */
  predicate CallExact(capacity: real, rate: real, st: Stored, now: int) {
    var (a, st') := Script(capacity, rate, st, now);
    && a == (Level(capacity, rate, st, now) >= 1.0)
    && Level(capacity, rate, st', now) == Level(capacity, rate, st, now) - (if a then 1.0 else 0.0)
  }

  /** It does so whatever it finds. */
  ghost predicate Exact(capacity: real, rate: real) {
    forall st, now :: Sound(capacity, st, now) ==> CallExact(capacity, rate, st, now)
  }

  lemma LevelLater(capacity: real, rate: real, st: Stored, now: int, later: int)
    requires rate > 0.0 && Sound(capacity, st, now) && now <= later
    ensures Level(capacity, rate, st, later)
         == Min(capacity, Level(capacity, rate, st, now) + Gain(rate, later - now))
  {
    GainNonNegative(rate, later - now);
    if st.Hash? {
      GainAdds(rate, now - st.lastRefill, later - now);
    }
  }

  lemma ExactStep(capacity: real, rate: real, st: Stored, b: Ideal, now: int)
    requires CallExact(capacity, rate, st, now)
    requires Level(capacity, rate, st, now) == Min(capacity, b.level + Gain(rate, now - b.at))
    ensures var (a, st') := Script(capacity, rate, st, now);
      IdealCall(capacity, rate, b, now) == (a, Ideal(Level(capacity, rate, st', now), now))
  {}

  /** A script that is exact at every call answers every run as the ideal bucket does. */
  lemma {:induction false} ExactMatches(capacity: real, rate: real, times: seq<int>)
    requires rate > 0.0 && Exact(capacity, rate) && NonDecreasing(times)
    ensures var (answers, st) := Run(capacity, rate, times);
      var (ideal, b) := RunIdeal(capacity, rate, times);
      && answers == ideal
      && (times != [] ==> b.at == times[|times| - 1] && b.level == Level(capacity, rate, st, b.at))
    decreases |times|
  {
    if times != [] {
      var n := |times| - 1;
      var now := times[n];
      ExactMatches(capacity, rate, times[..n]);
      RunSound(capacity, rate, times[..n], now);
      var st := Run(capacity, rate, times[..n]).1;
      assert CallExact(capacity, rate, st, now);
      if n > 0 {
        RunSound(capacity, rate, times[..n], times[n - 1]);
        LevelLater(capacity, rate, st, times[n - 1], now);
        ExactStep(capacity, rate, st, RunIdeal(capacity, rate, times[..n]).1, now);
      } else {
        assert Gain(rate, 0) == 0.0;
        ExactStep(capacity, rate, st, Ideal(capacity, now), now);
      }
    }
  }

  // ---------------------------------------------------------------------------------------
  // When the script is exact
  // ---------------------------------------------------------------------------------------

  lemma {:induction false} ProductOfWholes(n: int, rate: int)
    requires n >= 0
    ensures Accrued(rate as real, n) == (n * rate) as real
    decreases n
  {
    if n > 0 {
      ProductOfWholes(n - 1, rate);
      assert n as real * rate as real == (n - 1) as real * rate as real + rate as real;
      assert n * rate == (n - 1) * rate + rate;
    }
  }

  /** For a whole rate the script finds exactly the level of the ideal bucket. */
  lemma WholeRate(capacity: real, rate: int, st: Stored, now: int)
    requires rate >= 1 && Sound(capacity, st, now)
    ensures CallExact(capacity, rate as real, st, now)
  {
    assert Gain(rate as real, 0) == 0.0;
    if st.Hash? {
      var n := Elapsed(st, now);
      GainIsProduct(rate as real, n);
      ProductOfWholes(n, rate);
      if n >= 1 {
        assert n * rate >= n;
      }
    }
  }

  /** So it does with room for one token at most, where no fraction beside it can be lost. */
  lemma SmallBucket(capacity: int, rate: real, st: Stored, now: int)
    requires rate > 0.0 && capacity <= 1 && Sound(capacity as real, st, now)
    ensures CallExact(capacity as real, rate, st, now)
  {
    assert Gain(rate, 0) == 0.0;
    if st.Hash? {
      GainIsProduct(rate, Elapsed(st, now));
    }
  }

  /** And when one second fills the bucket. */
  lemma FastRefill(capacity: int, rate: real, st: Stored, now: int)
    requires rate > 0.0 && 1 <= capacity && rate >= capacity as real && Sound(capacity as real, st, now)
    ensures CallExact(capacity as real, rate, st, now)
  {
    assert Gain(rate, 0) == 0.0;
    if st.Hash? {
      var n := Elapsed(st, now);
      GainIsProduct(rate, n);
      if n >= 1 {
        ProductMonotone(1, n, rate);
      }
    }
  }

  /** Although a rejection writes nothing, with a whole rate the key answers every call as the
      ideal bucket does. */
  lemma MatchesIdeal(capacity: real, rate: int, times: seq<int>)
    requires rate >= 1 && NonDecreasing(times)
    ensures var (answers, st) := Run(capacity, rate as real, times);
      var (ideal, b) := RunIdeal(capacity, rate as real, times);
      && answers == ideal
      && (times != [] ==> b.at == times[|times| - 1] && b.level == Level(capacity, rate as real, st, b.at))
  {
    forall st, now | Sound(capacity, st, now)
      ensures CallExact(capacity, rate as real, st, now)
    {
      WholeRate(capacity, rate, st, now);
    }
    ExactMatches(capacity, rate as real, times);
  }

  // ---------------------------------------------------------------------------------------
  // When it is not
  // ---------------------------------------------------------------------------------------

  /** After these calls, the last of them at `at`, the key holds `tokens` and the ideal bucket holds
      `level`. */
  ghost predicate At(capacity: int, rate: real, times: seq<int>, at: int, tokens: int, level: real) {
    && times != [] && NonDecreasing(times) && times[|times| - 1] == at
    && Run(capacity as real, rate, times).1 == Hash(tokens as real, at, at)
    && RunIdeal(capacity as real, rate, times).1 == Ideal(level, at)
  }

  /** The key answers these calls as the ideal bucket does. */
  predicate SameAnswers(capacity: real, rate: real, times: seq<int>) {
    Run(capacity, rate, times).0 == RunIdeal(capacity, rate, times).0
  }

  /** Some run is answered differently. */
  ghost predicate Differs(capacity: int, rate: real) {
    exists times :: NonDecreasing(times) && !SameAnswers(capacity as real, rate, times)
  }

  lemma CallAppended(capacity: real, rate: real, times: seq<int>, now: int)
    ensures var (answers, st) := Run(capacity, rate, times);
      var (a, st') := Script(capacity, rate, st, now);
      Run(capacity, rate, times + [now]) == (answers + [a], st')
    ensures times != [] ==>
      var (answers, b) := RunIdeal(capacity, rate, times);
      var (a, b') := IdealCall(capacity, rate, b, now);
      RunIdeal(capacity, rate, times + [now]) == (answers + [a], b')
  {
    assert (times + [now])[..|times|] == times;
  }

  /** One more call at `now`. */
  lemma OneMore(capacity: int, rate: real, times: seq<int>, at: int, tokens: int, level: real, now: int)
    requires At(capacity, rate, times, at, tokens, level) && at <= now
    ensures var more := times + [now];
      var (a, st) := Script(capacity as real, rate, Hash(tokens as real, at, at), now);
      var (a', b) := IdealCall(capacity as real, rate, Ideal(level, at), now);
      && NonDecreasing(more) && more[|more| - 1] == now
      && Run(capacity as real, rate, more).1 == st
      && RunIdeal(capacity as real, rate, more).1 == b
      && (a != a' ==> !SameAnswers(capacity as real, rate, more))
  {
    var more := times + [now];
    CallAppended(capacity as real, rate, times, now);
    var x, y := Run(capacity as real, rate, times).0, RunIdeal(capacity as real, rate, times).0;
    var (a, st) := Script(capacity as real, rate, Hash(tokens as real, at, at), now);
    var (a', b) := IdealCall(capacity as real, rate, Ideal(level, at), now);
    assert Run(capacity as real, rate, more) == (x + [a], st);
    assert RunIdeal(capacity as real, rate, more) == (y + [a'], b);
    if x + [a] == y + [a'] {
      assert (x + [a])[|x|] == a && (y + [a'])[|y|] == a';
    }
  }

  /** As many calls at once as the key holds tokens. */
  lemma {:induction false} DrainKey(capacity: int, rate: real, times: seq<int>, at: int, tokens: nat, level: real)
    returns (more: seq<int>)
    requires rate > 0.0 && At(capacity, rate, times, at, tokens, level)
    requires tokens as real <= level <= capacity as real
    ensures At(capacity, rate, more, at, 0, level - tokens as real)
    decreases tokens
  {
    more := times;
    if tokens > 0 {
      OneMore(capacity, rate, times, at, tokens, level, at);
      assert Gain(rate, 0) == 0.0;
      more := DrainKey(capacity, rate, times + [at], at, tokens - 1, level - 1.0);
    }
  }

  /** A waiting time worth a fraction beside whole tokens that the bucket has room for. */
  predicate Period(capacity: int, rate: real, p: int, whole: int, fraction: real) {
    && p >= 1 && 1 <= whole < capacity
    && 0.0 < fraction < 1.0 && Accrued(rate, p) == whole as real + fraction
  }

  lemma SomePeriod(capacity: int, rate: real) returns (p: int, whole: int, fraction: real)
    requires 0.0 < rate < capacity as real && capacity >= 2 && rate != rate.Floor as real
    ensures Period(capacity, rate, p, whole, fraction)
  {
    if rate > 1.0 {
      p, whole := 1, rate.Floor;
    } else {
      p, whole := (1.0 / rate).Floor + 1, 1;
      assert (1.0 / rate) * rate == 1.0;
      assert (p - 1) as real <= 1.0 / rate < p as real;
      assert (p - 1) as real * rate <= (1.0 / rate) * rate < p as real * rate;
      assert p as real * rate == (p - 1) as real * rate + rate;
    }
    fraction := Accrued(rate, p) - whole as real;
  }

  /** The first call after a period finds the whole tokens; the ideal bucket also has the fraction. */
  lemma AfterPeriod(capacity: int, rate: real, times: seq<int>, at: int, extra: real,
                    p: int, whole: int, fraction: real)
    returns (more: seq<int>)
    requires rate > 0.0 && Period(capacity, rate, p, whole, fraction) && 0.0 <= extra < 1.0
    requires At(capacity, rate, times, at, 0, extra)
    ensures At(capacity, rate, more, at + p, 0, Min(capacity as real, extra + whole as real + fraction) - whole as real)
  {
    var level := Min(capacity as real, extra + whole as real + fraction);
    GainIsProduct(rate, p);
    OneMore(capacity, rate, times, at, 0, extra, at + p);
    assert RefillAmount(rate, Hash(0.0, at, at), at + p) == whole;
    more := times + [at + p];
    assert At(capacity, rate, more, at + p, whole - 1, level - 1.0);
    more := DrainKey(capacity, rate, more, at + p, whole - 1, level - 1.0);
  }

  /** The fractions add up until the ideal bucket admits one request more. */
  lemma {:induction false} FractionsAddUp(capacity: int, rate: real, times: seq<int>, at: int, extra: real,
                                          p: int, whole: int, fraction: real, n: nat)
    requires rate > 0.0 && Period(capacity, rate, p, whole, fraction)
    requires 0.0 <= extra < 1.0 && extra + Gain(fraction, n) >= 1.0
    requires At(capacity, rate, times, at, 0, extra)
    ensures Differs(capacity, rate)
    decreases n
  {
    var more := AfterPeriod(capacity, rate, times, at, extra, p, whole, fraction);
    if extra + fraction < 1.0 {
      FractionsAddUp(capacity, rate, more, at + p, extra + fraction, p, whole, fraction, n - 1);
    } else {
      var level := Min(capacity as real, extra + whole as real + fraction) - whole as real;
      assert Gain(rate, 0) == 0.0;
      OneMore(capacity, rate, more, at + p, 0, level, at + p);
    }
  }

  lemma Enough(fraction: real) returns (n: nat)
    requires 0.0 < fraction < 1.0
    ensures Gain(fraction, n) >= 1.0
  {
    n := Ceil(1.0 / fraction);
    assert (1.0 / fraction) * fraction == 1.0;
    assert n as real * fraction >= (1.0 / fraction) * fraction;
    GainIsProduct(fraction, n);
  }

  lemma FirstCall(capacity: int, rate: real)
    requires rate > 0.0 && capacity >= 2
    ensures At(capacity, rate, [0], 0, capacity - 1, capacity as real - 1.0)
  {
    assert [0][..0] == [];
    assert Gain(rate, 0) == 0.0;
  }

  lemma FractionLost(capacity: int, rate: real)
    requires 0.0 < rate < capacity as real && capacity >= 2 && rate != rate.Floor as real
    ensures Differs(capacity, rate)
  {
    var p, whole, fraction := SomePeriod(capacity, rate);
    var n := Enough(fraction);
    FirstCall(capacity, rate);
    var times := DrainKey(capacity, rate, [0], 0, capacity - 1, capacity as real - 1.0);
    FractionsAddUp(capacity, rate, times, 0, 0.0, p, whole, fraction, n);
  }

  lemma KeyCall(capacity: real, rate: real, times: seq<int>, answers: seq<bool>, k: nat, st: Stored, st': Stored)
    requires k < |times| == |answers| && Run(capacity, rate, times[..k]) == (answers[..k], st)
    requires Script(capacity, rate, st, times[k]) == (answers[k], st')
    ensures Run(capacity, rate, times[..k + 1]) == (answers[..k + 1], st')
  {
    assert times[..k] + [times[k]] == times[..k + 1] && answers[..k] + [answers[k]] == answers[..k + 1];
    CallAppended(capacity, rate, times[..k], times[k]);
  }

  lemma BucketCall(capacity: real, rate: real, times: seq<int>, answers: seq<bool>, k: nat, b: Ideal, b': Ideal)
    requires 0 < k < |times| == |answers| && RunIdeal(capacity, rate, times[..k]) == (answers[..k], b)
    requires IdealCall(capacity, rate, b, times[k]) == (answers[k], b')
    ensures RunIdeal(capacity, rate, times[..k + 1]) == (answers[..k + 1], b')
  {
    assert times[..k] + [times[k]] == times[..k + 1] && answers[..k] + [answers[k]] == answers[..k + 1];
    CallAppended(capacity, rate, times[..k], times[k]);
  }

  lemma ExampleKey(capacity: real, rate: real, times: seq<int>)
    requires capacity == 2.0 && rate == 1.5 && times == [0, 0, 1, 2, 2]
    ensures Run(capacity, rate, times).0 == [true, true, true, true, false]
  {
    var answers := [true, true, true, true, false];
    KeyCall(capacity, rate, times, answers, 0, Missing, Hash(1.0, 0, 0));
    KeyCall(capacity, rate, times, answers, 1, Hash(1.0, 0, 0), Hash(0.0, 0, 0));
    KeyCall(capacity, rate, times, answers, 2, Hash(0.0, 0, 0), Hash(0.0, 1, 1));
    KeyCall(capacity, rate, times, answers, 3, Hash(0.0, 1, 1), Hash(0.0, 2, 2));
    KeyCall(capacity, rate, times, answers, 4, Hash(0.0, 2, 2), Hash(0.0, 2, 2));
    assert times[..5] == times && answers[..5] == answers;
  }

  lemma ExampleIdeal(capacity: real, rate: real, times: seq<int>)
    requires capacity == 2.0 && rate == 1.5 && times == [0, 0, 1, 2, 2]
    ensures RunIdeal(capacity, rate, times).0 == [true, true, true, true, true]
  {
    var answers := [true, true, true, true, true];
    assert Gain(rate, 0) == 0.0 && Gain(rate, 1) == 1.5;
    assert times[..1][..0] == [] && answers[..1] == [] + [true];
    BucketCall(capacity, rate, times, answers, 1, Ideal(1.0, 0), Ideal(0.0, 0));
    BucketCall(capacity, rate, times, answers, 2, Ideal(0.0, 0), Ideal(0.5, 1));
    BucketCall(capacity, rate, times, answers, 3, Ideal(0.5, 1), Ideal(1.0, 2));
    BucketCall(capacity, rate, times, answers, 4, Ideal(1.0, 2), Ideal(0.0, 2));
    assert times[..5] == times && answers[..5] == answers;
  }

  /** For example with two tokens and a rate of one and a half: half a token is lost twice, so the
      key refuses the fifth of these calls. */
  lemma FractionLostAtFifthCall(capacity: real, rate: real, times: seq<int>)
    requires capacity == 2.0 && rate == 1.5 && times == [0, 0, 1, 2, 2]
    ensures Run(capacity, rate, times).0 == [true, true, true, true, false]
    ensures RunIdeal(capacity, rate, times).0 == [true, true, true, true, true]
  {
    ExampleKey(capacity, rate, times);
    ExampleIdeal(capacity, rate, times);
  }

  /** With a whole capacity the key answers every run as the ideal bucket does if and only if the
      rate is whole, the bucket holds at most one token, or one second fills it. */
  lemma MatchesExactly(capacity: int, rate: real)
    requires rate > 0.0
    ensures (forall times :: NonDecreasing(times) ==> SameAnswers(capacity as real, rate, times)) <==>
            rate == rate.Floor as real || capacity <= 1 || rate >= capacity as real
  {
    if rate == rate.Floor as real || capacity <= 1 || rate >= capacity as real {
      var room := capacity as real;
      forall st, now | Sound(room, st, now)
        ensures CallExact(room, rate, st, now)
      {
        if capacity <= 1 {
          SmallBucket(capacity, rate, st, now);
        } else if rate >= capacity as real {
          FastRefill(capacity, rate, st, now);
        } else {
          WholeRate(capacity as real, rate.Floor, st, now);
        }
      }
      forall times | NonDecreasing(times)
        ensures SameAnswers(room, rate, times)
      {
        ExactMatches(room, rate, times);
      }
    } else {
      FractionLost(capacity, rate);
    }
  }
}
