/** The benchmark statistics, over reals. */
module Statistics {

  // ---------------------------------------------------------------------------------------
  // Sorting
  // ---------------------------------------------------------------------------------------

  predicate Sorted(s: seq<real>) {
    forall i, j :: 0 <= i <= j < |s| ==> s[i] <= s[j]
  }

  function Insert(x: real, s: seq<real>): (r: seq<real>)
    ensures |r| == |s| + 1
  {
    if s == [] || x <= s[0] then [x] + s else [s[0]] + Insert(x, s[1..])
  }

  /** `sorted(values)`. */
  function Sort(values: seq<real>): (s: seq<real>)
    ensures |s| == |values|
  {
    if values == [] then [] else Insert(values[0], Sort(values[1..]))
  }

  lemma {:induction false} InsertKeeps(x: real, s: seq<real>)
    ensures multiset(Insert(x, s)) == multiset(s) + multiset{x}
  {
    if s != [] {
      InsertKeeps(x, s[1..]);
      assert s == [s[0]] + s[1..];
    }
  }

  lemma {:induction false} InsertAbove(x: real, s: seq<real>, low: real)
    requires low <= x && forall i :: 0 <= i < |s| ==> low <= s[i]
    ensures forall i :: 0 <= i < |Insert(x, s)| ==> low <= Insert(x, s)[i]
  {
    if s != [] {
      InsertAbove(x, s[1..], low);
    }
  }

  lemma {:induction false} InsertSorts(x: real, s: seq<real>)
    requires Sorted(s)
    ensures Sorted(Insert(x, s))
  {
    if s != [] && x > s[0] {
      InsertSorts(x, s[1..]);
      InsertAbove(x, s[1..], s[0]);
    }
  }

  lemma {:induction false} SortSorts(values: seq<real>)
    ensures Sorted(Sort(values)) && multiset(Sort(values)) == multiset(values)
  {
    if values != [] {
      SortSorts(values[1..]);
      InsertSorts(values[0], Sort(values[1..]));
      InsertKeeps(values[0], Sort(values[1..]));
      assert values == [values[0]] + values[1..];
    }
  }

  lemma HeadLeast(s: seq<real>, x: real)
    requires Sorted(s) && x in multiset(s)
    ensures s != [] && s[0] <= x
  {
    var i :| 0 <= i < |s| && s[i] == x;
  }

  lemma HeadsAgree(a: seq<real>, b: seq<real>)
    requires Sorted(a) && Sorted(b) && multiset(a) == multiset(b) && a != [] && b != []
    ensures a[0] == b[0]
  {
    assert a[0] in multiset(a) && b[0] in multiset(b);
    HeadLeast(b, a[0]);
    HeadLeast(a, b[0]);
  }

  lemma TailOf(s: seq<real>)
    requires s != []
    ensures multiset(s[1..]) == multiset(s) - multiset{s[0]}
    ensures Sorted(s) ==> Sorted(s[1..])
  {
    assert s == [s[0]] + s[1..];
  }

  /** Two sorted lists of the same values are equal. */
  lemma {:induction false} SortedUnique(a: seq<real>, b: seq<real>)
    requires Sorted(a) && Sorted(b) && multiset(a) == multiset(b) && |a| == |b|
    ensures a == b
  {
    if a != [] {
      var a', b' := a[1..], b[1..];
      assert a' == b' by {
        HeadsAgree(a, b);
        TailOf(a);
        TailOf(b);
        SortedUnique(a', b');
      }
      assert a[0] == b[0] by {
        HeadsAgree(a, b);
      }
      assert a == [a[0]] + a' && b == [b[0]] + b';
    }
  }

  // ---------------------------------------------------------------------------------------
  // The statistics
  // ---------------------------------------------------------------------------------------

  function Sum(values: seq<real>): real {
    if values == [] then 0.0 else values[0] + Sum(values[1..])
  }

  function Mean(values: seq<real>): real {
    if values == [] then 0.0 else Sum(values) / |values| as real
  }

  /** `statistics.median`: the middle value, or the mean of the two middle ones. */
  function Median(values: seq<real>): real {
    var s, n := Sort(values), |values|;
    if n == 0 then 0.0
    else if n % 2 == 1 then s[n / 2]
    else (s[n / 2 - 1] + s[n / 2]) / 2.0
  }

  function Minimum(values: seq<real>): real {
    if values == [] then 0.0
    else if |values| == 1 || values[0] <= Minimum(values[1..]) then values[0]
    else Minimum(values[1..])
  }

  function Maximum(values: seq<real>): real {
    if values == [] then 0.0
    else if |values| == 1 || values[0] >= Maximum(values[1..]) then values[0]
    else Maximum(values[1..])
  }

  function Times(x: real, y: real): real {
    x * y
  }

  function Rank(n: nat, p: real): real {
    Times(n as real - 1.0, p / 100.0)
  }

  /** `a * (1 - weight) + b * weight`. */
  function Mix(a: real, b: real, weight: real): real {
    a * (1.0 - weight) + b * weight
  }

  /** The value at a fractional position of a sorted list, by linear interpolation. */
  function At(s: seq<real>, rank: real): real
    requires s != [] && 0.0 <= rank <= |s| as real - 1.0
  {
    var lower := rank.Floor;
    var upper := if lower + 1 < |s| then lower + 1 else |s| - 1;
    Mix(s[lower], s[upper], rank - lower as real)
  }

  lemma Scaled(m: real, x: real, y: real)
    requires m >= 0.0 && x <= y
    ensures Times(m, x) <= Times(m, y)
  {
    assert m * (y - x) >= 0.0;
    assert m * (y - x) == m * y - m * x;
  }

  lemma RankBounds(n: nat, p: real, q: real)
    requires n > 0 && 0.0 <= p <= q <= 100.0
    ensures 0.0 <= Rank(n, p) <= Rank(n, q) <= n as real - 1.0
  {
    var m := n as real - 1.0;
    Scaled(m, 0.0, p / 100.0);
    Scaled(m, p / 100.0, q / 100.0);
    Scaled(m, q / 100.0, 1.0);
  }

  function Percentile(values: seq<real>, p: real): real
    requires 0.0 <= p <= 100.0
  {
    var s := Sort(values);
    if s == [] then 0.0
    else if |s| == 1 then s[0]
    else
      RankBounds(|s|, p, p);
      At(s, Rank(|s|, p))
  }

  datatype Summary = Summary(
    count: nat, mean: real, median: real, minimum: real, maximum: real,
    p50: real, p90: real, p95: real, p99: real
  )

  function Summarize(values: seq<real>): Summary {
    Summary(|values|, Mean(values), Median(values), Minimum(values), Maximum(values),
            Percentile(values, 50.0), Percentile(values, 90.0), Percentile(values, 95.0), Percentile(values, 99.0))
  }

  // ---------------------------------------------------------------------------------------
  // Percentiles
  // ---------------------------------------------------------------------------------------

  lemma Interpolates(a: real, b: real, w: real, v: real)
    requires a <= b && 0.0 <= w <= v <= 1.0
    ensures a <= Mix(a, b, w) <= Mix(a, b, v) <= b
  {
    Scaled(b - a, 0.0, w);
    Scaled(b - a, w, v);
    Scaled(b - a, v, 1.0);
    assert Mix(a, b, w) == a + Times(b - a, w);
    assert Mix(a, b, v) == a + Times(b - a, v);
  }

  lemma AtMonotone(s: seq<real>, r: real, t: real)
    requires s != [] && Sorted(s) && 0.0 <= r <= t <= |s| as real - 1.0
    ensures s[0] <= At(s, r) <= At(s, t) <= s[|s| - 1]
  {
    var i, j := r.Floor, t.Floor;
    var i', j' := if i + 1 < |s| then i + 1 else |s| - 1, if j + 1 < |s| then j + 1 else |s| - 1;
    var w, v := r - i as real, t - j as real;
    assert 0 <= i <= j < |s|;
    if i == j {
      Interpolates(s[i], s[i'], w, v);
    } else {
      Interpolates(s[i], s[i'], w, 1.0);
      Interpolates(s[j], s[j'], 0.0, v);
      assert s[i'] <= s[j];
    }
  }

  lemma {:induction false} ExtremesSorted(values: seq<real>)
    requires values != []
    ensures Minimum(values) == Sort(values)[0] && Maximum(values) == Sort(values)[|values| - 1]
  {
    if |values| > 1 {
      var rest := values[1..];
      ExtremesSorted(rest);
      SortSorts(rest);
      InsertEnds(values[0], Sort(rest));
    } else {
      assert Sort(values[1..]) == [];
    }
  }

  lemma {:induction false} InsertEnds(x: real, s: seq<real>)
    requires s != [] && Sorted(s)
    ensures Insert(x, s)[0] == if x <= s[0] then x else s[0]
    ensures Insert(x, s)[|s|] == if x >= s[|s| - 1] then x else s[|s| - 1]
  {
    if x > s[0] && |s| > 1 {
      InsertEnds(x, s[1..]);
    } else if x > s[0] {
      assert Insert(x, s[1..]) == [x];
    }
  }

  /** Percentiles lie between the extremes and grow with `p`. */
  lemma PercentileMonotone(values: seq<real>, p: real, q: real)
    requires values != [] && 0.0 <= p <= q <= 100.0
    ensures Minimum(values) <= Percentile(values, p) <= Percentile(values, q) <= Maximum(values)
  {
    var s := Sort(values);
    ExtremesSorted(values);
    SortSorts(values);
    if |s| > 1 {
      RankBounds(|s|, p, q);
      AtMonotone(s, Rank(|s|, p), Rank(|s|, q));
    }
  }

  /** The 50th percentile is the median, for every list. */
  lemma PercentileMedian(values: seq<real>)
    ensures Percentile(values, 50.0) == Median(values)
  {
    var s, n := Sort(values), |values|;
    if n > 1 {
      RankBounds(n, 50.0, 50.0);
      assert Rank(n, 50.0) == (n as real - 1.0) * 0.5;
      var k := n / 2;
      if n % 2 == 1 {
        assert n == 2 * k + 1;
        assert Rank(n, 50.0) == k as real;
        assert Rank(n, 50.0).Floor == k;
      } else {
        assert n == 2 * k;
        assert Rank(n, 50.0) == k as real - 0.5;
        assert Rank(n, 50.0).Floor == k - 1;
      }
    }
  }

  /** The order of the measurements does not matter. */
  lemma PercentilePermutes(values: seq<real>, other: seq<real>, p: real)
    requires multiset(values) == multiset(other) && 0.0 <= p <= 100.0
    ensures Percentile(values, p) == Percentile(other, p)
  {
    SortSorts(values);
    SortSorts(other);
    assert |values| == |multiset(values)| == |multiset(other)| == |other|;
    SortedUnique(Sort(values), Sort(other));
  }

  lemma {:induction false} SumBounds(values: seq<real>, low: real, high: real)
    requires forall i :: 0 <= i < |values| ==> low <= values[i] <= high
    ensures low * |values| as real <= Sum(values) <= high * |values| as real
  {
    if values != [] {
      SumBounds(values[1..], low, high);
      assert low * |values| as real == low * |values[1..]| as real + low;
      assert high * |values| as real == high * |values[1..]| as real + high;
    }
  }

  lemma {:induction false} ExtremesBound(values: seq<real>, i: nat)
    requires i < |values|
    ensures Minimum(values) <= values[i] <= Maximum(values)
  {
    if i > 0 {
      ExtremesBound(values[1..], i - 1);
    }
  }

  lemma MeanBounds(values: seq<real>)
    requires values != []
    ensures Minimum(values) <= Mean(values) <= Maximum(values)
  {
    forall i | 0 <= i < |values|
      ensures Minimum(values) <= values[i] <= Maximum(values)
    {
      ExtremesBound(values, i);
    }
    SumBounds(values, Minimum(values), Maximum(values));
    Quotient(Sum(values), |values| as real, Minimum(values), Maximum(values));
  }

  lemma Quotient(sum: real, n: real, low: real, high: real)
    requires n > 0.0 && low * n <= sum <= high * n
    ensures low <= sum / n <= high
  {
    assert sum / n * n == sum;
  }

  /** Every summary is in order, including that of no values. */
  lemma SummaryOrdered(values: seq<real>)
    ensures var s := Summarize(values);
      && s.minimum <= s.p50 == s.median <= s.p90 <= s.p95 <= s.p99 <= s.maximum
      && s.minimum <= s.mean <= s.maximum
  {
    PercentileMedian(values);
    if values != [] {
      PercentileMonotone(values, 50.0, 90.0);
      PercentileMonotone(values, 90.0, 95.0);
      PercentileMonotone(values, 95.0, 99.0);
      MeanBounds(values);
    }
  }

  // ---------------------------------------------------------------------------------------
  // Which value a percentile is
  // ---------------------------------------------------------------------------------------

  /** `v` lies at `p` percent of the way through the sorted values `s`: between two neighbours, as far
      from the lower one as the position is. */
  ghost predicate IsPercentile(s: seq<real>, p: real, v: real) {
    exists k: nat, w: real :: Position(s, p, k, w) && v == s[k] + w * (s[k + 1] - s[k])
  }

  /** The position of `p` percent among `s` is `w` past index `k`. */
  predicate Position(s: seq<real>, p: real, k: nat, w: real) {
    k + 1 < |s| && 0.0 <= w <= 1.0 && (k as real + w) * 100.0 == p * (|s| - 1) as real
  }

  /** There is at most one such value. */
  lemma PercentileOnly(s: seq<real>, p: real, v: real, v': real)
    requires IsPercentile(s, p, v) && IsPercentile(s, p, v')
    ensures v == v'
  {
    var k: nat, w: real :| Position(s, p, k, w) && v == s[k] + w * (s[k + 1] - s[k]);
    var k': nat, w': real :| Position(s, p, k', w') && v' == s[k'] + w' * (s[k' + 1] - s[k']);
    assert k as real + w == k' as real + w';
    assert k == k' || (k' == k + 1 && w == 1.0 && w' == 0.0) || (k == k' + 1 && w == 0.0 && w' == 1.0);
  }

  lemma AtPosition(s: seq<real>, p: real)
    requires |s| >= 2 && 0.0 <= p <= 100.0 && 0.0 <= Rank(|s|, p) <= |s| as real - 1.0
    ensures IsPercentile(s, p, At(s, Rank(|s|, p)))
  {
    var rank := Rank(|s|, p);
    var k := rank.Floor;
    var w := rank - k as real;
    assert rank * 100.0 == p * (|s| - 1) as real by {
      assert rank == (|s| as real - 1.0) * (p / 100.0);
      assert (|s| - 1) as real == |s| as real - 1.0;
      assert p / 100.0 * 100.0 == p;
      calc {
        rank * 100.0;
        (|s| as real - 1.0) * (p / 100.0) * 100.0;
        (|s| as real - 1.0) * p;
      }
    }
    if k + 1 < |s| {
      assert Position(s, p, k, w);
      assert Mix(s[k], s[k + 1], w) == s[k] + w * (s[k + 1] - s[k]);
    } else {
      assert w == 0.0 && k == |s| - 1;
      assert Position(s, p, k - 1, 1.0);
      assert Mix(s[k], s[k], w) == s[k] == s[k - 1] + 1.0 * (s[k] - s[k - 1]);
    }
  }

  /** The rank law: for any sorted arrangement of at least two values, the percentile is the value at
      that percentage of the way through, by linear interpolation. */
  lemma PercentileIs(values: seq<real>, s: seq<real>, p: real)
    requires |values| >= 2 && Sorted(s) && multiset(s) == multiset(values) && 0.0 <= p <= 100.0
    ensures IsPercentile(s, p, Percentile(values, p))
  {
    SortSorts(values);
    assert |s| == |multiset(s)| == |multiset(values)| == |values|;
    SortedUnique(Sort(values), s);
    RankBounds(|s|, p, p);
    AtPosition(s, p);
  }

  lemma MeanIs(values: seq<real>)
    requires values != []
    ensures Times(Mean(values), |values| as real) == Sum(values)
  {
    assert Sum(values) / |values| as real * |values| as real == Sum(values);
  }

  lemma ExtremesAre(values: seq<real>, s: seq<real>)
    requires values != [] && Sorted(s) && multiset(s) == multiset(values)
    ensures |s| == |values| && Minimum(values) == s[0] && Maximum(values) == s[|s| - 1]
  {
    SortSorts(values);
    assert |s| == |multiset(s)| == |multiset(values)| == |values|;
    SortedUnique(Sort(values), s);
    ExtremesSorted(values);
  }

  /** The count, the mean and the extremes of a summary are what their names say. */
  lemma SummaryBasics(values: seq<real>, s: seq<real>)
    requires values != [] && Sorted(s) && multiset(s) == multiset(values)
    ensures var r := Summarize(values);
      && r.count == |values| == |s| && Times(r.mean, r.count as real) == Sum(values)
      && r.minimum == s[0] && r.maximum == s[|s| - 1]
  {
    MeanIs(values);
    ExtremesAre(values, s);
  }

  /** And so are its percentiles, for at least two values. */
  lemma SummaryPercentiles(values: seq<real>, s: seq<real>)
    requires |values| >= 2 && Sorted(s) && multiset(s) == multiset(values)
    ensures var r := Summarize(values);
      && IsPercentile(s, 50.0, r.median) && IsPercentile(s, 50.0, r.p50)
      && IsPercentile(s, 90.0, r.p90) && IsPercentile(s, 95.0, r.p95) && IsPercentile(s, 99.0, r.p99)
  {
    PercentileMedian(values);
    PercentileIs(values, s, 50.0);
    PercentileIs(values, s, 90.0);
    PercentileIs(values, s, 95.0);
    PercentileIs(values, s, 99.0);
  }

  /** A single value is all of its statistics, and no value gives zeros. */
  lemma SmallSummaries(x: real)
    ensures Summarize([x]) == Summary(1, x, x, x, x, x, x, x, x)
    ensures Summarize([]) == Summary(0, 0.0, 0.0, 0.0, 0.0, 0.0, 0.0, 0.0, 0.0)
  {
    assert [x][1..] == [] && Sort([]) == [];
    assert Sort([x]) == [x] && Sum([x]) == x;
  }
}
