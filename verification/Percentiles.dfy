/** The latency figures of a load report, in exact arithmetic: order statistics of the samples. */
module Percentiles {

  ghost predicate Sorted(xs: seq<real>) {
    forall i, j :: 0 <= i < j < |xs| ==> xs[i] <= xs[j]
  }

  /** Rounding down, capped at the last of `n` samples. */
  function Capped(x: real, n: nat): int {
    if x.Floor < n - 1 then x.Floor else n - 1
  }

  function PercentileIndex(p: real, n: nat): int {
    Capped(p / 100.0 * n as real, n)
  }

  /** `latencies` is sorted already; with no sample the answer is 0. */
  function GetPercentile(latencies: seq<real>, p: real): real
    requires 0.0 <= p
  {
    if |latencies| == 0 then 0.0
    else
      IndexInRange(p, |latencies|);
      latencies[PercentileIndex(p, |latencies|)]
  }

  lemma TimesIsMonotone(p: real, q: real, x: real)
    requires p <= q && 0.0 <= x
    ensures p * x <= q * x
  {
    assert (q - p) * x >= 0.0;
  }

  lemma IndexInRange(p: real, n: nat)
    requires 0.0 <= p && n > 0
    ensures 0 <= PercentileIndex(p, n) < n
  {
    TimesIsMonotone(0.0, p / 100.0, n as real);
  }

  datatype Latencies = Latencies(min: real, p50: real, p90: real, p95: real, p99: real, max: real)

  /** The figures of the report, from the samples in sorted order. */
  function Report(latencies: seq<real>): Latencies {
    Latencies(
      if latencies == [] then 0.0 else latencies[0],
      GetPercentile(latencies, 50.0), GetPercentile(latencies, 90.0),
      GetPercentile(latencies, 95.0), GetPercentile(latencies, 99.0),
      if latencies == [] then 0.0 else latencies[|latencies| - 1])
  }

  // ----- What the figures mean for the samples as measured -----

  function CountAtMost(xs: seq<real>, v: real): nat {
    if xs == [] then 0 else CountAtMost(xs[1..], v) + if xs[0] <= v then 1 else 0
  }

  function CountBelow(xs: seq<real>, v: real): nat {
    if xs == [] then 0 else CountBelow(xs[1..], v) + if xs[0] < v then 1 else 0
  }

  lemma {:induction false} CountsConcat(xs: seq<real>, ys: seq<real>, v: real)
    ensures CountAtMost(xs + ys, v) == CountAtMost(xs, v) + CountAtMost(ys, v)
    ensures CountBelow(xs + ys, v) == CountBelow(xs, v) + CountBelow(ys, v)
  {
    if xs == [] {
      assert xs + ys == ys;
    } else {
      assert (xs + ys)[1..] == xs[1..] + ys;
      CountsConcat(xs[1..], ys, v);
    }
  }

  lemma {:induction false} NoneBelow(xs: seq<real>, v: real)
    requires forall i :: 0 <= i < |xs| ==> xs[i] >= v
    ensures CountBelow(xs, v) == 0
  {
    if xs != [] {
      NoneBelow(xs[1..], v);
    }
  }

  lemma Removed(xs: seq<real>, i: nat, v: real)
    requires i < |xs|
    ensures var rest := xs[..i] + xs[i + 1..];
      && |rest| == |xs| - 1 && multiset(xs) == multiset(rest) + multiset{xs[i]}
      && CountAtMost(xs, v) == CountAtMost(rest, v) + (if xs[i] <= v then 1 else 0)
      && CountBelow(xs, v) == CountBelow(rest, v) + (if xs[i] < v then 1 else 0)
  {
    var low, high := xs[..i], xs[i + 1..];
    assert xs == low + ([xs[i]] + high);
    CountsConcat(low, high, v);
    CountsConcat(low, [xs[i]] + high, v);
    CountsConcat([xs[i]], high, v);
    assert multiset(xs) == multiset(low) + (multiset{xs[i]} + multiset(high));
  }

  /** The first of `xs` has a place in any permutation of it. */
  lemma PlaceOfFirst(xs: seq<real>, ys: seq<real>) returns (i: nat)
    requires multiset(xs) == multiset(ys) && xs != []
    ensures i < |ys| && ys[i] == xs[0] && multiset(xs[1..]) == multiset(ys[..i] + ys[i + 1..])
  {
    assert xs[0] in multiset(ys);
    i :| i < |ys| && ys[i] == xs[0];
    assert xs == [xs[0]] + xs[1..];
    Removed(ys, i, 0.0);
    assert multiset(xs[1..]) == multiset(xs) - multiset{xs[0]};
    assert multiset(ys[..i] + ys[i + 1..]) == multiset(ys) - multiset{ys[i]};
  }

  /** Sorting does not change the counts. */
  lemma {:induction false} CountsOfPermutation(xs: seq<real>, ys: seq<real>, v: real)
    requires multiset(xs) == multiset(ys)
    ensures CountAtMost(xs, v) == CountAtMost(ys, v) && CountBelow(xs, v) == CountBelow(ys, v)
    decreases |xs|
  {
    if xs == [] {
      assert |multiset(ys)| == 0;
    } else {
      var i := PlaceOfFirst(xs, ys);
      Removed(ys, i, v);
      CountsOfPermutation(xs[1..], ys[..i] + ys[i + 1..], v);
    }
  }

  /** The value at `idx` of the sorted samples: idx + 1 samples or more are at most it, idx or fewer below it. */
  lemma {:induction false} RankOf(sorted: seq<real>, idx: nat)
    requires Sorted(sorted) && idx < |sorted|
    ensures CountAtMost(sorted, sorted[idx]) >= idx + 1 && CountBelow(sorted, sorted[idx]) <= idx
  {
    if idx == 0 {
      NoneBelow(sorted, sorted[0]);
    } else {
      RankOf(sorted[1..], idx - 1);
    }
  }

  lemma RankInSamples(samples: seq<real>, sorted: seq<real>, idx: nat)
    requires multiset(samples) == multiset(sorted) && Sorted(sorted) && idx < |sorted|
    ensures |samples| == |sorted| && sorted[idx] in samples
    ensures CountAtMost(samples, sorted[idx]) >= idx + 1 && CountBelow(samples, sorted[idx]) <= idx
  {
    assert |multiset(samples)| == |multiset(sorted)|;
    assert sorted[idx] in multiset(samples);
    RankOf(sorted, idx);
    CountsOfPermutation(samples, sorted, sorted[idx]);
  }

  /** `count` of `n` samples is at least p percent of them. */
  predicate AtLeastShare(count: nat, p: real, n: nat) {
    100.0 * count as real >= p * n as real
  }

  predicate AtMostShare(count: nat, p: real, n: nat) {
    100.0 * count as real <= p * n as real
  }

  lemma ShareIsMonotone(count: nat, more: nat, p: real, n: nat)
    requires count <= more
    ensures AtLeastShare(count, p, n) ==> AtLeastShare(more, p, n)
    ensures AtMostShare(more, p, n) ==> AtMostShare(count, p, n)
  {
    var share := p * n as real;
    assert 100.0 * count as real <= 100.0 * more as real;
  }

  /** `v` is a sample, at least p percent of the samples are at or below it and at most p percent strictly below. */
  ghost predicate IsPercentile(samples: seq<real>, v: real, p: real) {
    && v in samples
    && AtLeastShare(CountAtMost(samples, v), p, |samples|)
    && AtMostShare(CountBelow(samples, v), p, |samples|)
  }

  /** What is picked from the sorted samples is the percentile of the samples as measured. */
  lemma PercentileIsOrderStatistic(samples: seq<real>, sorted: seq<real>, p: real)
    requires multiset(samples) == multiset(sorted) && Sorted(sorted) && samples != [] && 0.0 <= p <= 100.0
    ensures IsPercentile(samples, GetPercentile(sorted, p), p)
  {
    assert |multiset(samples)| == |multiset(sorted)|;
    IndexInRange(p, |sorted|);
    var idx := PercentileIndex(p, |sorted|);
    RankInSamples(samples, sorted, idx);
    ShareOfIndex(p, |sorted|);
    ShareIsMonotone(idx + 1, CountAtMost(samples, sorted[idx]), p, |samples|);
    ShareIsMonotone(CountBelow(samples, sorted[idx]), idx, p, |samples|);
  }

  /** Where two samples meet that measure, at a whole number of samples, it is the greater one. */
  lemma PercentileIsGreatest(samples: seq<real>, sorted: seq<real>, p: real, v: real)
    requires multiset(samples) == multiset(sorted) && Sorted(sorted) && samples != [] && 0.0 <= p <= 100.0
    requires IsPercentile(samples, v, p)
    ensures v <= GetPercentile(sorted, p)
  {
    assert |multiset(samples)| == |multiset(sorted)|;
    var n := |sorted|;
    IndexInRange(p, n);
    var idx := PercentileIndex(p, n);
    assert v in multiset(samples);
    var i :| 0 <= i < n && sorted[i] == v;
    if v > sorted[idx] {
      RankInSamples(samples, sorted, idx);
      BelowGrows(samples, sorted[idx], v);
      FloorIsLeast(p, n, CountBelow(samples, v));
    }
  }

  lemma {:induction false} BelowGrows(xs: seq<real>, v: real, w: real)
    requires v < w
    ensures CountAtMost(xs, v) <= CountBelow(xs, w)
  {
    if xs != [] {
      BelowGrows(xs[1..], v, w);
    }
  }

  /** More samples than the index counts are more than p percent of them, but for the last one. */
  lemma FloorIsLeast(p: real, n: nat, count: nat)
    requires n > 0 && 0.0 <= p <= 100.0 && AtMostShare(count, p, n)
    ensures count <= PercentileIndex(p, n) || PercentileIndex(p, n) == n - 1
  {
    var q := p / 100.0;
    HundredTimes(q, n as real);
    assert 100.0 * q == p;
    assert count as real <= q * n as real;
  }

  /** Rounding down and capping stays within one sample of p percent. */
  lemma ShareOfIndex(p: real, n: nat)
    requires n > 0 && 0.0 <= p <= 100.0
    ensures var idx := PercentileIndex(p, n);
      0 <= idx < n && AtMostShare(idx, p, n) && AtLeastShare(idx + 1, p, n)
  {
    var q := p / 100.0;
    TimesIsMonotone(0.0, q, n as real);
    TimesIsMonotone(q, 1.0, n as real);
    CappedShare(q * n as real, n);
    HundredTimes(q, n as real);
    assert 100.0 * q == p;
  }

  lemma CappedShare(x: real, n: nat)
    requires n > 0 && 0.0 <= x <= n as real
    ensures var idx := Capped(x, n); 0 <= idx < n && 100.0 * idx as real <= 100.0 * x <= 100.0 * (idx + 1) as real
  {
  }

  lemma HundredTimes(q: real, n: real)
    ensures 100.0 * (q * n) == (100.0 * q) * n
  {
  }

  lemma IndexIsMonotone(p: real, q: real, n: nat)
    requires n > 0 && 0.0 <= p <= q
    ensures 0 <= PercentileIndex(p, n) <= PercentileIndex(q, n) < n
  {
    TimesIsMonotone(p / 100.0, q / 100.0, n as real);
    IndexInRange(p, n);
    IndexInRange(q, n);
  }

  /** The figures come in order, and `min` and `max` are the least and the greatest sample. */
  lemma FiguresAreOrdered(samples: seq<real>, sorted: seq<real>)
    requires multiset(samples) == multiset(sorted) && Sorted(sorted)
    ensures var r := Report(sorted);
      && r.min <= r.p50 <= r.p90 <= r.p95 <= r.p99 <= r.max
      && (samples != [] ==> r.min in samples && r.max in samples)
      && forall x :: x in samples ==> r.min <= x <= r.max
  {
    if sorted != [] {
      var n := |sorted|;
      IndexIsMonotone(50.0, 90.0, n);
      IndexIsMonotone(90.0, 95.0, n);
      IndexIsMonotone(95.0, 99.0, n);
      assert sorted[0] in multiset(sorted) && sorted[n - 1] in multiset(sorted);
    }
    assert samples != [] ==> samples[0] in multiset(samples);
    forall x | x in samples ensures x in sorted {
      assert x in multiset(samples);
    }
  }

  /** Each figure is the percentile it is named after. */
  lemma FiguresArePercentiles(samples: seq<real>, sorted: seq<real>)
    requires multiset(samples) == multiset(sorted) && Sorted(sorted) && samples != []
    ensures var r := Report(sorted);
      && IsPercentile(samples, r.p50, 50.0) && IsPercentile(samples, r.p90, 90.0)
      && IsPercentile(samples, r.p95, 95.0) && IsPercentile(samples, r.p99, 99.0)
  {
    PercentileIsOrderStatistic(samples, sorted, 50.0);
    PercentileIsOrderStatistic(samples, sorted, 90.0);
    PercentileIsOrderStatistic(samples, sorted, 95.0);
    PercentileIsOrderStatistic(samples, sorted, 99.0);
  }

  /** The order statistics do not depend on the order in which the requests settled. */
  lemma ReportIgnoresOrder(xs: seq<real>, ys: seq<real>)
    requires Sorted(xs) && Sorted(ys) && multiset(xs) == multiset(ys)
    ensures Report(xs) == Report(ys)
  {
    SortedIsUnique(xs, ys);
  }

  lemma LeastIsFirst(xs: seq<real>, x: real)
    requires Sorted(xs) && x in multiset(xs)
    ensures xs != [] && xs[0] <= x
  {
    var i :| 0 <= i < |xs| && xs[i] == x;
  }

  lemma Tail(xs: seq<real>)
    requires xs != []
    ensures multiset(xs[1..]) == multiset(xs) - multiset{xs[0]}
  {
    assert xs == [xs[0]] + xs[1..];
  }

  lemma SameLeast(xs: seq<real>, ys: seq<real>)
    requires Sorted(xs) && Sorted(ys) && multiset(xs) == multiset(ys) && xs != []
    ensures ys != [] && xs[0] == ys[0]
  {
    assert xs[0] in multiset(ys);
    LeastIsFirst(ys, xs[0]);
    assert ys[0] in multiset(xs);
    LeastIsFirst(xs, ys[0]);
  }

  lemma {:induction false} SortedIsUnique(xs: seq<real>, ys: seq<real>)
    requires Sorted(xs) && Sorted(ys) && multiset(xs) == multiset(ys)
    ensures xs == ys
    decreases |xs|
  {
    if xs == [] {
      assert |multiset(ys)| == 0;
    } else {
      SameLeast(xs, ys);
      Tail(xs);
      Tail(ys);
      SortedIsUnique(xs[1..], ys[1..]);
      assert xs == [xs[0]] + xs[1..] && ys == [ys[0]] + ys[1..];
    }
  }
}
