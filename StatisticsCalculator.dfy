/**
 * Aggregation of one metric's samples: a value-to-probability table and a
 * statistical summary (mean, variance, median, mode, extremes and
 * interpolated percentiles).  Results that JavaScript computes in floating
 * point are exact rationals here.
 */
module Statistics {
  import opened Tally
  import opened SimulationTypes

  // ----------------------------------------------------------- distribution

  /** Each observed value maps to the fraction of samples equal to it. */
  function DistributionOf(values: seq<int>): (dist: map<int, real>)
    ensures |values| == 0 ==> dist == map[]
    ensures forall v :: v in dist <==> v in values
  {
    map v | v in values :: Occurrences(values, v) as real / |values| as real
  }

  lemma {:induction false} OccurrencesBounds(s: seq<int>, v: int)
    ensures Occurrences(s, v) <= |s|
    ensures v in s ==> Occurrences(s, v) >= 1
  {
    if |s| > 0 {
      var p := s[..|s| - 1];
      assert s == p + [s[|s| - 1]];
      assert multiset(s) == multiset(p) + multiset{s[|s| - 1]};
      OccurrencesBounds(p, v);
    }
  }

  /** Every probability in the table is positive and at most 1. */
  lemma DistributionProbabilities(values: seq<int>)
    ensures forall v :: v in DistributionOf(values) ==> 0.0 < DistributionOf(values)[v] <= 1.0
  {
    forall v | v in DistributionOf(values)
      ensures 0.0 < DistributionOf(values)[v] <= 1.0
    {
      OccurrencesBounds(values, v);
      FractionBounds(Occurrences(values, v), |values|);
    }
  }

  lemma FractionBounds(a: int, n: int)
    requires 1 <= a <= n
    ensures 0.0 < a as real / n as real <= 1.0
  {
  }

  /**
   * Counts each value's occurrences into a table; `keys` is the table's
   * insertion order, the order in which its entries are later visited.
   */
  method FrequencyTable(values: seq<int>) returns (frequency: map<int, nat>, keys: seq<int>)
    ensures keys == Dedup(values)
    ensures forall x :: x in frequency <==> x in values
    ensures forall x :: x in frequency ==> frequency[x] == Occurrences(values, x)
  {
    frequency := map[];
    keys := [];
    for i := 0 to |values|
      invariant keys == Dedup(values[..i])
      invariant IsCountTable(values[..i], frequency)
    {
      var value := values[i];
      DedupGrows(values, i);
      CountStep(values, i, frequency);
      var count := if value in frequency then frequency[value] else 0;
      if value !in frequency {
        keys := keys + [value];
      }
      frequency := frequency[value := count + 1];
    }
    assert values[..|values|] == values;
  }

  /** `counts` holds, for each value of `s` and nothing else, its number of occurrences. */
  ghost predicate IsCountTable(s: seq<int>, counts: map<int, nat>)
  {
    (forall x :: x in counts <==> x in s)
    && (forall x :: x in counts ==> counts[x] == Occurrences(s, x))
  }

  /** Counting `values[i]` into a table of the counts of `values[..i]` gives the counts of `values[..i+1]`. */
  lemma CountStep(values: seq<int>, i: nat, counts: map<int, nat>)
    requires i < |values|
    requires IsCountTable(values[..i], counts)
    ensures values[i] in values[..i] <==> values[i] in counts
    ensures IsCountTable(values[..i + 1],
                         counts[values[i] := (if values[i] in counts then counts[values[i]] else 0) + 1])
  {
    PrefixGrows(values, i);
    var v := values[i];
    var next := counts[v := (if v in counts then counts[v] else 0) + 1];
    forall x | x in next
      ensures next[x] == Occurrences(values[..i + 1], x)
    {
      if x == v {
        assert Occurrences(values[..i + 1], x) == Occurrences(values[..i], x) + 1;
      } else {
        assert Occurrences(values[..i + 1], x) == Occurrences(values[..i], x);
      }
    }
  }

  /**
   * Counts each value's occurrences into a table, then visits the table's
   * entries in insertion order turning every count into a probability.
   */
  method BuildDistribution(values: seq<int>) returns (distribution: map<int, real>)
    ensures distribution == DistributionOf(values)
  {
    distribution := map[];
    var total := |values|;
    if total == 0 {
      return;
    }
    var frequency, keys := FrequencyTable(values);
    for j := 0 to |keys|
      invariant forall x :: x in distribution <==> x in keys[..j]
      invariant forall x :: x in distribution ==> distribution[x] == Occurrences(values, x) as real / total as real
    {
      var value := keys[j];
      assert keys[..j + 1] == keys[..j] + [value];
      distribution := distribution[value := frequency[value] as real / total as real];
    }
    assert keys[..|keys|] == keys;
    IsDistributionOf(values, distribution);
  }

  lemma IsDistributionOf(values: seq<int>, dist: map<int, real>)
    requires forall x :: x in dist <==> x in values
    requires forall x :: x in dist ==> dist[x] == Occurrences(values, x) as real / |values| as real
    ensures dist == DistributionOf(values)
  {
  }

  /** The sum of `m`'s entries for the keys `ks`, in the order of `ks`. */
  function SumOver(ks: seq<int>, m: map<int, real>): real
    requires forall i :: 0 <= i < |ks| ==> ks[i] in m
  {
    if |ks| == 0 then 0.0
    else
      SumOver(ks[..|ks| - 1], m) + m[ks[|ks| - 1]]
  }

  /** The total number of occurrences in `s` of the keys `ks`. */
  function CountSum(ks: seq<int>, s: seq<int>): int
  {
    if |ks| == 0 then 0 else CountSum(ks[..|ks| - 1], s) + Occurrences(s, ks[|ks| - 1])
  }

  lemma {:induction false} CountSumAppendSample(ks: seq<int>, s: seq<int>, y: int)
    requires Distinct(ks)
    ensures CountSum(ks, s + [y]) == CountSum(ks, s) + (if y in ks then 1 else 0)
  {
    if |ks| > 0 {
      var p := ks[..|ks| - 1];
      assert ks == p + [ks[|ks| - 1]];
      assert multiset(s + [y]) == multiset(s) + multiset{y};
      CountSumAppendSample(p, s, y);
    }
  }

  /** Every sample is counted exactly once by its own key. */
  lemma {:induction false} CountSumOverDedup(s: seq<int>)
    ensures CountSum(Dedup(s), s) == |s|
  {
    if |s| > 0 {
      var p := s[..|s| - 1];
      var y := s[|s| - 1];
      assert s == p + [y];
      CountSumOverDedup(p);
      CountSumAppendSample(Dedup(p), p, y);
      if y !in p {
        var d := Dedup(p) + [y];
        assert d[..|d| - 1] == Dedup(p);
        assert multiset(s) == multiset(p) + multiset{y};
      }
    }
  }

  lemma {:induction false} SumOverIsCountSum(ks: seq<int>, s: seq<int>)
    requires |s| > 0
    requires forall i :: 0 <= i < |ks| ==> ks[i] in s
    ensures SumOver(ks, DistributionOf(s)) == CountSum(ks, s) as real / |s| as real
  {
    if |ks| > 0 {
      var p := ks[..|ks| - 1];
      SumOverIsCountSum(p, s);
      AddFractions(CountSum(p, s) as real, Occurrences(s, ks[|ks| - 1]) as real, |s| as real);
    }
  }

  lemma AddFractions(a: real, b: real, n: real)
    requires n > 0.0
    ensures a / n + b / n == (a + b) / n
  {
  }

  /** Over a non-empty sample, the probabilities, in the table's iteration order, add up to exactly 1. */
  lemma ProbabilitiesSumToOne(values: seq<int>)
    requires |values| > 0
    ensures SumOver(Dedup(values), DistributionOf(values)) == 1.0
  {
    var keys := Dedup(values);
    var dist := DistributionOf(values);
    assert forall i :: 0 <= i < |keys| ==> keys[i] in values;
    SumOverIsCountSum(keys, values);
    CountSumOverDedup(values);
    assert SumOver(keys, dist) == CountSum(keys, values) as real / |values| as real;
    WholeFraction(|values| as real);
  }

  lemma WholeFraction(n: real)
    requires n > 0.0
    ensures n / n == 1.0
  {
  }

  // ------------------------------------------------------------------ mode

  /**
   * `m` is the mode of `values`: 0 for no values; otherwise a value no other
   * value outnumbers, and every value met before its first occurrence is
   * strictly rarer (ties go to the value seen first).
   */
  ghost predicate IsModeOf(values: seq<int>, m: int)
  {
    if |values| == 0 then m == 0
    else
      && m in values
      && (forall i :: 0 <= i < |values| ==> Occurrences(values, values[i]) <= Occurrences(values, m))
      && (forall i :: 0 <= i < FirstIndex(values, m) ==> Occurrences(values, values[i]) < Occurrences(values, m))
  }

  /** There is only one mode. */
  lemma ModeUnique(values: seq<int>, m1: int, m2: int)
    requires IsModeOf(values, m1) && IsModeOf(values, m2)
    ensures m1 == m2
  {
    if |values| > 0 {
      var f1 := FirstIndex(values, m1);
      var f2 := FirstIndex(values, m2);
      assert Occurrences(values, values[f2]) <= Occurrences(values, m1);
      assert Occurrences(values, values[f1]) <= Occurrences(values, m2);
      assert f1 == f2;
    }
  }

  /** The first key of the first-seen order that reaches the highest count is the mode. */
  lemma FirstMostFrequentIsMode(values: seq<int>, mi: nat)
    requires |values| > 0
    requires mi < |Dedup(values)|
    requires forall t :: 0 <= t < |Dedup(values)| ==> Occurrences(values, Dedup(values)[t]) <= Occurrences(values, Dedup(values)[mi])
    requires forall t :: 0 <= t < mi ==> Occurrences(values, Dedup(values)[t]) < Occurrences(values, Dedup(values)[mi])
    ensures IsModeOf(values, Dedup(values)[mi])
  {
    var keys := Dedup(values);
    var m := keys[mi];
    forall i | 0 <= i < |values|
      ensures Occurrences(values, values[i]) <= Occurrences(values, m)
      ensures i < FirstIndex(values, m) ==> Occurrences(values, values[i]) < Occurrences(values, m)
    {
      assert values[i] in keys;
      var t :| 0 <= t < |keys| && keys[t] == values[i];
      if i < FirstIndex(values, m) {
        if t > mi {
          DedupFirstSeenOrder(values, mi, t);
        }
        assert FirstIndex(values, values[i]) <= i;
      }
    }
  }

  /** The most frequent value, ties going to the value seen first; 0 for no values. */
  method CalculateMode(values: seq<int>) returns (mode: int)
    ensures IsModeOf(values, mode)
  {
    if |values| == 0 {
      return 0;
    }
    var frequency, keys := FrequencyTable(values);
    assert forall t :: 0 <= t < |keys| ==> keys[t] in values;
    var maxFreq := 0;
    mode := values[0];
    ghost var mi := 0;
    for j := 0 to |keys|
      invariant j == 0 ==> maxFreq == 0
      invariant mi <= j
      invariant j > 0 ==> mi < j && mode == keys[mi] && maxFreq == Occurrences(values, keys[mi])
      invariant forall t :: 0 <= t < j ==> Occurrences(values, keys[t]) <= maxFreq
      invariant forall t :: 0 <= t < mi ==> Occurrences(values, keys[t]) < maxFreq
    {
      var value := keys[j];
      var freq := frequency[value];
      if freq > maxFreq {
        maxFreq := freq;
        mode := value;
        mi := j;
      }
    }
    FirstMostFrequentIsMode(values, mi);
  }

  // ----------------------------------------------------- mean and variance

  function Mean(values: seq<int>): real
    requires |values| >= 1
  {
    Sum(values) as real / |values| as real
  }

  /** The sum of squared deviations from `mean`. */
  function SquaredDeviations(values: seq<int>, mean: real): (r: real)
    ensures r >= 0.0
  {
    if |values| == 0 then 0.0
    else
      var dev := values[|values| - 1] as real - mean;
      assert dev * dev >= 0.0;
      SquaredDeviations(values[..|values| - 1], mean) + dev * dev
  }

  /** The population variance. */
  function Variance(values: seq<int>): (v: real)
    requires |values| >= 1
    ensures v >= 0.0
  {
    SquaredDeviations(values, Mean(values)) / |values| as real
  }

  lemma {:induction false} SumBounds(s: seq<int>, lo: int, hi: int)
    requires forall i :: 0 <= i < |s| ==> lo <= s[i] <= hi
    ensures |s| * lo <= Sum(s) <= |s| * hi
  {
    if |s| > 0 {
      var p := s[..|s| - 1];
      SumBounds(p, lo, hi);
      assert |s| * lo == |p| * lo + lo;
      assert |s| * hi == |p| * hi + hi;
    }
  }

  /** The mean lies between any lower and upper bound of the samples. */
  lemma MeanBounds(values: seq<int>, lo: int, hi: int)
    requires |values| >= 1
    requires forall i :: 0 <= i < |values| ==> lo <= values[i] <= hi
    ensures lo as real <= Mean(values) <= hi as real
  {
    SumBounds(values, lo, hi);
    var n := |values| as real;
    var t := Sum(values) as real;
    assert (|values| * lo) as real == n * lo as real;
    assert (|values| * hi) as real == n * hi as real;
    QuotientBetween(t, n, lo as real, hi as real);
  }

  lemma QuotientBetween(t: real, n: real, lo: real, hi: real)
    requires n > 0.0 && n * lo <= t <= n * hi
    ensures lo <= t / n <= hi
  {
    assert t / n - lo == (t - n * lo) / n;
    assert hi - t / n == (n * hi - t) / n;
    NonNegativeQuotient(t - n * lo, n);
    NonNegativeQuotient(n * hi - t, n);
  }

  lemma NonNegativeQuotient(x: real, n: real)
    requires x >= 0.0 && n > 0.0
    ensures x / n >= 0.0
  {
  }

  // ------------------------------------------------------------ percentiles

  /**
   * The value at fractional position `scaled / 100` of `sorted`, linearly
   * interpolated between the neighbouring elements.  `scaled` is
   * `p * (n - 1)`, so the position is `(p / 100) * (n - 1)`: its floor is
   * `scaled / 100`, it is whole when `scaled % 100 == 0`, and its fractional
   * part (the weight) is `(scaled % 100) / 100`.
   */
  function Interpolate(sorted: seq<int>, scaled: int): (r: real)
    requires |sorted| >= 1 && 0 <= scaled <= 100 * (|sorted| - 1)
    ensures scaled % 100 == 0 ==> r == sorted[scaled / 100] as real
    ensures Sorted(sorted) && scaled % 100 != 0 ==>
              sorted[scaled / 100] as real <= r <= sorted[scaled / 100 + 1] as real
  {
    var lower := scaled / 100;
    var upper := if scaled % 100 == 0 then lower else lower + 1;
    var weight := (scaled % 100) as real / 100.0;
    if lower == upper then sorted[lower] as real
    else
      var lo := sorted[lower] as real;
      var hi := sorted[upper] as real;
      var r := lo * (1.0 - weight) + hi * weight;
      assert r - lo == weight * (hi - lo);
      assert hi - r == (1.0 - weight) * (hi - lo);
      assert Sorted(sorted) ==> weight * (hi - lo) >= 0.0 && (1.0 - weight) * (hi - lo) >= 0.0 by {
        if Sorted(sorted) {
          ProductNonNegative(weight, hi - lo);
          ProductNonNegative(1.0 - weight, hi - lo);
        }
      }
      r
  }

  lemma ProductNonNegative(a: real, b: real)
    requires a >= 0.0 && b >= 0.0
    ensures a * b >= 0.0
  {
  }

  lemma ScaledIndexBounds(n: int, p: int)
    requires n >= 1 && 0 <= p <= 100
    ensures 0 <= p * (n - 1) <= 100 * (n - 1)
  {
    ScaledOrder(0, p, n - 1);
    ScaledOrder(p, 100, n - 1);
  }

  /** The `p`-th percentile of an ascending sequence; 0 for an empty one. */
  function Percentile(sorted: seq<int>, p: int): (r: real)
    requires 0 <= p <= 100
    ensures |sorted| == 0 ==> r == 0.0
    ensures |sorted| >= 1 && Sorted(sorted) ==> sorted[0] as real <= r <= sorted[|sorted| - 1] as real
  {
    if |sorted| == 0 then 0.0
    else
      ScaledIndexBounds(|sorted|, p);
      var r := Interpolate(sorted, p * (|sorted| - 1));
      assert Sorted(sorted) ==> sorted[0] as real <= r <= sorted[|sorted| - 1] as real by {
        if Sorted(sorted) {
          var k := p * (|sorted| - 1);
          assert k / 100 <= |sorted| - 1;
          if k % 100 != 0 {
            assert k / 100 < |sorted| - 1;
          }
        }
      }
      r
  }

  /** Interpolation in an ascending sequence never decreases as the position grows. */
  lemma InterpolateMonotone(sorted: seq<int>, k1: int, k2: int)
    requires Sorted(sorted) && |sorted| >= 1
    requires 0 <= k1 <= k2 <= 100 * (|sorted| - 1)
    ensures Interpolate(sorted, k1) <= Interpolate(sorted, k2)
  {
    var l1, f1 := k1 / 100, k1 % 100;
    var l2, f2 := k2 / 100, k2 % 100;
    var r1, r2 := Interpolate(sorted, k1), Interpolate(sorted, k2);
    // r1 lies at or below the upper end of its cell, r2 at or above the lower end of its own
    var top1 := if f1 == 0 then l1 else l1 + 1;
    assert top1 < |sorted| && r1 <= sorted[top1] as real;
    assert sorted[l2] as real <= r2;
    if top1 <= l2 {
      assert sorted[top1] <= sorted[l2];
    } else {
      // both positions fall strictly inside the same cell
      assert l1 == l2 && 0 < f1 <= f2;
      var lo, hi := sorted[l1] as real, sorted[l1 + 1] as real;
      var w1, w2 := f1 as real / 100.0, f2 as real / 100.0;
      assert r1 == lo * (1.0 - w1) + hi * w1;
      assert r2 == lo * (1.0 - w2) + hi * w2;
      assert sorted[l1] <= sorted[l1 + 1];
      LerpMonotone(lo, hi, w1, w2);
    }
  }

  /** Moving the weight towards the upper end never lowers a linear interpolation. */
  lemma LerpMonotone(lo: real, hi: real, w1: real, w2: real)
    requires lo <= hi && w1 <= w2
    ensures lo * (1.0 - w1) + hi * w1 <= lo * (1.0 - w2) + hi * w2
  {
    assert (lo * (1.0 - w2) + hi * w2) - (lo * (1.0 - w1) + hi * w1) == (w2 - w1) * (hi - lo);
    ProductNonNegative(w2 - w1, hi - lo);
  }

  /** Scaling preserves order: `p * m <= q * m` for `p <= q` and `m >= 0`. */
  lemma {:induction false} ScaledOrder(p: int, q: int, m: nat)
    requires p <= q
    ensures p * m <= q * m
  {
    if m > 0 {
      ScaledOrder(p, q, m - 1);
      assert p * m == p * (m - 1) + p;
      assert q * m == q * (m - 1) + q;
    }
  }

  /** A higher percentile of an ascending sequence is never smaller. */
  lemma PercentileMonotone(sorted: seq<int>, p: int, q: int)
    requires Sorted(sorted)
    requires 0 <= p <= q <= 100
    ensures Percentile(sorted, p) <= Percentile(sorted, q)
  {
    if |sorted| >= 1 {
      var m := |sorted| - 1;
      ScaledIndexBounds(|sorted|, q);
      ScaledOrder(p, q, m);
      InterpolateMonotone(sorted, p * m, q * m);
    }
  }

  // --------------------------------------------------------------- summary

  /** `s` is the statistical summary of `values`, computed on their ascending copy. */
  ghost predicate IsSummaryOf(values: seq<int>, s: StatisticalSummary)
  {
    && |values| >= 1
    && var sorted := SortedCopy(values);
    && s.mean == Mean(values)
    && s.variance == Variance(values)
    && IsModeOf(values, s.mode)
    && s.min == sorted[0]
    && s.max == sorted[|values| - 1]
    && s.median == Percentile(sorted, 50)
    && s.percentiles == Percentiles(Percentile(sorted, 25), Percentile(sorted, 50), Percentile(sorted, 75),
                                    Percentile(sorted, 90), Percentile(sorted, 95))
  }

  /** The summary of a sample is unique. */
  lemma SummaryUnique(values: seq<int>, s1: StatisticalSummary, s2: StatisticalSummary)
    requires IsSummaryOf(values, s1) && IsSummaryOf(values, s2)
    ensures s1 == s2
  {
    ModeUnique(values, s1.mode, s2.mode);
  }

  lemma SortedBetween(s: seq<int>, k: int)
    requires Sorted(s) && 0 <= k < |s|
    ensures s[0] <= s[k] <= s[|s| - 1]
  {
  }

  /** The first and last elements of the ascending copy are the smallest and largest sample. */
  lemma SortedCopyExtremes(values: seq<int>)
    requires |values| >= 1
    ensures SortedCopy(values)[0] in values && SortedCopy(values)[|values| - 1] in values
    ensures forall i :: 0 <= i < |values| ==> SortedCopy(values)[0] <= values[i] <= SortedCopy(values)[|values| - 1]
  {
    var sorted := SortedCopy(values);
    assert sorted[0] in sorted && sorted[|values| - 1] in sorted;
    forall i | 0 <= i < |values|
      ensures sorted[0] <= values[i] <= sorted[|values| - 1]
    {
      var x := values[i];
      assert x in values;
      assert x in sorted;
      var k :| 0 <= k < |sorted| && sorted[k] == x;
      SortedBetween(sorted, k);
    }
  }

  /**
   * What a summary promises: the extremes are samples bounding every sample,
   * the mean lies between them, the variance is non-negative, the median is
   * the 50th percentile, and the percentiles ascend from min to max.
   */
  lemma SummaryFacts(values: seq<int>, s: StatisticalSummary)
    requires IsSummaryOf(values, s)
    ensures s.min in values && s.max in values
    ensures forall i :: 0 <= i < |values| ==> s.min <= values[i] <= s.max
    ensures s.min as real <= s.mean <= s.max as real
    ensures s.variance >= 0.0
    ensures s.median == s.percentiles.p50
    ensures s.min as real <= s.percentiles.p25 <= s.percentiles.p50 <= s.percentiles.p75
                          <= s.percentiles.p90 <= s.percentiles.p95 <= s.max as real
  {
    var sorted := SortedCopy(values);
    SortedCopyExtremes(values);
    MeanBounds(values, s.min, s.max);
    PercentileMonotone(sorted, 25, 50);
    PercentileMonotone(sorted, 50, 75);
    PercentileMonotone(sorted, 75, 90);
    PercentileMonotone(sorted, 90, 95);
  }

  /** Summary of a non-empty sample. */
  method CalculateStatistics(values: seq<int>) returns (s: StatisticalSummary)
    requires |values| >= 1
    ensures IsSummaryOf(values, s)
  {
    var sorted := SortedCopy(values);
    var n := |values|;
    var mean := Sum(values) as real / n as real;
    var variance := SquaredDeviations(values, mean) / n as real;
    var median := Percentile(sorted, 50);
    var mode := CalculateMode(values);
    var percentiles := Percentiles(Percentile(sorted, 25), median, Percentile(sorted, 75),
                                   Percentile(sorted, 90), Percentile(sorted, 95));
    s := StatisticalSummary(mean, median, mode, variance, sorted[0], sorted[n - 1], percentiles);
  }
}
