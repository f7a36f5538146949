/**
 * The timing analysis of loop mode (src/components/loop/LoopAnalysisPanel.jsx):
 * each timing deviation (whole milliseconds, negative = early) is classed as
 * early, on time or late and counted into an 11-bucket histogram of the
 * range -50..+50 ms; the panel shows rounded percentages and colours each
 * bucket by its distance from the centre.
 */
module LoopAnalysis {
  import JsNumbers

  /** `TIMING_THRESHOLDS` */
  const Perfect := 15
  const Good := 30
  const Acceptable := 50
  const BucketCount := 11

  datatype Timing = Early | OnTime | Late

  /** Earlier than -15 ms is early, later than +15 ms is late, anything else on time. */
  function Classify(deviation: int): (t: Timing)
    ensures t == Early <==> deviation < -Perfect
    ensures t == Late <==> deviation > Perfect
    ensures t == OnTime <==> -Perfect <= deviation <= Perfect
  {
    if deviation < -Perfect then Early
    else if deviation > Perfect then Late
    else OnTime
  }

  function Clamp(lo: int, hi: int, x: int): (y: int)
    requires lo <= hi
    ensures lo <= y <= hi
    ensures lo <= x <= hi ==> y == x
  {
    if x < lo then lo else if x > hi then hi else x
  }

  /** `Math.min(10, Math.floor((clamp(d, -50, 50) + 50) / 10))`: 10 ms buckets, outliers in the end buckets. */
  function Bucket(deviation: int): (b: int)
    ensures 0 <= b < BucketCount
    ensures deviation <= -50 ==> b == 0
    ensures deviation >= 50 ==> b == 10
    ensures -50 <= deviation < 50 ==> b * 10 - 50 <= deviation < b * 10 - 40
  {
    var clamped := Clamp(-50, 50, deviation);
    var index := JsNumbers.FloorDiv(clamped + 50, 10);
    if index < 10 then index else 10
  }

  /** How many deviations fall in class `t`. */
  function Count(ds: seq<int>, t: Timing): (n: nat)
    ensures n <= |ds|
  {
    if ds == [] then 0
    else Count(ds[..|ds| - 1], t) + (if Classify(ds[|ds| - 1]) == t then 1 else 0)
  }

  /** The summed deviation: all early hits sum to an early total, all late hits to a late one. */
  function Total(ds: seq<int>): (t: int)
    ensures (forall i :: 0 <= i < |ds| ==> ds[i] <= 0) ==> t <= 0
    ensures (forall i :: 0 <= i < |ds| ==> ds[i] >= 0) ==> t >= 0
  {
    if ds == [] then 0
    else
      assert forall i :: 0 <= i < |ds| - 1 ==> ds[..|ds| - 1][i] == ds[i];
      Total(ds[..|ds| - 1]) + ds[|ds| - 1]
  }

  lemma Distribute(m: int, x: int)
    ensures (m + 1) * x == m * x + x
  {
  }

  /** Deviations between `lo` and `hi` sum to between `|ds| * lo` and `|ds| * hi`. */
  lemma {:induction false} TotalBounds(ds: seq<int>, lo: int, hi: int)
    requires forall i :: 0 <= i < |ds| ==> lo <= ds[i] <= hi
    ensures |ds| * lo <= Total(ds) <= |ds| * hi
  {
    if ds != [] {
      var init := ds[..|ds| - 1];
      assert forall i :: 0 <= i < |init| ==> init[i] == ds[i];
      TotalBounds(init, lo, hi);
      Distribute(|init|, lo);
      Distribute(|init|, hi);
    }
  }

  lemma QuotientBounds(t: real, n: real, lo: real, hi: real)
    requires n > 0.0 && lo * n <= t <= hi * n
    ensures lo <= t / n <= hi
  {
    var mean := t / n;
    assert mean * n == t;
    if mean < lo {
      JsNumbers.MulLess(mean, lo, n);
    }
    if hi < mean {
      JsNumbers.MulLess(hi, mean, n);
    }
  }

  lemma CastProduct(m: int, x: int)
    ensures (m * x) as real == m as real * x as real
  {
  }

  /** A rounded mean of `n` values between `lo` and `hi` stays between them. */
  lemma MeanBetween(t: int, n: int, lo: int, hi: int)
    requires n > 0 && n * lo <= t <= n * hi
    ensures lo <= JsNumbers.Round(t as real / n as real) <= hi
  {
    CastProduct(n, lo);
    CastProduct(n, hi);
    var mean := t as real / n as real;
    QuotientBounds(t as real, n as real, lo as real, hi as real);
    JsNumbers.RoundMonotone(lo as real, mean);
    JsNumbers.RoundMonotone(mean, hi as real);
  }

  /** The shown mean deviation lies between the earliest and the latest hit. */
  lemma AverageBetweenExtremes(ds: seq<int>, lo: int, hi: int)
    requires |ds| > 0
    requires forall i :: 0 <= i < |ds| ==> lo <= ds[i] <= hi
    ensures lo <= StatsOf(ds).avgDeviation <= hi
  {
    TotalBounds(ds, lo, hi);
    MeanBetween(Total(ds), |ds|, lo, hi);
  }

  function Zeroes(): (h: seq<int>)
    ensures |h| == BucketCount && forall i :: 0 <= i < BucketCount ==> h[i] == 0
  {
    seq(BucketCount, _ => 0)
  }

  /** The histogram: bucket `k` counts the deviations whose bucket is `k`. */
  function HistogramOf(ds: seq<int>): (h: seq<int>)
    ensures |h| == BucketCount
    ensures forall k :: 0 <= k < BucketCount ==> h[k] >= 0
  {
    if ds == [] then Zeroes()
    else
      var h := HistogramOf(ds[..|ds| - 1]);
      var b := Bucket(ds[|ds| - 1]);
      h[b := h[b] + 1]
  }

  /** `Math.round(count / n * 100)` */
  function Percent(count: int, n: int): (p: int)
    requires n > 0
    ensures 0 <= count <= n ==> 0 <= p <= 100
    ensures p as real - 0.5 <= count as real / n as real * 100.0 < p as real + 0.5
  {
    ShareBounds(count, n);
    JsNumbers.Round(count as real / n as real * 100.0)
  }

  lemma ShareBounds(count: int, n: int)
    requires n > 0
    ensures 0 <= count <= n ==> 0.0 <= count as real / n as real <= 1.0
  {
    if 0 <= count <= n {
      JsNumbers.MulLess(count as real / n as real, 1.0, n as real);
    }
  }

  datatype Stats = Stats(early: int, onTime: int, late: int, avgDeviation: int, histogram: seq<int>)

  /** The panel's `stats`: all zeros for no input, percentages and a rounded mean otherwise. */
  function StatsOf(ds: seq<int>): (s: Stats)
    ensures |ds| == 0 ==> s == Stats(0, 0, 0, 0, Zeroes())
    ensures |s.histogram| == BucketCount
    ensures 0 <= s.early <= 100 && 0 <= s.onTime <= 100 && 0 <= s.late <= 100
  {
    if |ds| == 0 then Stats(0, 0, 0, 0, Zeroes())
    else
      var n := |ds|;
      Stats(Percent(Count(ds, Early), n), Percent(Count(ds, OnTime), n), Percent(Count(ds, Late), n),
            JsNumbers.Round(Total(ds) as real / n as real), HistogramOf(ds))
  }

  /**
   * The `forEach` that fills the counters and the histogram array in place,
   * followed by the rounding.
   */
  method ComputeStats(ds: seq<int>) returns (s: Stats)
    ensures s == StatsOf(ds)
  {
    if |ds| == 0 {
      return Stats(0, 0, 0, 0, Zeroes());
    }
    var early, onTime, late, totalDeviation := 0, 0, 0, 0;
    var histogram := new int[BucketCount](_ => 0);
    assert histogram[..] == Zeroes();
    for i := 0 to |ds|
      invariant early == Count(ds[..i], Early)
      invariant onTime == Count(ds[..i], OnTime)
      invariant late == Count(ds[..i], Late)
      invariant totalDeviation == Total(ds[..i])
      invariant histogram[..] == HistogramOf(ds[..i])
    {
      var deviation := ds[i];
      assert ds[..i + 1][..i] == ds[..i];
      totalDeviation := totalDeviation + deviation;
      if deviation < -Perfect {
        early := early + 1;
      } else if deviation > Perfect {
        late := late + 1;
      } else {
        onTime := onTime + 1;
      }
      var clamped := if deviation < -50 then -50 else if deviation > 50 then 50 else deviation;
      var bucketIndex := JsNumbers.FloorDiv(clamped + 50, 10);
      var slot := if bucketIndex < 10 then bucketIndex else 10;
      histogram[slot] := histogram[slot] + 1;
    }
    assert ds[..|ds|] == ds;
    var count := |ds|;
    s := Stats(Percent(early, count), Percent(onTime, count), Percent(late, count),
               JsNumbers.Round(totalDeviation as real / count as real), histogram[..]);
  }

  /** Every deviation is counted in exactly one class. */
  lemma {:induction false} CountsPartition(ds: seq<int>)
    ensures Count(ds, Early) + Count(ds, OnTime) + Count(ds, Late) == |ds|
  {
    if ds != [] {
      CountsPartition(ds[..|ds| - 1]);
    }
  }

  function Sum(h: seq<int>): int
  {
    if h == [] then 0 else h[0] + Sum(h[1..])
  }

  lemma {:induction false} SumIncrement(h: seq<int>, k: int)
    requires 0 <= k < |h|
    ensures Sum(h[k := h[k] + 1]) == Sum(h) + 1
  {
    if k > 0 {
      SumIncrement(h[1..], k - 1);
      assert h[k := h[k] + 1][1..] == h[1..][k - 1 := h[k] + 1];
    }
  }

  lemma {:induction false} SumZeroes(h: seq<int>)
    requires forall i :: 0 <= i < |h| ==> h[i] == 0
    ensures Sum(h) == 0
  {
    if h != [] {
      SumZeroes(h[1..]);
    }
  }

  /** Every deviation lands in exactly one bucket: the histogram sums to the input length. */
  lemma {:induction false} HistogramSums(ds: seq<int>)
    ensures Sum(HistogramOf(ds)) == |ds|
  {
    if ds == [] {
      SumZeroes(Zeroes());
    } else {
      HistogramSums(ds[..|ds| - 1]);
      SumIncrement(HistogramOf(ds[..|ds| - 1]), Bucket(ds[|ds| - 1]));
    }
  }

  /** Rounding each share separately keeps the three percentages within one of 100. */
  lemma PercentagesNearlyWhole(ds: seq<int>)
    requires |ds| > 0
    ensures 99 <= StatsOf(ds).early + StatsOf(ds).onTime + StatsOf(ds).late <= 101
  {
    var n := |ds|;
    var e, o, l := Count(ds, Early), Count(ds, OnTime), Count(ds, Late);
    CountsPartition(ds);
    SharesSum(e, o, l, n);
    var pe, po, pl := Percent(e, n), Percent(o, n), Percent(l, n);
    assert StatsOf(ds).early + StatsOf(ds).onTime + StatsOf(ds).late == pe + po + pl;
  }

  lemma SharesSum(e: int, o: int, l: int, n: int)
    requires n > 0 && e + o + l == n
    ensures e as real / n as real * 100.0 + o as real / n as real * 100.0 + l as real / n as real * 100.0 == 100.0
  {
    var r := n as real;
    assert e as real + o as real + l as real == r;
    assert e as real / r + o as real / r + l as real / r == (e as real + o as real + l as real) / r;
    assert r / r == 1.0;
  }

  datatype BarColor = PerfectColor | GoodColor | AcceptableColor | Missed

  /** `getBarColor`: by the distance of the bucket's centre from 0 ms. */
  function GetBarColor(bucketIndex: int): (c: BarColor)
    ensures c == PerfectColor <==> 4 <= bucketIndex <= 6
    ensures c == GoodColor <==> 2 <= bucketIndex <= 3 || 7 <= bucketIndex <= 8
    ensures c == AcceptableColor <==> 0 <= bucketIndex <= 1 || 9 <= bucketIndex <= 10
    ensures c == Missed <==> bucketIndex < 0 || bucketIndex > 10
  {
    var deviation := if bucketIndex * 10 - 50 < 0 then 50 - bucketIndex * 10 else bucketIndex * 10 - 50;
    if deviation <= Perfect then PerfectColor
    else if deviation <= Good then GoodColor
    else if deviation <= Acceptable then AcceptableColor
    else Missed
  }

  /** Early and late buckets at the same distance get the same colour. */
  lemma BarColorSymmetric(k: int)
    ensures GetBarColor(5 - k) == GetBarColor(5 + k)
  {
  }

  /** `Math.max(...histogram, 1)` */
  function MaxHistogramValue(h: seq<int>): (m: int)
    ensures m >= 1
    ensures forall i :: 0 <= i < |h| ==> h[i] <= m
    ensures m == 1 || m in h
  {
    if h == [] then 1
    else
      var rest := MaxHistogramValue(h[1..]);
      if h[0] > rest then h[0] else rest
  }
}
