/** Feature extraction over a flow series: the average night minimum, the number of
    night spikes and the longest plateau around 2.5 L/min. */
module Features {
  import opened Types
  import opened Utils

  /** Night-minimum window: offsets 4 up to (not including) 8 of each day, 02:00-03:30. */
  const NightStart: nat := 2 * 2
  const NightEnd: nat := 8
  /** Spike window: offsets 2 up to (not including) 10 of each day, 01:00-04:30. */
  const SpikeStart: nat := 2
  const SpikeEnd: nat := 10
  const SpikeThreshold: real := 1.2
  const SpikeRise: real := 0.6
  const PlateauLow: real := 2.2
  const PlateauHigh: real := 2.8

  function Flows(data: seq<DataPoint>): (fs: seq<real>)
    ensures |fs| == |data|
    ensures forall i :: 0 <= i < |data| ==> fs[i] == data[i].flow
  {
    seq(|data|, i requires 0 <= i < |data| => data[i].flow)
  }

  /** Math.min over a non-empty list: an element no larger than any other. */
  function MinOf(xs: seq<real>): (m: real)
    requires |xs| > 0
    ensures m in xs
    ensures forall x :: x in xs ==> m <= x
  {
    if |xs| == 1 then xs[0]
    else
      assert xs == [xs[0]] + xs[1..];
      Min(xs[0], MinOf(xs[1..]))
  }

  /** The largest element of a non-empty list. */
  function MaxOf(xs: seq<real>): (m: real)
    requires |xs| > 0
    ensures m in xs
    ensures forall x :: x in xs ==> x <= m
  {
    if |xs| == 1 then xs[0]
    else
      assert xs == [xs[0]] + xs[1..];
      Max(xs[0], MaxOf(xs[1..]))
  }

  function Sum(xs: seq<real>): real {
    if xs == [] then 0.0 else xs[0] + Sum(xs[1..])
  }

  function Mean(xs: seq<real>): real
    requires |xs| > 0
  {
    Sum(xs) / |xs| as real
  }

  lemma {:induction false} SumAtLeast(xs: seq<real>, lo: real)
    requires forall x :: x in xs ==> lo <= x
    ensures |xs| as real * lo <= Sum(xs)
  {
    if xs != [] {
      assert forall x :: x in xs[1..] ==> x in xs;
      assert xs[0] in xs;
      SumAtLeast(xs[1..], lo);
      var k := (|xs| - 1) as real;
      assert |xs| as real * lo == k * lo + lo;
    }
  }

  lemma {:induction false} SumAtMost(xs: seq<real>, hi: real)
    requires forall x :: x in xs ==> x <= hi
    ensures Sum(xs) <= |xs| as real * hi
  {
    if xs != [] {
      assert forall x :: x in xs[1..] ==> x in xs;
      assert xs[0] in xs;
      SumAtMost(xs[1..], hi);
      var k := (|xs| - 1) as real;
      assert |xs| as real * hi == k * hi + hi;
    }
  }

  /** An average lies between the smallest and the largest element. */
  lemma MeanBetween(xs: seq<real>)
    requires |xs| > 0
    ensures MinOf(xs) <= Mean(xs) <= MaxOf(xs)
  {
    MeanWithin(xs, MinOf(xs), MaxOf(xs));
  }

  lemma MeanWithin(xs: seq<real>, lo: real, hi: real)
    requires |xs| > 0
    requires forall x :: x in xs ==> lo <= x <= hi
    ensures lo <= Mean(xs) <= hi
  {
    SumAtLeast(xs, lo);
    SumAtMost(xs, hi);
    AverageBetween(Sum(xs), |xs| as real, lo, hi);
  }

  /** A total of n values each within [lo, hi] averages within [lo, hi]. */
  lemma AverageBetween(total: real, n: real, lo: real, hi: real)
    requires n > 0.0 && n * lo <= total <= n * hi
    ensures lo <= total / n <= hi
  {
    assert (n * lo) / n == lo;
    assert (n * hi) / n == hi;
  }

  /** The flows of day d's night-minimum window. */
  function NightWindow(data: seq<DataPoint>, d: nat): (w: seq<real>)
    requires d * StepsPerDay + NightEnd <= |data|
    ensures |w| == NightEnd - NightStart
  {
    Flows(data[d * StepsPerDay + NightStart .. d * StepsPerDay + NightEnd])
  }

  /** Every night window of the week lies inside the series. */
  predicate HasWeekOfNights(data: seq<DataPoint>) {
    6 * StepsPerDay + NightEnd <= |data|
  }

  /** The seven per-day night minima. */
  function NightMinima(data: seq<DataPoint>): (m: seq<real>)
    requires HasWeekOfNights(data)
    ensures |m| == 7
  {
    seq(7, d requires 0 <= d < 7 => MinOf(NightWindow(data, d)))
  }

  /** nightMinFlow: collect each day's night minimum, then average the seven and round
      to hundredths. The result lies within half a hundredth of a value between the
      smallest and the largest of the minima. */
  method NightMinFlow(data: seq<DataPoint>) returns (avg: real)
    requires HasWeekOfNights(data)
    ensures avg == ToFixed2(Mean(NightMinima(data)))
    ensures MinOf(NightMinima(data)) - 0.005 <= avg <= MaxOf(NightMinima(data)) + 0.005
  {
    var perDay: seq<real> := [];
    var d := 0;
    while d < 7
      invariant 0 <= d <= 7
      invariant perDay == NightMinima(data)[..d]
    {
      perDay := perDay + [MinOf(NightWindow(data, d))];
      d := d + 1;
    }
    assert perDay == NightMinima(data);
    MeanBetween(perDay);
    avg := ToFixed2(Sum(perDay) / |perDay| as real);
  }

  /** A night spike at i: above 1.2 L/min and more than 0.6 above both neighbours,
      which must exist. */
  predicate IsSpike(data: seq<DataPoint>, i: int) {
    && 1 <= i && i + 1 < |data|
    && data[i].flow > SpikeThreshold
    && data[i].flow > data[i - 1].flow + SpikeRise
    && data[i].flow > data[i + 1].flow + SpikeRise
  }

  /** Number of spikes at indices lo .. hi-1. */
  function SpikesIn(data: seq<DataPoint>, lo: int, hi: int): nat
    decreases hi - lo
  {
    if hi <= lo then 0
    else SpikesIn(data, lo, hi - 1) + (if IsSpike(data, hi - 1) then 1 else 0)
  }

  /** Spikes in the spike windows of the first `days` days. */
  function NightSpikes(data: seq<DataPoint>, days: nat): nat {
    if days == 0 then 0
    else NightSpikes(data, days - 1)
         + SpikesIn(data, (days - 1) * StepsPerDay + SpikeStart, (days - 1) * StepsPerDay + SpikeEnd)
  }

  /** A spike is higher than both neighbours, so the next index cannot be one. */
  lemma NoAdjacentSpikes(data: seq<DataPoint>, i: int)
    requires IsSpike(data, i)
    ensures !IsSpike(data, i + 1)
  {
  }

  /** Since spikes are never adjacent, a range of n indices holds at most (n + 1) / 2. */
  lemma {:induction false} SpikesInAtMostHalf(data: seq<DataPoint>, lo: int, hi: int)
    requires lo <= hi
    ensures SpikesIn(data, lo, hi) <= (hi - lo + 1) / 2
    decreases hi - lo
  {
    if hi - lo >= 2 {
      if IsSpike(data, hi - 1) {
        if IsSpike(data, hi - 2) { NoAdjacentSpikes(data, hi - 2); }
        SpikesInAtMostHalf(data, lo, hi - 2);
        assert SpikesIn(data, lo, hi - 1) == SpikesIn(data, lo, hi - 2);
      } else {
        SpikesInAtMostHalf(data, lo, hi - 1);
      }
    } else if hi - lo == 1 {
      assert SpikesIn(data, lo, hi - 1) == 0;
    }
  }

  /** At most four spikes fit in a day's eight-sample window. */
  lemma {:induction false} NightSpikesAtMostFourADay(data: seq<DataPoint>, days: nat)
    ensures NightSpikes(data, days) <= 4 * days
  {
    if days > 0 {
      NightSpikesAtMostFourADay(data, days - 1);
      var base := (days - 1) * StepsPerDay;
      SpikesInAtMostHalf(data, base + SpikeStart, base + SpikeEnd);
    }
  }

  /** No sample of a range above the 1.2 L/min threshold means no spike in it. */
  lemma {:induction false} QuietRangeHasNoSpikes(data: seq<DataPoint>, lo: int, hi: int)
    requires forall i :: lo <= i < hi && 0 <= i < |data| ==> data[i].flow <= SpikeThreshold
    ensures SpikesIn(data, lo, hi) == 0
    decreases hi - lo
  {
    if lo < hi { QuietRangeHasNoSpikes(data, lo, hi - 1); }
  }

  /** Samples at offsets 2..9 of a day, the spike windows, never above 1.2 L/min. */
  predicate QuietNights(data: seq<DataPoint>) {
    forall i :: 0 <= i < |data| && SpikeStart <= i % StepsPerDay < SpikeEnd ==> data[i].flow <= SpikeThreshold
  }

  /** With quiet spike windows, no night spike is counted. */
  lemma {:induction false} QuietNightsHaveNoSpikes(data: seq<DataPoint>, days: nat)
    requires QuietNights(data)
    ensures NightSpikes(data, days) == 0
  {
    if days > 0 {
      QuietNightsHaveNoSpikes(data, days - 1);
      var base := (days - 1) * StepsPerDay;
      forall i | base + SpikeStart <= i < base + SpikeEnd && 0 <= i < |data|
        ensures data[i].flow <= SpikeThreshold
      {
        assert i % StepsPerDay == i - base;
      }
      QuietRangeHasNoSpikes(data, base + SpikeStart, base + SpikeEnd);
    }
  }

  /** countNightSpikes: for each of the 7 days, test indices 2..9 of the day. Spikes are
      never adjacent, so at most four per day are counted. */
  method CountNightSpikes(data: seq<DataPoint>) returns (spikes: nat)
    ensures spikes == NightSpikes(data, 7)
    ensures spikes <= 28
  {
    spikes := 0;
    var d := 0;
    while d < 7
      invariant 0 <= d <= 7
      invariant spikes == NightSpikes(data, d)
    {
      var i := d * StepsPerDay + SpikeStart;
      while i < d * StepsPerDay + SpikeEnd
        invariant d * StepsPerDay + SpikeStart <= i <= d * StepsPerDay + SpikeEnd
        invariant spikes == NightSpikes(data, d) + SpikesIn(data, d * StepsPerDay + SpikeStart, i)
      {
        if 0 <= i < |data| && data[i].flow > SpikeThreshold && 0 <= i - 1 && i + 1 < |data|
           && data[i].flow > data[i - 1].flow + SpikeRise && data[i].flow > data[i + 1].flow + SpikeRise {
          spikes := spikes + 1;
        }
        i := i + 1;
      }
      d := d + 1;
    }
    NightSpikesAtMostFourADay(data, 7);
  }

  predicate InBand(x: real) {
    PlateauLow <= x <= PlateauHigh
  }

  /** The `len` samples from index j on all have flow within [2.2, 2.8]. */
  predicate PlateauAt(data: seq<DataPoint>, j: nat, len: nat)
    requires j + len <= |data|
  {
    forall k :: j <= k < j + len ==> InBand(data[k].flow)
  }

  /** Length of the in-band run that ends just before index e. */
  function RunEnding(data: seq<DataPoint>, e: nat): (n: nat)
    requires e <= |data|
    ensures n <= e
  {
    if e == 0 || !InBand(data[e - 1].flow) then 0 else RunEnding(data, e - 1) + 1
  }

  /** The run ending before e is a plateau ... */
  lemma {:induction false} RunEndingIsPlateau(data: seq<DataPoint>, e: nat)
    requires e <= |data|
    ensures PlateauAt(data, e - RunEnding(data, e), RunEnding(data, e))
  {
    if e > 0 && InBand(data[e - 1].flow) {
      RunEndingIsPlateau(data, e - 1);
    }
  }

  /** ... and no plateau ending there is longer. */
  lemma {:induction false} RunEndingIsLongest(data: seq<DataPoint>, j: nat, e: nat)
    requires j <= e <= |data| && PlateauAt(data, j, e - j)
    ensures e - j <= RunEnding(data, e)
  {
    if j < e {
      assert InBand(data[e - 1].flow);
      assert PlateauAt(data, j, e - 1 - j);
      RunEndingIsLongest(data, j, e - 1);
    }
  }

  /** longestPlateau: the length of the longest run of consecutive in-band samples. */
  method LongestPlateau(data: seq<DataPoint>) returns (maxLen: nat)
    ensures maxLen <= |data|
    ensures exists j: nat :: j + maxLen <= |data| && PlateauAt(data, j, maxLen)
    ensures forall j: nat, len: nat :: j + len <= |data| && PlateauAt(data, j, len) ==> len <= maxLen
  {
    maxLen := 0;
    var cur: nat := 0;
    ghost var start: nat := 0;
    var i := 0;
    while i < |data|
      invariant 0 <= i <= |data|
      invariant cur == RunEnding(data, i)
      invariant cur <= maxLen
      invariant start + maxLen <= i && PlateauAt(data, start, maxLen)
      invariant forall j: nat, len: nat :: j + len <= i && PlateauAt(data, j, len) ==> len <= maxLen
    {
      var p := data[i];
      if PlateauLow <= p.flow && p.flow <= PlateauHigh {
        cur := cur + 1;
        if cur > maxLen {
          maxLen := cur;
          start := i + 1 - cur;
          RunEndingIsPlateau(data, i + 1);
        }
      } else {
        cur := 0;
      }
      forall j: nat, len: nat | j + len <= i + 1 && PlateauAt(data, j, len)
        ensures len <= maxLen
      {
        if j + len == i + 1 {
          RunEndingIsLongest(data, j, i + 1);
        }
      }
      i := i + 1;
    }
  }
}
