/** What the generated series lets the probes and the features see. In the small hours
    (offsets 1-10 of a day, 00:30-05:00) the household baseline has no morning or
    evening bump, so the night samples carry the leak's signature almost bare: the
    nightline probe separates background and irrigation leaks from the rest, and only a
    toilet flapper can produce night spikes. */
module Diagnostics {
  import opened Types
  import opened Utils
  import G = Generator
  import F = Features
  import H = Hints

  /** The series genCase produces for `truth` from the given draws. */
  predicate Generated(truth: Flags, data: seq<DataPoint>, draws: seq<G.Draws>, exp: real -> real) {
    && OneHot(truth)
    && G.ValidNoise(draws)
    && |data| == G.SeriesLength
    && forall i :: 0 <= i < |data| ==> data[i] == G.Sample(truth, i, draws[i], exp)
  }

  /** Between 00:30 and 05:00 the baseline is 0.2 plus noise: within [0.1, 0.3). */
  lemma NightBase(mins: int, u: real, exp: real -> real)
    requires 30 <= mins <= 300 && 0.0 <= u < 1.0
    ensures 0.1 <= G.BaseProfile(mins, u, exp) < 0.3
  {
    var h := mins as real / 60.0;
    assert h <= 5.0;
  }

  /** Bounds on a sample at offsets 1-10 of its day, before rounding. Every sample is at
      least 0.1; without a flapper it is at most 1.0; with no leak, a tank leak (whose
      window is at midday) or a flapper on an odd index it is at most 0.4; a background
      leak puts it in [0.6, 0.9), an irrigation leak inside its window in [0.7, 1.0). */
  lemma NightRawBounds(truth: Flags, idx: nat, w: G.Draws, exp: real -> real, raw: real)
    requires OneHot(truth) && G.ValidDraws(w)
    requires 1 <= idx % StepsPerDay <= 10
    requires var mins := (idx % StepsPerDay) * 30;
      raw == Clamp(G.BaseProfile(mins, w.base, exp) + G.LeakContribution(truth, idx, mins, w)
                   + w.jitter * 0.1, 0.0, 8.0)
    ensures 0.1 <= raw
    ensures !truth.leakToilet ==> raw < 1.0
    ensures truth.noLeak || truth.leakTank || (truth.leakToilet && idx % 2 == 1) ==> raw < 0.4
    ensures truth.leakBackground ==> 0.6 <= raw < 0.9
    ensures truth.leakIrrigation && 4 <= idx % StepsPerDay ==> 0.7 <= raw
  {
    var mins := (idx % StepsPerDay) * 30;
    NightBase(mins, w.base, exp);
    G.LeakSignature(truth, idx, mins, w);
  }

  /** The same bounds on the rounded flow genCase stores. */
  lemma NightSample(truth: Flags, idx: nat, w: G.Draws, exp: real -> real)
    requires OneHot(truth) && G.ValidDraws(w)
    requires 1 <= idx % StepsPerDay <= 10
    ensures var f := G.Sample(truth, idx, w, exp).flow;
      && 0.1 <= f
      && (!truth.leakToilet ==> f <= 1.0)
      && (truth.noLeak || truth.leakTank || (truth.leakToilet && idx % 2 == 1) ==> f <= 0.4)
      && (truth.leakBackground ==> 0.6 <= f <= 0.9)
      && (truth.leakIrrigation && 4 <= idx % StepsPerDay ==> 0.7 <= f)
  {
    var mins := (idx % StepsPerDay) * 30;
    var raw := Clamp(G.BaseProfile(mins, w.base, exp) + G.LeakContribution(truth, idx, mins, w)
                     + w.jitter * 0.1, 0.0, 8.0);
    NightRawBounds(truth, idx, w, exp, raw);
    assert G.Sample(truth, idx, w, exp).flow == ToFixed2(raw);
    if truth.leakBackground {
      ToFixed2Bounded(raw, 60, 90);
    } else if truth.leakIrrigation {
      ToFixed2Bounded(raw, 10, 100);
      if 4 <= idx % StepsPerDay {
        ToFixed2Bounded(raw, 70, 100);
      }
    } else if truth.leakToilet && idx % 2 == 0 {
      ToFixed2Bounded(raw, 10, 800);
    } else {
      ToFixed2Bounded(raw, 10, 40);
    }
  }

  /** The bounds a day's night minimum obeys for each kind of truth. */
  predicate MinimumFits(truth: Flags, m: real) {
    && (truth.leakBackground ==> 0.6 <= m <= 0.9)
    && (truth.leakIrrigation ==> 0.7 <= m <= 1.0)
    && (!truth.leakBackground && !truth.leakIrrigation ==> 0.1 <= m <= 0.4)
  }

  /** Element k of day d's night window is the flow of sample d * 48 + 4 + k, whose
      offset in its day is 4 + k. */
  lemma WindowSample(truth: Flags, data: seq<DataPoint>, draws: seq<G.Draws>, exp: real -> real,
                     d: nat, k: nat)
    requires Generated(truth, data, draws, exp) && d < 7 && k < 4
    ensures var idx := d * StepsPerDay + 4 + k;
      && idx % StepsPerDay == 4 + k
      && F.NightWindow(data, d)[k] == G.Sample(truth, idx, draws[idx], exp).flow
  {
    var start := d * StepsPerDay + 4;
    var idx := start + k;
    assert idx < |data|;
    var w := data[start .. start + 4];
    assert F.NightWindow(data, d) == F.Flows(w);
    assert w[k] == data[idx];
    assert data[idx] == G.Sample(truth, idx, draws[idx], exp);
    G.DayOffset(d, 4 + k);
  }

  /** The bounds the flow at offset 4 + k of a day obeys. */
  predicate WindowFits(truth: Flags, f: real, k: nat) {
    && 0.1 <= f
    && (truth.leakBackground ==> 0.6 <= f <= 0.9)
    && (truth.leakIrrigation ==> 0.7 <= f <= 1.0)
    && (truth.noLeak || truth.leakTank || (truth.leakToilet && k == 1) ==> f <= 0.4)
  }

  /** Every sample of day d's night window obeys the bounds of its offset. */
  lemma WindowFitsAll(truth: Flags, data: seq<DataPoint>, draws: seq<G.Draws>, exp: real -> real, d: nat)
    requires Generated(truth, data, draws, exp) && d < 7
    ensures forall k :: 0 <= k < 4 ==> WindowFits(truth, F.NightWindow(data, d)[k], k)
  {
    forall k | 0 <= k < 4
      ensures WindowFits(truth, F.NightWindow(data, d)[k], k)
    {
      WindowSample(truth, data, draws, exp, d, k);
      var idx := d * StepsPerDay + 4 + k;
      NightSample(truth, idx, draws[idx], exp);
    }
  }

  /** The minimum of a window whose samples obey their bounds fits its truth's bounds;
      for a flapper, offset 5 carries no spike and keeps the minimum low. */
  lemma MinimumOfFittingWindow(truth: Flags, win: seq<real>)
    requires OneHot(truth) && |win| == 4
    requires forall k :: 0 <= k < 4 ==> WindowFits(truth, win[k], k)
    ensures MinimumFits(truth, F.MinOf(win))
  {
    var m := F.MinOf(win);
    var j :| 0 <= j < 4 && win[j] == m;
    assert WindowFits(truth, win[j], j);
    assert win[0] in win && win[1] in win;
  }

  /** Day d's night minimum (offsets 4-7) fits its truth's bounds. */
  lemma NightMinimum(truth: Flags, data: seq<DataPoint>, draws: seq<G.Draws>, exp: real -> real, d: nat)
    requires Generated(truth, data, draws, exp) && d < 7
    ensures MinimumFits(truth, F.MinOf(F.NightWindow(data, d)))
  {
    WindowFitsAll(truth, data, draws, exp, d);
    MinimumOfFittingWindow(truth, F.NightWindow(data, d));
  }

  /** The rounded average of the seven night minima, as nightMinFlow reports it, keeps
      the same bounds. */
  lemma NightlineAverage(truth: Flags, data: seq<DataPoint>, draws: seq<G.Draws>, exp: real -> real)
    requires Generated(truth, data, draws, exp)
    ensures MinimumFits(truth, ToFixed2(F.Mean(F.NightMinima(data))))
  {
    var ms := F.NightMinima(data);
    forall d | 0 <= d < 7
      ensures MinimumFits(truth, ms[d])
    {
      NightMinimum(truth, data, draws, exp, d);
    }
    var lo, hi := 0.1, 0.4;
    if truth.leakBackground {
      lo, hi := 0.6, 0.9;
    } else if truth.leakIrrigation {
      lo, hi := 0.7, 1.0;
    }
    forall x | x in ms
      ensures lo <= x <= hi
    {
      var d :| 0 <= d < 7 && ms[d] == x;
    }
    F.MeanWithin(ms, lo, hi);
    var mean := F.Mean(ms);
    if truth.leakBackground {
      ToFixed2Bounded(mean, 60, 90);
    } else if truth.leakIrrigation {
      ToFixed2Bounded(mean, 70, 100);
    } else {
      ToFixed2Bounded(mean, 10, 40);
    }
  }

  /** A night minimum within its truth's bounds lies above 0.5 L/min exactly for a
      background or an irrigation leak. */
  lemma ThresholdSeparates(truth: Flags, m: real)
    requires OneHot(truth) && MinimumFits(truth, m)
    ensures m > 0.5 <==> truth.leakBackground || truth.leakIrrigation
  {
  }

  /** The nightline threshold of 0.5 L/min separates exactly the background and the
      irrigation leaks from the other cases genCase can produce. */
  lemma NightlineSeparates(truth: Flags, data: seq<DataPoint>, draws: seq<G.Draws>, exp: real -> real)
    requires Generated(truth, data, draws, exp)
    ensures ToFixed2(F.Mean(F.NightMinima(data))) > 0.5 <==> truth.leakBackground || truth.leakIrrigation
  {
    NightlineAverage(truth, data, draws, exp);
    ThresholdSeparates(truth, ToFixed2(F.Mean(F.NightMinima(data))));
  }

  /** Only a toilet flapper produces night spikes: every other case keeps the spike
      windows at or below 1.0 L/min, under the 1.2 threshold. */
  lemma OnlyFlapperSpikes(truth: Flags, data: seq<DataPoint>, draws: seq<G.Draws>, exp: real -> real)
    requires Generated(truth, data, draws, exp) && !truth.leakToilet
    ensures F.NightSpikes(data, 7) == 0
  {
    forall i | 0 <= i < |data| && F.SpikeStart <= i % StepsPerDay < F.SpikeEnd
      ensures data[i].flow <= F.SpikeThreshold
    {
      NightSample(truth, i, draws[i], exp);
    }
    F.QuietNightsHaveNoSpikes(data, 7);
  }

  /** What the hint rules say given the two facts above: the flapper hint fires only
      for a flapper; the background hint fires only for a background or irrigation leak,
      and always for an irrigation leak; on Easy the pipe-leak hint fires exactly for a
      background or irrigation leak. */
  lemma HintRules(truth: Flags, avg: real, spikes: int, difficulty: Difficulty)
    requires OneHot(truth) && MinimumFits(truth, avg) && (!truth.leakToilet ==> spikes == 0)
    ensures H.ToiletRule(spikes, difficulty) ==> truth.leakToilet
    ensures H.BackgroundRule(avg, difficulty) ==> truth.leakBackground || truth.leakIrrigation
    ensures difficulty != Hard && truth.leakIrrigation ==> H.BackgroundRule(avg, difficulty)
    ensures difficulty == Easy ==>
      (H.PipeRule(avg, spikes, difficulty) <==> truth.leakBackground || truth.leakIrrigation)
  {
  }

  /** The hint rules on any case genCase produces. */
  lemma HintRulesOnGeneratedCase(truth: Flags, data: seq<DataPoint>, draws: seq<G.Draws>,
                                 exp: real -> real, difficulty: Difficulty)
    requires Generated(truth, data, draws, exp)
    ensures var avg, spikes := ToFixed2(F.Mean(F.NightMinima(data))), F.NightSpikes(data, 7);
      && (H.ToiletRule(spikes, difficulty) ==> truth.leakToilet)
      && (H.BackgroundRule(avg, difficulty) ==> truth.leakBackground || truth.leakIrrigation)
      && (difficulty != Hard && truth.leakIrrigation ==> H.BackgroundRule(avg, difficulty))
      && (difficulty == Easy ==>
            (H.PipeRule(avg, spikes, difficulty) <==> truth.leakBackground || truth.leakIrrigation))
  {
    NightlineAverage(truth, data, draws, exp);
    if !truth.leakToilet {
      OnlyFlapperSpikes(truth, data, draws, exp);
    }
    HintRules(truth, ToFixed2(F.Mean(F.NightMinima(data))), F.NightSpikes(data, 7), difficulty);
  }
}
