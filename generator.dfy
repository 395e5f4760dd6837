/** Case generation: the hidden truth is picked by one roll of the generator, then a
    week of half-hourly meter flow is synthesised with that leak's signature. */
module Generator {
  import opened Types
  import opened Utils

  const Days: nat := 7
  const SeriesLength: nat := Days * StepsPerDay

  /** The Math.random draws one sample consumes, each in [0, 1): the baseline noise,
      the tank-overflow noise, the toilet-spike magnitude and the final jitter. A draw
      the sample does not need (no tank or toilet leak) is simply unused. */
  datatype Draws = Draws(base: real, tank: real, spike: real, jitter: real)

  predicate ValidDraws(w: Draws) {
    && 0.0 <= w.base < 1.0
    && 0.0 <= w.tank < 1.0
    && 0.0 <= w.spike < 1.0
    && 0.0 <= w.jitter < 1.0
  }

  /** One set of draws per sample of the week. */
  predicate ValidNoise(draws: seq<Draws>) {
    |draws| == SeriesLength && forall i :: 0 <= i < |draws| ==> ValidDraws(draws[i])
  }

  /** The truth cascade: the roll falls into one of five intervals of width 0.2,
      taken in the order toilet, background, irrigation, tank, no leak. */
  function TruthFromRoll(roll: real): (truth: Flags)
    ensures OneHot(truth)
    ensures truth.leakToilet <==> roll < 0.2
    ensures truth.leakBackground <==> 0.2 <= roll < 0.4
    ensures truth.leakIrrigation <==> 0.4 <= roll < 0.6
    ensures truth.leakTank <==> 0.6 <= roll < 0.8
    ensures truth.noLeak <==> 0.8 <= roll
  {
    if roll < 0.2 then AllClear.(leakToilet := true)
    else if roll < 0.4 then AllClear.(leakBackground := true)
    else if roll < 0.6 then AllClear.(leakIrrigation := true)
    else if roll < 0.8 then AllClear.(leakTank := true)
    else AllClear.(noLeak := true)
  }

  /** The household's daily use at minute `minOfDay`: a floor of 0.2, a morning bump
      between 06:00 and 09:00 and an evening bump between 18:00 and 22:00, plus noise
      in [-0.1, 0.1), clamped to [0, 6]. `exp` stands for Math.exp. */
  function BaseProfile(minOfDay: int, u: real, exp: real -> real): (flow: real)
    ensures 0.0 <= flow <= 6.0
  {
    var h := minOfDay as real / 60.0;
    var morning := if 6.0 <= h <= 9.0 then 2.0 * exp(-((h - 7.5) * (h - 7.5)) / 1.2) else 0.0;
    var evening := if 18.0 <= h <= 22.0 then 1.6 * exp(-((h - 19.5) * (h - 19.5)) / 1.5) else 0.0;
    Clamp(0.2 + morning + evening + 0.2 * (u - 0.5), 0.0, 6.0)
  }

  /** A flapper spike of 0.8 + 0.6u on even sample indices. */
  function ToiletSpike(t: nat, u: real): real {
    if t % 2 == 0 then 0.8 + u * 0.6 else 0.0
  }

  /** 0.6 L/min during 02:00-05:00 (minutes 120-300, both ends included). */
  function IrrigationLeak(minOfDay: int): real {
    if 120 <= minOfDay <= 300 then 0.6 else 0.0
  }

  /** 2.5 L/min during 11:00-14:00 (minutes 660-840, both ends included). */
  function TankOverflow(minOfDay: int): real {
    if 660 <= minOfDay <= 840 then 2.5 else 0.0
  }

  /** A non-zero overflow is perturbed by noise in [-0.1, 0.1). */
  function TankOverflowNoise(x: real, u: real): real {
    if x == 0.0 then 0.0 else x + (u * 0.2 - 0.1)
  }

  /** Everything the hidden leak adds to sample `idx` at minute `mins` of its day. */
  function LeakContribution(truth: Flags, idx: nat, mins: int, w: Draws): real {
    (if truth.leakBackground then 0.5 else 0.0)
    + (if truth.leakIrrigation then IrrigationLeak(mins) else 0.0)
    + (if truth.leakTank then TankOverflowNoise(TankOverflow(mins), w.tank) else 0.0)
    + (if truth.leakToilet then ToiletSpike(idx, w.spike) else 0.0)
  }

  /** The clock of sample idx: offset s of its day is minute 30 * s, that is hour s / 2,
      on the hour for an even idx and at half past for an odd one. */
  lemma ClockOf(idx: nat)
    ensures var s := idx % StepsPerDay;
      && (s * 30) / 60 == s / 2
      && (s * 30) % 60 == (if idx % 2 == 0 then 0 else 30)
  {
    var d, s := idx / StepsPerDay, idx % StepsPerDay;
    assert idx == 48 * d + s;
    assert idx % 2 == s % 2;
  }

  /** Sample `idx` of the week: day idx / 48, minute 30 * (idx % 48) of that day; baseline
      plus leak plus jitter in [0, 0.1), clamped to [0, 8] and rounded to hundredths. */
  function Sample(truth: Flags, idx: nat, w: Draws, exp: real -> real): (p: DataPoint)
    ensures p.t == idx
    ensures 0.0 <= p.flow <= 8.0
    ensures p.stamp.day == idx / StepsPerDay + 1
    ensures p.stamp.hour == (idx % StepsPerDay) / 2 && 0 <= p.stamp.hour < 24
    ensures p.stamp.minute == (if idx % 2 == 0 then 0 else 30)
  {
    var d, s := idx / StepsPerDay, idx % StepsPerDay;
    var mins := s * 30;
    var flow := Clamp(BaseProfile(mins, w.base, exp) + LeakContribution(truth, idx, mins, w)
                      + w.jitter * 0.1, 0.0, 8.0);
    ToFixed2Bounded(flow, 0, 800);
    ClockOf(idx);
    DataPoint(idx, Label(d + 1, mins / 60, mins % 60), ToFixed2(flow))
  }

  /** The signature each kind of leak leaves: apart from the baseline and the jitter,
      a sample carries 0.5 everywhere for a background leak, 0.6 inside the irrigation
      window only, about 2.5 inside the tank window only, a spike of 0.8-1.4 on even
      indices only for a flapper, and nothing when there is no leak. */
  lemma LeakSignature(truth: Flags, idx: nat, mins: int, w: Draws)
    requires OneHot(truth) && ValidDraws(w)
    ensures truth.noLeak ==> LeakContribution(truth, idx, mins, w) == 0.0
    ensures truth.leakBackground ==> LeakContribution(truth, idx, mins, w) == 0.5
    ensures truth.leakIrrigation ==>
      LeakContribution(truth, idx, mins, w) == (if 120 <= mins <= 300 then 0.6 else 0.0)
    ensures truth.leakTank && 660 <= mins <= 840 ==>
      2.4 <= LeakContribution(truth, idx, mins, w) < 2.6
    ensures truth.leakTank && !(660 <= mins <= 840) ==> LeakContribution(truth, idx, mins, w) == 0.0
    ensures truth.leakToilet && idx % 2 == 0 ==> 0.8 <= LeakContribution(truth, idx, mins, w) < 1.4
    ensures truth.leakToilet && idx % 2 == 1 ==> LeakContribution(truth, idx, mins, w) == 0.0
  {
  }

  /** Sample d * 48 + s lies on day d at offset s. */
  lemma DayOffset(d: nat, s: nat)
    requires s < StepsPerDay
    ensures (d * StepsPerDay + s) / StepsPerDay == d && (d * StepsPerDay + s) % StepsPerDay == s
  {
    assert d * StepsPerDay + s == d * 48 + s;
  }

  /** The body of genCase's inner loop: sample s of day d, built up term by term. */
  method SampleStep(truth: Flags, d: nat, s: nat, w: Draws, exp: real -> real) returns (p: DataPoint)
    requires s < StepsPerDay
    ensures p == Sample(truth, d * StepsPerDay + s, w, exp)
  {
    var idx := d * StepsPerDay + s;
    var mins := s * 30;
    var flow := BaseProfile(mins, w.base, exp);
    if truth.leakBackground { flow := flow + 0.5; }
    if truth.leakIrrigation { flow := flow + IrrigationLeak(mins); }
    if truth.leakTank { flow := flow + TankOverflowNoise(TankOverflow(mins), w.tank); }
    if truth.leakToilet { flow := flow + ToiletSpike(idx, w.spike); }
    flow := Clamp(flow + w.jitter * 0.1, 0.0, 8.0);
    DayOffset(d, s);
    p := DataPoint(idx, Label(d + 1, mins / 60, mins % 60), ToFixed2(flow));
  }

  /** genCase's loops: for each day d and step s, push sample d * 48 + s. */
  method GenSeries(truth: Flags, draws: seq<Draws>, exp: real -> real) returns (data: seq<DataPoint>)
    requires ValidNoise(draws)
    ensures |data| == SeriesLength
    ensures forall i :: 0 <= i < |data| ==> data[i] == Sample(truth, i, draws[i], exp)
  {
    data := [];
    var d := 0;
    while d < Days
      invariant 0 <= d <= Days
      invariant |data| == d * StepsPerDay
      invariant forall i :: 0 <= i < |data| ==> data[i] == Sample(truth, i, draws[i], exp)
    {
      var s := 0;
      while s < StepsPerDay
        invariant 0 <= s <= StepsPerDay
        invariant |data| == d * StepsPerDay + s
        invariant forall i :: 0 <= i < |data| ==> data[i] == Sample(truth, i, draws[i], exp)
      {
        var p := SampleStep(truth, d, s, draws[d * StepsPerDay + s], exp);
        data := data + [p];
        s := s + 1;
      }
      d := d + 1;
    }
  }

  /** `mulberry32(seed)()`: the first value of a freshly seeded generator. */
  method SeededRoll(seed: int) returns (roll: real)
    ensures roll == FirstDraw(seed)
  {
    var rng := new Mulberry32(seed);
    roll := rng.Next();
  }

  /** genCase: the truth comes from the seeded generator's first value when a seed is
      given, else from the system draw `systemRoll`; the difficulty is only forwarded. */
  method GenCase(seed: Option<int>, difficulty: Difficulty, systemRoll: real,
                 draws: seq<Draws>, exp: real -> real)
    returns (truth: Flags, data: seq<DataPoint>)
    requires 0.0 <= systemRoll < 1.0
    requires ValidNoise(draws)
    ensures truth == TruthFromRoll(if seed.Some? then FirstDraw(seed.value) else systemRoll)
    ensures OneHot(truth)
    ensures |data| == SeriesLength
    ensures forall i :: 0 <= i < |data| ==> data[i] == Sample(truth, i, draws[i], exp)
  {
    var roll := systemRoll;
    if seed.Some? {
      roll := SeededRoll(seed.value);
    }
    truth := TruthFromRoll(roll);
    data := GenSeries(truth, draws, exp);
  }
}
