/** The LeakDetective component: the current case, the probe log and the budget it
    draws on, the player's five hypothesis toggles and the last score. Each button of
    the component is a method here; every `Math.random()` draw an action makes is a
    parameter, and so is `Math.exp` for the actions that generate a case. */
module Game {
  import opened Types
  import opened Utils
  import G = Generator
  import F = Features
  import H = Hints
  import S = Scoring
  import D = Diagnostics

  /** Probe prices, in budget points. */
  const NightlineCost: int := 10
  const DyeCost: int := 15
  const ZoneCost: int := 18

  function ProbeCost(p: Probe): int {
    match p
    case Nightline => NightlineCost
    case Dye => DyeCost
    case ZoneSubmeter => ZoneCost
  }

  /** Budget points spent by a probe log. */
  function TotalCost(tests: seq<TestResult>): int {
    if tests == [] then 0 else TotalCost(tests[..|tests| - 1]) + tests[|tests| - 1].cost
  }

  /** Every log entry is charged its probe's price. */
  predicate PricedLog(tests: seq<TestResult>) {
    forall i :: 0 <= i < |tests| ==> tests[i].cost == ProbeCost(tests[i].name)
  }

  /** Logging one more probe adds its price to the spend and keeps the log priced. */
  lemma LogAppend(tests: seq<TestResult>, entry: TestResult)
    requires PricedLog(tests) && entry.cost == ProbeCost(entry.name)
    ensures TotalCost(tests + [entry]) == TotalCost(tests) + entry.cost
    ensures PricedLog(tests + [entry])
  {
    assert (tests + [entry])[..|tests|] == tests;
  }

  /** Every probe costs at least 10, so a log of n probes costs at least 10n. */
  lemma {:induction false} CostAtLeastTenEach(tests: seq<TestResult>)
    requires PricedLog(tests)
    ensures TotalCost(tests) >= 10 * |tests|
  {
    if tests != [] {
      var init := tests[..|tests| - 1];
      assert forall i :: 0 <= i < |init| ==> init[i] == tests[i];
      CostAtLeastTenEach(init);
    }
  }

  /** A budget of 100 pays for at most ten probes. */
  lemma AtMostTenProbes(tests: seq<TestResult>)
    requires PricedLog(tests) && TotalCost(tests) <= S.StartBudget
    ensures |tests| <= 10
  {
    CostAtLeastTenEach(tests);
  }

  /** `Math.floor(Math.random() * 1_000_000)` for the draw r. */
  function NewSeed(r: real): (s: int)
    requires 0.0 <= r < 1.0
    ensures 0 <= s < 1000000
  {
    (r * 1000000.0).Floor
  }

  /** The nightline probe compares the average night minimum with 0.5 L/min. */
  function NightlineOutcome(avgNightMin: real): ProbeOutcome {
    if avgNightMin > 0.5 then MnfPossibleLeak else MnfLikelyNoLeak
  }

  /** On any case genCase produces, the nightline probe reports a possible leak exactly
      for a background or an irrigation leak. */
  lemma NightlineDiagnoses(truth: Flags, data: seq<DataPoint>, draws: seq<G.Draws>, exp: real -> real)
    requires D.Generated(truth, data, draws, exp)
    ensures NightlineOutcome(ToFixed2(F.Mean(F.NightMinima(data)))) == MnfPossibleLeak
            <==> truth.leakBackground || truth.leakIrrigation
  {
    D.NightlineSeparates(truth, data, draws, exp);
  }

  /** The dye test, for the draw u: positive when u < 0.85 for a flapper, when u < 0.1
      otherwise. */
  function DyeOutcome(truth: Flags, u: real): ProbeOutcome {
    var positive := if truth.leakToilet then u < 0.85 else u < 0.1;
    if positive then DyeMigration else NoDyeMigration
  }

  /** For draws in [0.1, 0.85) the dye test is right; below 0.1 it gives a false
      positive, from 0.85 on a false negative. */
  lemma DyeAccuracy(truth: Flags, u: real)
    requires 0.0 <= u < 1.0
    ensures 0.1 <= u < 0.85 ==> (DyeOutcome(truth, u) == DyeMigration <==> truth.leakToilet)
    ensures u < 0.1 ==> DyeOutcome(truth, u) == DyeMigration
    ensures 0.85 <= u ==> DyeOutcome(truth, u) == NoDyeMigration
  {
  }

  /** Night share of the bathroom zone, for the draw u. */
  function BathroomShare(truth: Flags, u: real): real {
    if truth.leakToilet then 0.7 + u * 0.2 else 0.2 + u * 0.2
  }

  /** Night share of the outdoor zone, for the draw u. */
  function OutdoorShare(truth: Flags, u: real): real {
    if truth.leakIrrigation then 0.6 + u * 0.2 else 0.1 + u * 0.2
  }

  /** The zone submeter's reading: both shares as `(share * 100).toFixed(0)` percents. */
  function ZoneOutcome(truth: Flags, u1: real, u2: real): ProbeOutcome {
    ZoneShares(RoundHalfAway(BathroomShare(truth, u1) * 100.0), RoundHalfAway(OutdoorShare(truth, u2) * 100.0))
  }

  /** The zone percents: 70-90 in the bathroom for a flapper and 20-40 otherwise, 60-80
      outdoors for an irrigation leak and 10-30 otherwise; so a bathroom share of at
      least 50% shows a flapper, and an outdoor share of at least 50% an irrigation leak. */
  lemma ZoneReading(truth: Flags, u1: real, u2: real)
    requires 0.0 <= u1 < 1.0 && 0.0 <= u2 < 1.0
    ensures var o := ZoneOutcome(truth, u1, u2);
      && (truth.leakToilet ==> 70 <= o.bathroomPct <= 90)
      && (!truth.leakToilet ==> 20 <= o.bathroomPct <= 40)
      && (truth.leakIrrigation ==> 60 <= o.outdoorPct <= 80)
      && (!truth.leakIrrigation ==> 10 <= o.outdoorPct <= 30)
      && (o.bathroomPct >= 50 <==> truth.leakToilet)
      && (o.outdoorPct >= 50 <==> truth.leakIrrigation)
  {
    var b, o := BathroomShare(truth, u1) * 100.0, OutdoorShare(truth, u2) * 100.0;
    if truth.leakToilet {
      RoundHalfAwayBounded(b, 70, 90);
    } else {
      RoundHalfAwayBounded(b, 20, 40);
    }
    if truth.leakIrrigation {
      RoundHalfAwayBounded(o, 60, 80);
    } else {
      RoundHalfAwayBounded(o, 10, 30);
    }
  }

  /** genCase for the seed s, with nightMinFlow of the new series: the part of a new
      case that the component memoises. */
  method MakeCase(s: int, d: Difficulty, caseDraws: seq<G.Draws>, exp: real -> real)
    returns (c: Case, avg: real)
    requires G.ValidNoise(caseDraws)
    ensures c.truth == G.TruthFromRoll(FirstDraw(s))
    ensures D.Generated(c.truth, c.data, caseDraws, exp)
    ensures avg == ToFixed2(F.Mean(F.NightMinima(c.data)))
    ensures D.MinimumFits(c.truth, avg)
    ensures !c.truth.leakToilet ==> F.NightSpikes(c.data, 7) == 0
  {
    var truth, data := G.GenCase(Some(s), d, 0.0, caseDraws, exp);
    avg := F.NightMinFlow(data);
    D.NightlineAverage(truth, data, caseDraws, exp);
    if !truth.leakToilet {
      D.OnlyFlapperSpikes(truth, data, caseDraws, exp);
    }
    c := Case(truth, data);
  }

  class LeakDetective {
    var difficulty: Difficulty
    var seed: int
    /** The current case: the hidden truth and the series shown. */
    var game: Case
    /** nightMinFlow of the series, memoised with the case. */
    var avgNightMin: real
    var tests: seq<TestResult>
    var budget: int
    /** The five hypothesis toggles. */
    var hypothesis: Flags
    /** The last submitted verdict, if any since the case began. */
    var verdict: Option<Verdict>

    /** The case is one genCase can produce, as far as the probes and the hints see it:
        a one-hot truth, a week of samples, the memoised average, that average within
        its truth's night-minimum bounds, and no night spike without a flapper. */
    ghost predicate CaseValid()
      reads this`game, this`avgNightMin
    {
      && OneHot(game.truth)
      && |game.data| == G.SeriesLength
      && avgNightMin == ToFixed2(F.Mean(F.NightMinima(game.data)))
      && D.MinimumFits(game.truth, avgNightMin)
      && (!game.truth.leakToilet ==> F.NightSpikes(game.data, 7) == 0)
    }

    /** The budget is 100 less the probes logged, and never negative. */
    ghost predicate BudgetValid()
      reads this`tests, this`budget
    {
      && PricedLog(tests)
      && budget == S.StartBudget - TotalCost(tests)
      && 0 <= budget
    }

    /** "No leak" is never held together with a leak. */
    predicate HypothesisValid()
      reads this`hypothesis
    {
      hypothesis.noLeak ==> !hypothesis.leakToilet && !hypothesis.leakBackground
                            && !hypothesis.leakIrrigation && !hypothesis.leakTank
    }

    ghost predicate Valid()
      reads this
    {
      CaseValid() && BudgetValid() && HypothesisValid()
    }

    /** The first render: Medium difficulty, a seed from the draw r, a case generated
        from it, a full budget, no hypothesis and no verdict. */
    constructor (r: real, caseDraws: seq<G.Draws>, exp: real -> real)
      requires 0.0 <= r < 1.0 && G.ValidNoise(caseDraws)
      ensures Valid()
      ensures difficulty == Medium && seed == NewSeed(r)
      ensures game.truth == G.TruthFromRoll(FirstDraw(seed))
      ensures D.Generated(game.truth, game.data, caseDraws, exp)
      ensures tests == [] && budget == S.StartBudget && hypothesis == AllClear && verdict == None
    {
      difficulty := Medium;
      new;
      NewCase(None, r, caseDraws, exp);
    }

    /** newCase: a fresh seed from the draw r and a case generated from it; the probe log,
        the budget, the hypothesis and the verdict are reset. The difficulty field is left
        as it is (genCase ignores the difficulty it is given). */
    method NewCase(next: Option<Difficulty>, r: real, caseDraws: seq<G.Draws>, exp: real -> real)
      requires 0.0 <= r < 1.0 && G.ValidNoise(caseDraws)
      modifies this
      ensures Valid()
      ensures difficulty == old(difficulty) && seed == NewSeed(r)
      ensures game.truth == G.TruthFromRoll(FirstDraw(seed))
      ensures D.Generated(game.truth, game.data, caseDraws, exp)
      ensures tests == [] && budget == S.StartBudget && hypothesis == AllClear && verdict == None
    {
      var d := if next.Some? then next.value else difficulty;
      var s := NewSeed(r);
      var c, avg := MakeCase(s, d, caseDraws, exp);
      Begin(s, c, avg);
    }

    /** The state a new case starts in: its seed, the case and its memoised average, an
        empty probe log, a full budget, no hypothesis and no verdict. */
    method Begin(s: int, c: Case, avg: real)
      requires OneHot(c.truth) && |c.data| == G.SeriesLength
      requires avg == ToFixed2(F.Mean(F.NightMinima(c.data))) && D.MinimumFits(c.truth, avg)
      requires !c.truth.leakToilet ==> F.NightSpikes(c.data, 7) == 0
      modifies this
      ensures Valid()
      ensures difficulty == old(difficulty)
      ensures seed == s && game == c && avgNightMin == avg
      ensures tests == [] && budget == S.StartBudget && hypothesis == AllClear && verdict == None
    {
      seed, game, avgNightMin := s, c, avg;
      tests, budget, hypothesis, verdict := [], S.StartBudget, AllClear, None;
    }

    /** The difficulty selector. Choosing the difficulty already in force changes no
        state, so the effect that watches the difficulty does not run and everything
        stays as it was. Choosing another one stores it and, through that effect,
        starts a new case. */
    method ChangeDifficulty(next: Difficulty, r: real, caseDraws: seq<G.Draws>, exp: real -> real)
      requires Valid() && 0.0 <= r < 1.0 && G.ValidNoise(caseDraws)
      modifies this
      ensures Valid()
      ensures next == old(difficulty) ==> unchanged(this)
      ensures next != old(difficulty) ==>
        && difficulty == next && seed == NewSeed(r)
        && game.truth == G.TruthFromRoll(FirstDraw(seed))
        && D.Generated(game.truth, game.data, caseDraws, exp)
        && tests == [] && budget == S.StartBudget && hypothesis == AllClear && verdict == None
    {
      if next == difficulty {
        return;
      }
      difficulty := next;
      NewCase(Some(next), r, caseDraws, exp);
    }

    /** The step every probe shares once the budget covers it: the price is taken from
        the budget and the entry appended to the log. */
    method Charge(entry: TestResult)
      requires Valid() && entry.cost == ProbeCost(entry.name) && entry.cost <= budget
      modifies this`budget, this`tests
      ensures Valid()
      ensures budget == old(budget) - entry.cost && tests == old(tests) + [entry]
    {
      LogAppend(tests, entry);
      budget := budget - entry.cost;
      tests := tests + [entry];
    }

    /** runNightline: refused when the budget is below 10; otherwise 10 is charged and
        the reading logged. The reading is a possible leak exactly for a background or
        an irrigation leak. */
    method RunNightline()
      requires Valid()
      modifies this`budget, this`tests
      ensures Valid()
      ensures old(budget) < NightlineCost ==> budget == old(budget) && tests == old(tests)
      ensures old(budget) >= NightlineCost ==>
        && budget == old(budget) - NightlineCost
        && tests == old(tests) + [TestResult(Nightline, NightlineOutcome(avgNightMin), NightlineCost)]
        && (tests[|tests| - 1].result == MnfPossibleLeak
            <==> game.truth.leakBackground || game.truth.leakIrrigation)
    {
      if budget < NightlineCost {
        return;
      }
      D.ThresholdSeparates(game.truth, avgNightMin);
      Charge(TestResult(Nightline, NightlineOutcome(avgNightMin), NightlineCost));
    }

    /** runDye, for the draw u: refused when the budget is below 15; otherwise 15 is
        charged and the outcome logged. */
    method RunDye(u: real)
      requires Valid() && 0.0 <= u < 1.0
      modifies this`budget, this`tests
      ensures Valid()
      ensures old(budget) < DyeCost ==> budget == old(budget) && tests == old(tests)
      ensures old(budget) >= DyeCost ==>
        && budget == old(budget) - DyeCost
        && tests == old(tests) + [TestResult(Dye, DyeOutcome(game.truth, u), DyeCost)]
    {
      if budget < DyeCost {
        return;
      }
      Charge(TestResult(Dye, DyeOutcome(game.truth, u), DyeCost));
    }

    /** runZoneSubmeter, for the draws u1 (bathroom) and u2 (outdoor): refused when the
        budget is below 18; otherwise 18 is charged and the two shares logged. */
    method RunZoneSubmeter(u1: real, u2: real)
      requires Valid() && 0.0 <= u1 < 1.0 && 0.0 <= u2 < 1.0
      modifies this`budget, this`tests
      ensures Valid()
      ensures old(budget) < ZoneCost ==> budget == old(budget) && tests == old(tests)
      ensures old(budget) >= ZoneCost ==>
        && budget == old(budget) - ZoneCost
        && tests == old(tests) + [TestResult(ZoneSubmeter, ZoneOutcome(game.truth, u1, u2), ZoneCost)]
    {
      if budget < ZoneCost {
        return;
      }
      Charge(TestResult(ZoneSubmeter, ZoneOutcome(game.truth, u1, u2), ZoneCost));
    }

    /** The hypothesis buttons. A leak button negates its flag and clears "no leak"; the
        "no leak" button negates its flag and, when it was off, clears the four leak
        flags. Either way "no leak" is never held together with a leak. */
    method Toggle(c: Category)
      requires Valid()
      modifies this`hypothesis
      ensures Valid()
      ensures c != NoLeak ==> hypothesis == old(hypothesis).Flip(c).(noLeak := false)
      ensures c == NoLeak ==> hypothesis == (if old(hypothesis.noLeak) then AllClear else AllClear.(noLeak := true))
    {
      var h := hypothesis;
      match c
      case Toilet =>
        hypothesis := h.(leakToilet := !h.leakToilet, noLeak := false);
      case Background =>
        hypothesis := h.(leakBackground := !h.leakBackground, noLeak := false);
      case Irrigation =>
        hypothesis := h.(leakIrrigation := !h.leakIrrigation, noLeak := false);
      case Tank =>
        hypothesis := h.(leakTank := !h.leakTank, noLeak := false);
      case NoLeak =>
        hypothesis := h.(noLeak := !h.noLeak);
        if !h.noLeak {
          hypothesis := hypothesis.(leakToilet := false, leakBackground := false,
                                    leakIrrigation := false, leakTank := false);
        }
    }

    /** submitVerdict: the hypothesis is scored against the truth with the budget left. */
    method SubmitVerdict()
      requires Valid()
      modifies this`verdict
      ensures Valid()
      ensures verdict.Some?
      ensures verdict.value.score == S.FinalScore(game.truth, hypothesis, budget)
      ensures verdict.value.detail
              == ScoreDetail(S.Correct(game.truth, hypothesis), S.Wrong(game.truth, hypothesis), S.Spend(budget))
      ensures verdict.value.parts.total == verdict.value.score
      ensures verdict.value.parts.exact <==> game.truth == hypothesis
      ensures verdict.value.parts.pointsCorrect == 10 * verdict.value.detail.correct
      ensures verdict.value.parts.pointsWrong == -10 * verdict.value.detail.wrong
      ensures verdict.value.parts.perfectBonus == (if game.truth == hypothesis then 20 else 0)
      ensures verdict.value.parts.testPenalty == 0.5 * S.Spend(budget) as real
      ensures verdict.value.parts.flags == S.DeltasUpTo(game.truth, hypothesis, 5)
    {
      var detail, parts := S.ScoreVerdict(game.truth, hypothesis, budget);
      verdict := Some(Verdict(parts.total, detail, parts));
    }

    /** The memoised features of the current case and the hints derived from them at
        the current difficulty: the night spike count, the longest plateau and
        deriveHints of those with the memoised average. Beyond deriveHints' own rules:
        the flapper hint appears only for a flapper, the background hint only for a
        background or irrigation leak and always for an irrigation leak (below Hard),
        and on Easy the pipe-leak hint appears exactly for those two leaks. */
    method CurrentHints() returns (hints: seq<H.Hint>, nightSpikes: nat, plateauBins: nat)
      requires Valid()
      ensures nightSpikes == F.NightSpikes(game.data, 7)
      ensures exists j: nat :: j + plateauBins <= |game.data| && F.PlateauAt(game.data, j, plateauBins)
      ensures forall j: nat, len: nat :: j + len <= |game.data| && F.PlateauAt(game.data, j, len) ==> len <= plateauBins
      ensures difficulty == Hard ==> hints == []
      ensures difficulty != Hard ==> |hints| > 0 && H.InRuleOrder(hints)
      ensures difficulty == Medium ==>
        hints == (if avgNightMin > 0.6 then [H.BackgroundMnf] else [H.NoStrongSignals])
      ensures difficulty != Hard ==>
        && (H.BackgroundMnf in hints <==> H.BackgroundRule(avgNightMin, difficulty))
        && (H.ToiletSpikes in hints <==> H.ToiletRule(nightSpikes, difficulty))
        && (H.TankPlateau in hints <==> H.TankRule(plateauBins, difficulty))
        && (H.PipeLeak in hints <==> H.PipeRule(avgNightMin, nightSpikes, difficulty))
        && (H.NoStrongSignals in hints <==>
              !H.BackgroundRule(avgNightMin, difficulty) && !H.ToiletRule(nightSpikes, difficulty)
              && !H.TankRule(plateauBins, difficulty) && !H.PipeRule(avgNightMin, nightSpikes, difficulty))
      ensures H.ToiletSpikes in hints ==> game.truth.leakToilet
      ensures H.BackgroundMnf in hints ==> game.truth.leakBackground || game.truth.leakIrrigation
      ensures difficulty != Hard && game.truth.leakIrrigation ==> H.BackgroundMnf in hints
      ensures difficulty == Easy ==>
        (H.PipeLeak in hints <==> game.truth.leakBackground || game.truth.leakIrrigation)
    {
      nightSpikes := F.CountNightSpikes(game.data);
      plateauBins := F.LongestPlateau(game.data);
      hints := H.DeriveHints(avgNightMin, nightSpikes, plateauBins, difficulty);
      D.HintRules(game.truth, avgNightMin, nightSpikes, difficulty);
    }
  }
}
