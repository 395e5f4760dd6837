/** Scoring a verdict: each of the five flags earns +10 when the guess agrees with the
    truth and -10 otherwise, an exact guess earns a 20-point bonus, every point of test
    budget spent costs half a point, and the raw total is normalised to 0-100. */
module Scoring {
  import opened Types
  import opened Utils

  const StartBudget: int := 100

  function Agree(a: bool, b: bool): nat { if a == b then 1 else 0 }

  /** Whether the guess agrees with the truth on field i of the scorer's order. */
  function FieldAgree(truth: Flags, guess: Flags, i: nat): (k: nat)
    requires i < |Categories|
    ensures k <= 1
  {
    Agree(truth.Get(Categories[i]), guess.Get(Categories[i]))
  }

  /** Number of the first n fields, in the scorer's order, where the guess agrees with
      the truth. */
  function AgreeUpTo(truth: Flags, guess: Flags, n: nat): (k: nat)
    requires n <= |Categories|
    ensures k <= n
  {
    if n == 0 then 0 else AgreeUpTo(truth, guess, n - 1) + FieldAgree(truth, guess, n - 1)
  }

  /** Flags the guess gets right. */
  function Correct(truth: Flags, guess: Flags): (n: nat)
    ensures n <= 5
  {
    AgreeUpTo(truth, guess, 5)
  }

  function Wrong(truth: Flags, guess: Flags): nat {
    5 - Correct(truth, guess)
  }

  /** The count of right flags, field by field. */
  lemma CorrectByField(truth: Flags, guess: Flags)
    ensures Correct(truth, guess)
            == FieldAgree(truth, guess, 0) + FieldAgree(truth, guess, 1) + FieldAgree(truth, guess, 2)
               + FieldAgree(truth, guess, 3) + FieldAgree(truth, guess, 4)
  {
    assert AgreeUpTo(truth, guess, 1) == FieldAgree(truth, guess, 0);
    assert AgreeUpTo(truth, guess, 2) == AgreeUpTo(truth, guess, 1) + FieldAgree(truth, guess, 1);
    assert AgreeUpTo(truth, guess, 3) == AgreeUpTo(truth, guess, 2) + FieldAgree(truth, guess, 2);
    assert AgreeUpTo(truth, guess, 4) == AgreeUpTo(truth, guess, 3) + FieldAgree(truth, guess, 3);
  }

  /** A guess is exact exactly when all five flags are right. */
  lemma ExactIffAllCorrect(truth: Flags, guess: Flags)
    ensures Correct(truth, guess) == 5 <==> truth == guess
  {
    CorrectByField(truth, guess);
  }

  function Spend(budget: int): int {
    StartBudget - budget
  }

  /** The raw score: the per-flag tally, the perfect bonus and the spend penalty. */
  function RawScore(truth: Flags, guess: Flags, budget: int): real {
    (10 * Correct(truth, guess) - 10 * Wrong(truth, guess) + (if truth == guess then 20 else 0)) as real
    - 0.5 * Spend(budget) as real
  }

  function FinalScore(truth: Flags, guess: Flags, budget: int): (s: int)
    ensures 0 <= s <= 100
  {
    NormalizeTo100(RawScore(truth, guess, budget))
  }

  /** The per-flag comparison the breakdown lists. */
  function Delta(truth: Flags, guess: Flags, c: Category): FlagDelta {
    FlagDelta(c, truth.Get(c), guess.Get(c), if truth.Get(c) == guess.Get(c) then 10 else -10)
  }

  /** The breakdown entries of the first n fields, in the scorer's order. */
  function DeltasUpTo(truth: Flags, guess: Flags, n: nat): (ds: seq<FlagDelta>)
    requires n <= |Categories|
  {
    if n == 0 then [] else DeltasUpTo(truth, guess, n - 1) + [Delta(truth, guess, Categories[n - 1])]
  }

  /** The breakdown has one entry per field, in the scorer's order, each comparing the
      truth and the guess on that field. */
  lemma {:induction false} DeltasUpToContents(truth: Flags, guess: Flags, n: nat)
    requires n <= |Categories|
    ensures |DeltasUpTo(truth, guess, n)| == n
    ensures forall k :: 0 <= k < n ==> DeltasUpTo(truth, guess, n)[k] == Delta(truth, guess, Categories[k])
  {
    if n > 0 {
      DeltasUpToContents(truth, guess, n - 1);
    }
  }

  /** submitVerdict's walk over the five fields: +10 for each flag the guess gets right,
      -10 for each it gets wrong, with the counts, the exact-match flag and one breakdown
      entry per field. */
  method TallyFlags(truth: Flags, guess: Flags)
    returns (points: int, correct: nat, wrong: nat, exact: bool, flags: seq<FlagDelta>)
    ensures correct == Correct(truth, guess) && correct + wrong == 5
    ensures points == 10 * correct - 10 * wrong
    ensures exact <==> correct == 5
    ensures flags == DeltasUpTo(truth, guess, 5)
  {
    points := 0;
    correct, wrong := 0, 0;
    flags := [];
    exact := true;
    var i := 0;
    while i < 5
      invariant 0 <= i <= 5
      invariant correct == AgreeUpTo(truth, guess, i)
      invariant correct + wrong == i
      invariant points == 10 * correct - 10 * wrong
      invariant exact <==> wrong == 0
      invariant flags == DeltasUpTo(truth, guess, i)
    {
      var f := Categories[i];
      var expected, chosen := truth.Get(f), guess.Get(f);
      var delta := if expected == chosen then 10 else -10;
      points := points + delta;
      if delta > 0 {
        correct := correct + 1;
      } else {
        wrong := wrong + 1;
        exact := false;
      }
      flags := flags + [FlagDelta(f, expected, chosen, delta)];
      assert AgreeUpTo(truth, guess, i + 1) == AgreeUpTo(truth, guess, i) + Agree(expected, chosen);
      assert DeltasUpTo(truth, guess, i + 1) == DeltasUpTo(truth, guess, i) + [Delta(truth, guess, f)];
      i := i + 1;
    }
  }

  /** submitVerdict's scoring: the tally, plus the perfect bonus for an exact guess,
      minus half a point per point of budget spent, normalised to 0-100. */
  method ScoreVerdict(truth: Flags, guess: Flags, budget: int)
    returns (detail: ScoreDetail, parts: ScoreParts)
    ensures detail.correct + detail.wrong == 5
    ensures detail == ScoreDetail(Correct(truth, guess), Wrong(truth, guess), Spend(budget))
    ensures parts.exact <==> truth == guess
    ensures parts.pointsCorrect == 10 * detail.correct
    ensures parts.pointsWrong == -10 * detail.wrong
    ensures parts.perfectBonus == (if parts.exact then 20 else 0)
    ensures parts.testPenalty == 0.5 * detail.spend as real
    ensures (parts.pointsCorrect + parts.pointsWrong + parts.perfectBonus) as real - parts.testPenalty
            == RawScore(truth, guess, budget)
    ensures parts.total == FinalScore(truth, guess, budget)
    ensures parts.flags == DeltasUpTo(truth, guess, 5)
  {
    var points, correct, wrong, exact, flags := TallyFlags(truth, guess);
    ExactIffAllCorrect(truth, guess);
    var bonus := if exact then 20 else 0;
    var raw := (points + bonus) as real;
    var spend := StartBudget - budget;
    var testPenalty := spend as real * 0.5;
    raw := raw - testPenalty;
    var total := NormalizeTo100(raw);
    detail := ScoreDetail(correct, wrong, spend);
    parts := ScoreParts(correct * 10, -(wrong as int) * 10, bonus, testPenalty, total, exact, flags);
  }

  /** For a fixed truth and guess, spending more of the budget never raises the score. */
  lemma ScoreNeverRisesWithSpend(truth: Flags, guess: Flags, budget1: int, budget2: int)
    requires budget1 <= budget2
    ensures FinalScore(truth, guess, budget1) <= FinalScore(truth, guess, budget2)
  {
    NormalizeMonotone(RawScore(truth, guess, budget1), RawScore(truth, guess, budget2));
  }

  /** An exact guess made without any test scores full marks, whatever the truth. */
  lemma ExactGuessWithoutTests(truth: Flags)
    ensures RawScore(truth, truth, StartBudget) == 70.0
    ensures FinalScore(truth, truth, StartBudget) == 100
  {
    ExactIffAllCorrect(truth, truth);
  }

  /** Against any one-hot truth, guessing nothing and running no test gets four flags
      right and one wrong: raw 30, score 43. */
  lemma EmptyGuessWithoutTests(truth: Flags)
    requires OneHot(truth)
    ensures Correct(truth, AllClear) == 4 && Wrong(truth, AllClear) == 1
    ensures RawScore(truth, AllClear, StartBudget) == 30.0
    ensures FinalScore(truth, AllClear, StartBudget) == 43
  {
    CorrectByField(truth, AllClear);
    ExactIffAllCorrect(truth, AllClear);
    assert 30.0 / MaxRaw * 100.0 == 3000.0 / 70.0;
  }

  /** Position of a category in the scorer's field order. */
  function IndexOf(c: Category): (i: nat)
    ensures i < |Categories| && Categories[i] == c
  {
    match c
    case Toilet => 0
    case Background => 1
    case Irrigation => 2
    case Tank => 3
    case NoLeak => 4
  }

  /** Negating category c of the guess turns agreement on c's field into disagreement
      and back, and leaves every other field as it was. */
  lemma FieldAgreeFlip(truth: Flags, guess: Flags, c: Category, i: nat)
    requires i < |Categories|
    ensures FieldAgree(truth, guess.Flip(c), i)
            == if i == IndexOf(c) then 1 - FieldAgree(truth, guess, i) else FieldAgree(truth, guess, i)
    ensures i == IndexOf(c) ==> (FieldAgree(truth, guess, i) == 1 <==> truth.Get(c) == guess.Get(c))
  {
  }

  /** Negating one flag of a guess moves exactly that flag between right and wrong. */
  lemma FlipMovesOneFlag(truth: Flags, guess: Flags, c: Category)
    ensures Correct(truth, guess.Flip(c))
            == if truth.Get(c) == guess.Get(c) then Correct(truth, guess) - 1 else Correct(truth, guess) + 1
  {
    CorrectByField(truth, guess);
    CorrectByField(truth, guess.Flip(c));
    FieldAgreeFlip(truth, guess, c, 0);
    FieldAgreeFlip(truth, guess, c, 1);
    FieldAgreeFlip(truth, guess, c, 2);
    FieldAgreeFlip(truth, guess, c, 3);
    FieldAgreeFlip(truth, guess, c, 4);
  }

  /** ... and so moves the raw score by 20, or by 40 when either of the two guesses is
      the exact one, since the perfect bonus is won or lost as well. */
  lemma FlipMovesRaw(truth: Flags, guess: Flags, c: Category, budget: int)
    ensures var flipped := guess.Flip(c);
      var swing := RawScore(truth, guess, budget) - RawScore(truth, flipped, budget);
      if truth == guess || truth == flipped then swing == 40.0 || swing == -40.0
      else swing == 20.0 || swing == -20.0
  {
    var flipped := guess.Flip(c);
    FlipMovesOneFlag(truth, guess, c);
    ExactIffAllCorrect(truth, guess);
    ExactIffAllCorrect(truth, flipped);
  }
}
