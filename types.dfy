/** The records and enumerations of the leak-detective game: the hidden case truth
    (also used for the player's hypothesis), the time-series samples, the probe log
    entries and the score breakdown. */
module Types {

  datatype Option<T> = None | Some(value: T)

  /** Half-hour samples in a day of the meter series. */
  const StepsPerDay: nat := 48

  datatype Difficulty = Easy | Medium | Hard

  /** The five leak categories, in the order the scorer walks them. */
  datatype Category = Toilet | Background | Irrigation | Tank | NoLeak

  /** The scorer's field order. */
  const Categories: seq<Category> := [Toilet, Background, Irrigation, Tank, NoLeak]

  /** One boolean per category: the hidden truth of a case, or the player's guess. */
  datatype Flags = Flags(leakToilet: bool, leakBackground: bool, leakIrrigation: bool,
                         leakTank: bool, noLeak: bool)
  {
    function Get(c: Category): bool {
      match c
      case Toilet => leakToilet
      case Background => leakBackground
      case Irrigation => leakIrrigation
      case Tank => leakTank
      case NoLeak => noLeak
    }

    /** Number of flags that are set. */
    function CountSet(): (n: nat)
      ensures n <= 5
    {
      (if leakToilet then 1 else 0) + (if leakBackground then 1 else 0)
      + (if leakIrrigation then 1 else 0) + (if leakTank then 1 else 0)
      + (if noLeak then 1 else 0)
    }

    /** The same flags with category `c` negated. */
    function Flip(c: Category): (f: Flags)
      ensures f.Get(c) == !Get(c)
      ensures forall c' :: c' != c ==> f.Get(c') == Get(c')
    {
      match c
      case Toilet => this.(leakToilet := !leakToilet)
      case Background => this.(leakBackground := !leakBackground)
      case Irrigation => this.(leakIrrigation := !leakIrrigation)
      case Tank => this.(leakTank := !leakTank)
      case NoLeak => this.(noLeak := !noLeak)
    }
  }

  const AllClear: Flags := Flags(false, false, false, false, false)

  /** Exactly one category is set. */
  predicate OneHot(f: Flags) {
    f.CountSet() == 1
  }

  /** Day number (1-7), hour and minute of a sample; the zero-padded text is presentation. */
  datatype Label = Label(day: int, hour: int, minute: int)

  /** One half-hour sample of the meter: index, label (`stamp`; `label` is a Dafny keyword) and flow in litres per minute. */
  datatype DataPoint = DataPoint(t: int, stamp: Label, flow: real)

  datatype Probe = Nightline | Dye | ZoneSubmeter

  /** What a probe reports. The zone percentages are the rounded shares the result text shows. */
  datatype ProbeOutcome =
    | MnfPossibleLeak
    | MnfLikelyNoLeak
    | DyeMigration
    | NoDyeMigration
    | ZoneShares(bathroomPct: int, outdoorPct: int)

  /** A probe log entry. */
  datatype TestResult = TestResult(name: Probe, result: ProbeOutcome, cost: int)

  datatype ScoreDetail = ScoreDetail(correct: int, wrong: int, spend: int)

  /** Per-category comparison; the display label is determined by `key`. */
  datatype FlagDelta = FlagDelta(key: Category, expected: bool, chosen: bool, delta: int)

  datatype ScoreParts = ScoreParts(pointsCorrect: int, pointsWrong: int, perfectBonus: int,
                                   testPenalty: real, total: int, exact: bool,
                                   flags: seq<FlagDelta>)

  /** A generated case: its hidden truth and its week of samples. */
  datatype Case = Case(truth: Flags, data: seq<DataPoint>)

  /** What a submitted verdict shows: the score, its counts and its breakdown (the
      "Score n/100" text is the score). */
  datatype Verdict = Verdict(score: int, detail: ScoreDetail, parts: ScoreParts)
}
