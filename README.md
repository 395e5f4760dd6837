# Leak Detective: a verified model of the game's simulation and scoring

Leak Detective is a browser game about household water leaks. A hidden case is
either a toilet flapper, a background leak, an irrigation leak, a tank overflow or no
leak at all. The game synthesises a week of half-hourly water-meter readings (7 days
× 48 samples) that carry that leak's signature. The player buys probes from a budget
of 100 points: a nightline reading for 10, a dye test for 15 and a zone submeter for
18. The game shows hints that depend on the difficulty. The player sets five
hypothesis toggles and submits a verdict, which is scored from 0 to 100.

This project models that core in Dafny:

- `Types`: the case truth and hypothesis (`Flags`), the samples, the probe log entries
  and the score breakdown.
- `Utils`: `clamp`, JavaScript's `Math.round` and `toFixed` rounding, `normalizeTo100`
  and the seeded `mulberry32` generator. The generator is a class over its 32-bit state.
- `Generator`: `genCase`. It holds the truth cascade over one roll, the baseline
  household profile, each leak's contribution and the nested loops that build the
  series.
- `Features`: `nightMinFlow`, `countNightSpikes` and `longestPlateau`, each as a method
  with its loop, proved against a specification function.
- `Hints`: `deriveHints` and `scoreCategory`.
- `Scoring`: `submitVerdict`'s tally loop and score arithmetic, with lemmas on how the
  score reacts to the guess and to the spend.
- `Diagnostics`: what a generated series lets the player see. The nightline reading
  separates background and irrigation leaks from the rest. Only a flapper produces
  night spikes. This bounds which hints each truth can show.
- `Game`: the component's state as the class `LeakDetective`. It holds the difficulty,
  the seed, the case with its memoised night-minimum average, the probe log, the
  budget, the hypothesis and the last verdict. Each button is a method, and the class
  invariant keeps the budget equal to 100 minus the log's prices.

Every `Math.random()` draw is a parameter of the operation that makes it. For case
generation that means one `Draws` record per sample. `Math.exp` is a function-typed
parameter `exp` of the operations that generate a case. No property proved here
depends on what `exp` returns.

## Model

| member | source | states |
|---|---|---|
| Utils.Clamp | components/LeakDetective.tsx:21 | the result lies in [a, b]; it is v inside the range, a below it and b above it |
| Utils.Round | components/LeakDetective.tsx:23 | Math.round returns an integer within half a unit of x, with halves going up |
| Utils.RoundHalfAway | components/LeakDetective.tsx:186 | `toFixed(0)` lands within half a unit of x and keeps non-negative values non-negative |
| Utils.ToFixed2 | components/LeakDetective.tsx:45 | `+x.toFixed(2)` lands within 0.005 of x and keeps non-negative values non-negative |
| Utils.ToFixed2Bounded | components/LeakDetective.tsx:45 | rounding to hundredths keeps a value inside any range whose ends are hundredths |
| Utils.NormalizeTo100 | components/LeakDetective.tsx:23 | the score is in 0..100; a raw score of 0 or less gives 0; a raw score of 70 or more gives 100 |
| Utils.NormalizeMonotone | components/LeakDetective.tsx:23 | a larger raw score never normalises to a smaller score |
| Utils.NormalizeSelfTests | components/LeakDetective.tsx:232-235 | the start-up checks hold: 70→100, 0→0, -10→0, 35→50 |
| Utils.UnitInterval | components/LeakDetective.tsx:22 | an unsigned 32-bit value divided by 2^32 lies in [0, 1) |
| Utils.Mix | components/LeakDetective.tsx:22 | mulberry32's output for a stepped state lies in [0, 1) |
| Utils.Mulberry32.constructor | components/LeakDetective.tsx:22 | the state starts as the seed taken as an unsigned 32-bit integer |
| Utils.Mulberry32.Next | components/LeakDetective.tsx:22 | each call adds 0x6D2B79F5 to the 32-bit state, wrapping around, and returns the state's mix, a value in [0, 1) |
| Generator.TruthFromRoll | components/LeakDetective.tsx:30-31 | exactly one category is set, and each is set exactly when the roll falls in its interval of width 0.2 (toilet, background, irrigation, tank, no leak) |
| Generator.BaseProfile | components/LeakDetective.tsx:32 | the household baseline lies in [0, 6] |
| Generator.LeakSignature | components/LeakDetective.tsx:33-36 | each leak's contribution to a sample: 0 with no leak, 0.5 for a background leak, 0.6 in the 02:00-05:00 window for an irrigation leak, about 2.5 in the 11:00-14:00 window for a tank overflow, 0.8-1.4 on even samples for a flapper, and 0 elsewhere |
| Generator.ClockOf | components/LeakDetective.tsx:45 | offset s of a day is hour s / 2, on the hour for an even index and at half past for an odd one |
| Generator.Sample | components/LeakDetective.tsx:39-45 | sample idx has t = idx, a flow in [0, 8], day idx / 48 + 1, hour in 0..23, and minute 0 or 30 by the index's parity |
| Generator.DayOffset | components/LeakDetective.tsx:39 | sample d·48 + s lies on day d at offset s |
| Generator.SampleStep | components/LeakDetective.tsx:39-45 | the inner loop body builds exactly sample d·48 + s |
| Generator.GenSeries | components/LeakDetective.tsx:37-47 | the loops produce 336 samples, and sample i is built from the i-th draws |
| Generator.SeededRoll | components/LeakDetective.tsx:27 | a freshly seeded generator's first value is the seed's first draw |
| Generator.GenCase | components/LeakDetective.tsx:26-49 | the truth is the cascade applied to the seeded first draw, or to the system draw when there is no seed; it is one-hot; the series is the 336 samples of that truth |
| Features.Flows | components/LeakDetective.tsx:52 | the flows of a series, index by index |
| Features.MinOf | components/LeakDetective.tsx:52 | `Math.min` of a non-empty list is one of its elements and no larger than any of them |
| Features.MaxOf | components/LeakDetective.tsx:52 | the largest of a non-empty list (the upper end of nightMinFlow's bound) is one of its elements and no smaller than any of them |
| Features.SumAtLeast | components/LeakDetective.tsx:52 | a sum of n values each at least lo is at least n·lo |
| Features.SumAtMost | components/LeakDetective.tsx:52 | a sum of n values each at most hi is at most n·hi |
| Features.MeanBetween | components/LeakDetective.tsx:52 | a mean lies between the list's minimum and maximum |
| Features.MeanWithin | components/LeakDetective.tsx:52 | a mean of values in [lo, hi] lies in [lo, hi] |
| Features.AverageBetween | components/LeakDetective.tsx:52 | a total between n·lo and n·hi, divided by n, lies in [lo, hi] |
| Features.NightWindow | components/LeakDetective.tsx:52 | each day's night window has 4 samples (offsets 4-7) |
| Features.NightMinima | components/LeakDetective.tsx:52 | there is one night minimum per day, seven in all |
| Features.NightMinFlow | components/LeakDetective.tsx:52 | the loop returns the mean of the seven nightly minima rounded to hundredths, so it lies within 0.005 of the range of those minima |
| Features.NoAdjacentSpikes | components/LeakDetective.tsx:53 | a spike exceeds both neighbours by 0.6, so the next sample is no spike |
| Features.SpikesInAtMostHalf | components/LeakDetective.tsx:53 | a range of n samples holds at most (n + 1) / 2 spikes, rounded down |
| Features.NightSpikesAtMostFourADay | components/LeakDetective.tsx:53 | each 8-sample night scan counts at most 4 spikes |
| Features.QuietRangeHasNoSpikes | components/LeakDetective.tsx:53 | a range where no flow exceeds 1.2 holds no spike |
| Features.QuietNightsHaveNoSpikes | components/LeakDetective.tsx:53 | a week whose night scans never exceed 1.2 has no night spikes |
| Features.CountNightSpikes | components/LeakDetective.tsx:53 | the loop counts exactly the spikes in offsets 2-9 of the seven days, at most 28 |
| Features.RunEnding | components/LeakDetective.tsx:54 | the in-band run ending at e is no longer than e |
| Features.RunEndingIsPlateau | components/LeakDetective.tsx:54 | the run ending at e is a plateau, with every flow in [2.2, 2.8] |
| Features.RunEndingIsLongest | components/LeakDetective.tsx:54 | every plateau ending at e is no longer than the run ending at e |
| Features.LongestPlateau | components/LeakDetective.tsx:54 | the loop's result is the length of some plateau, and no plateau is longer |
| Hints.DeriveHints | components/LeakDetective.tsx:57-88 | Hard gives no hints; otherwise each rule's hint appears exactly when its rule fires, the fallback appears exactly when none fires, hints come in rule order, and Medium gives only the background hint or the fallback |
| Hints.ScoreCategory | components/LeakDetective.tsx:90-96 | the tier is one whose threshold (90/75/50/25) the score reaches, and no better tier's is reached |
| Hints.ScoreCategoryMonotone | components/LeakDetective.tsx:90-96 | a higher score never earns a lower tier |
| Scoring.FieldAgree | components/LeakDetective.tsx:202-203 | one field's agreement is 0 or 1 |
| Scoring.AgreeUpTo | components/LeakDetective.tsx:201-205 | at most n of the first n fields agree |
| Scoring.Correct | components/LeakDetective.tsx:197-205 | at most five flags are right |
| Scoring.CorrectByField | components/LeakDetective.tsx:201-205 | the number of right flags is the sum over the five fields |
| Scoring.ExactIffAllCorrect | components/LeakDetective.tsx:199-205 | the guess is exact exactly when all five flags are right |
| Scoring.FinalScore | components/LeakDetective.tsx:206-208 | a verdict's score is in 0..100 |
| Scoring.DeltasUpToContents | components/LeakDetective.tsx:200-204 | the breakdown has one entry per field, in the scorer's order, each comparing truth and guess on that field |
| Scoring.TallyFlags | components/LeakDetective.tsx:196-205 | the loop counts the right flags and the wrong ones, which total five; points are +10 per right flag and -10 per wrong one; exact holds when all are right; one breakdown entry per field |
| Scoring.ScoreVerdict | components/LeakDetective.tsx:195-211 | the counts, the spend, the parts (including the 20-point bonus exactly for an exact guess and half a point per point spent) add up to the raw score, and the total is its normalisation |
| Scoring.ScoreNeverRisesWithSpend | components/LeakDetective.tsx:207-208 | for a fixed guess, a smaller remaining budget never gives a higher score |
| Scoring.ExactGuessWithoutTests | components/LeakDetective.tsx:206-208 | an exact guess made without tests has raw score 70 and scores 100 |
| Scoring.EmptyGuessWithoutTests | components/LeakDetective.tsx:197-208 | against any one-hot truth, an empty guess without tests has 4 right and 1 wrong, raw 30, score 43 |
| Scoring.IndexOf | components/LeakDetective.tsx:198 | each category's position in the scorer's field order |
| Scoring.FieldAgreeFlip | components/LeakDetective.tsx:202-203 | negating one flag toggles agreement on its field and leaves every other field as it was |
| Scoring.FlipMovesOneFlag | components/LeakDetective.tsx:202-203 | negating one flag moves exactly that flag between right and wrong |
| Scoring.FlipMovesRaw | components/LeakDetective.tsx:203-207 | negating one flag moves the raw score by 20, or by 40 when either guess is exact |
| Diagnostics.NightBase | components/LeakDetective.tsx:32 | between 00:30 and 05:00 the baseline lies in [0.1, 0.3) |
| Diagnostics.NightRawBounds | components/LeakDetective.tsx:32-44 | bounds, for each truth, on an unrounded sample at night offsets 1-10 |
| Diagnostics.NightSample | components/LeakDetective.tsx:32-45 | the same bounds on the stored, rounded night sample |
| Diagnostics.WindowSample | components/LeakDetective.tsx:52 | element k of day d's night window is the flow of sample d·48 + 4 + k |
| Diagnostics.WindowFitsAll | components/LeakDetective.tsx:52 | every night-window sample of a generated series fits its truth's bounds |
| Diagnostics.MinimumOfFittingWindow | components/LeakDetective.tsx:52 | the minimum of such a window fits its truth's night-minimum bounds |
| Diagnostics.NightMinimum | components/LeakDetective.tsx:52 | each day's night minimum of a generated series fits its truth's bounds |
| Diagnostics.NightlineAverage | components/LeakDetective.tsx:52 | the rounded average night minimum fits the same bounds: 0.6-0.9 for a background leak, 0.7-1.0 for an irrigation leak, 0.1-0.4 otherwise |
| Diagnostics.ThresholdSeparates | components/LeakDetective.tsx:174 | an average within those bounds exceeds 0.5 exactly for a background or irrigation leak |
| Diagnostics.NightlineSeparates | components/LeakDetective.tsx:52 | on any generated series, nightMinFlow exceeds 0.5 exactly for a background or irrigation leak |
| Diagnostics.OnlyFlapperSpikes | components/LeakDetective.tsx:53 | a generated series without a flapper has no night spikes |
| Diagnostics.HintRules | components/LeakDetective.tsx:57-88 | the flapper rule fires only for a flapper; the background rule fires only for background or irrigation leaks and always fires for irrigation below Hard; on Easy the pipe rule fires exactly for those two leaks |
| Diagnostics.HintRulesOnGeneratedCase | components/LeakDetective.tsx:57-88 | the same for the features of any generated series |
| Game.LogAppend | components/LeakDetective.tsx:172-188 | logging a probe adds its price to the spend and keeps every entry priced |
| Game.CostAtLeastTenEach | components/LeakDetective.tsx:173 | a priced log of n probes costs at least 10n |
| Game.AtMostTenProbes | components/LeakDetective.tsx:145 | a budget of 100 pays for at most ten probes |
| Game.NewSeed | components/LeakDetective.tsx:162 | a new seed is an integer in 0..999999 |
| Game.NightlineDiagnoses | components/LeakDetective.tsx:174 | on any generated case, the nightline reading says "possible leak" exactly for a background or irrigation leak |
| Game.DyeAccuracy | components/LeakDetective.tsx:179 | for draws in [0.1, 0.85) the dye test is right; below 0.1 it is a false positive; from 0.85 it is a false negative |
| Game.ZoneReading | components/LeakDetective.tsx:184-186 | the bathroom percent is 70-90 for a flapper and 20-40 otherwise; the outdoor percent is 60-80 for irrigation and 10-30 otherwise; so a share of 50% or more identifies each leak |
| Game.MakeCase | components/LeakDetective.tsx:155-164 | the case generated for a seed, with its memoised night-minimum average and the diagnostic facts about both |
| Game.LeakDetective.constructor | components/LeakDetective.tsx:139-145 | the first render: Medium difficulty, a seed from the draw, a case generated from that seed, an empty log, a full budget, no hypothesis and no verdict |
| Game.LeakDetective.NewCase | components/LeakDetective.tsx:160-168 | a new seed and a case generated from it; the log, budget, hypothesis and verdict are reset; the difficulty is unchanged; the invariant holds |
| Game.LeakDetective.Begin | components/LeakDetective.tsx:163-167 | the state a new case starts in, with the invariant established |
| Game.LeakDetective.ChangeDifficulty | components/LeakDetective.tsx:170 | choosing the difficulty already in force leaves the whole state unchanged; choosing another stores it and starts a new case, resetting the log, budget, hypothesis and verdict |
| Game.LeakDetective.Charge | components/LeakDetective.tsx:173-187 | a paid probe takes its price from the budget, appends its entry and keeps the invariant |
| Game.LeakDetective.RunNightline | components/LeakDetective.tsx:172-176 | the probe is refused when the budget is below 10; otherwise it costs 10 and logs a reading that says "possible leak" exactly for a background or irrigation leak |
| Game.LeakDetective.RunDye | components/LeakDetective.tsx:177-181 | the probe is refused when the budget is below 15; otherwise it costs 15 and logs the dye outcome for the draw |
| Game.LeakDetective.RunZoneSubmeter | components/LeakDetective.tsx:182-188 | the probe is refused when the budget is below 18; otherwise it costs 18 and logs both zone percents for the draws |
| Game.LeakDetective.Toggle | components/LeakDetective.tsx:344-348 | a leak button negates its flag and clears "no leak"; the "no leak" button negates it and, when turning it on, clears all leaks; "no leak" is never held together with a leak |
| Game.LeakDetective.SubmitVerdict | components/LeakDetective.tsx:195-213 | the verdict is the hypothesis scored against the truth with the remaining budget; it stores the counts and spend, +10 per right flag and -10 per wrong one, the 20-point bonus exactly for an exact guess, a penalty of half a point per point spent, and the per-field breakdown |
| Game.LeakDetective.CurrentHints | components/LeakDetective.tsx:155-158 | the memoised features and hints of the current case: the night spike count, the longest plateau length, and deriveHints of those with the average (each hint exactly when its rule fires, the fallback exactly when none does, rule order, the Medium list); none on Hard; the flapper hint only for a flapper; the background hint only for background or irrigation leaks and always for irrigation; on Easy the pipe hint exactly for those two leaks |

## Left out

- `Math.random()` and `Math.exp` are parameters. The model does not say which values they return, beyond draws lying in [0, 1).
- Floating point: flows and scores are exact reals. `toFixed` rounds the exact value, halves away from zero, rather than the binary double. `Math.round` is floor(x + 0.5).
- Utils.Mulberry32.Next: the JavaScript state is a double that `+=` lets grow past 32 bits, and only the bitwise steps truncate it. The model keeps the state in 32 bits, which gives the same outputs. Only one draw is ever taken per seed.
- The seed fixes only the truth of a case. The series comes from `Math.random()`, so a seed does not replay a week of readings.
- Sample labels are kept as day, hour and minute. The zero-padded text is presentation.
- The probes' result strings, the verdict text "Score n/100", the hint messages, tier colours, sub-titles and emoji are represented by constructors and numbers.
- The night window follows the code: offsets 4-7 (02:00-03:30). The tank overflow window also follows the code: 11:00-14:00.
- Game.LeakDetective.CurrentHints: the component memoises the spike count and the plateau length with the case; the model recomputes them from the series when the hints are read.
- Game.LeakDetective.constructor: React's mount effect, which starts a second case on the first render, is not modelled. The constructor starts the first case directly.
- Game.LeakDetective.ChangeDifficulty: React's batching of the state updates is not modelled. The update and the new case happen in one method.
- Features.NightMinFlow: a series shorter than 296 samples is not modelled. There, a day whose window is empty makes `Math.min()` Infinity and the result Infinity, while a series of 293-295 samples has a partial last window and a finite average. The precondition asks for all seven windows in full, and every generated series has 336 samples.
- The chart, the tutorial, the layout, the select component (select.tsx), the page layout (layout.tsx) and the rest of the JSX are not part of this model.
