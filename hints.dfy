/** The hint engine and the score tiers shown to the player. */
module Hints {
  import opened Types

  /** The advisory messages, one per rule, plus the fallback. */
  datatype Hint =
    | BackgroundMnf     // a high night minimum points to a background leak
    | ToiletSpikes      // many night spikes point to a toilet flapper
    | TankPlateau       // a long midday plateau near 2.5 L/min points to a tank overflow
    | PipeLeak          // a high night minimum without spikes points to a pipe leak
    | NoStrongSignals   // nothing stands out

  /** Position of a hint in the rule list; the fallback comes last. */
  function Rank(h: Hint): nat {
    match h
    case BackgroundMnf => 0
    case ToiletSpikes => 1
    case TankPlateau => 2
    case PipeLeak => 3
    case NoStrongSignals => 4
  }

  /** Hints listed in rule order, each at most once. */
  predicate InRuleOrder(hints: seq<Hint>) {
    forall i, j :: 0 <= i < j < |hints| ==> Rank(hints[i]) < Rank(hints[j])
  }

  /** Whether each of the four rules fires at the given difficulty. */
  predicate BackgroundRule(avgNightMin: real, difficulty: Difficulty) {
    difficulty != Hard && avgNightMin > 0.6
  }
  predicate ToiletRule(nightSpikes: int, difficulty: Difficulty) {
    difficulty == Easy && nightSpikes > 10
  }
  predicate TankRule(plateauBins: int, difficulty: Difficulty) {
    difficulty == Easy && plateauBins > 6
  }
  predicate PipeRule(avgNightMin: real, nightSpikes: int, difficulty: Difficulty) {
    difficulty == Easy && avgNightMin > 0.5 && nightSpikes < 3
  }

  /** deriveHints: no hints on Hard; otherwise the hints of the rules that fire, in rule
      order, or the single fallback when none fires. */
  method DeriveHints(avgNightMin: real, nightSpikes: int, plateauBins: int, difficulty: Difficulty)
    returns (hints: seq<Hint>)
    ensures difficulty == Hard ==> hints == []
    ensures difficulty != Hard ==> |hints| > 0
    ensures difficulty == Medium ==>
      hints == (if avgNightMin > 0.6 then [BackgroundMnf] else [NoStrongSignals])
    ensures difficulty != Hard ==>
      && (BackgroundMnf in hints <==> BackgroundRule(avgNightMin, difficulty))
      && (ToiletSpikes in hints <==> ToiletRule(nightSpikes, difficulty))
      && (TankPlateau in hints <==> TankRule(plateauBins, difficulty))
      && (PipeLeak in hints <==> PipeRule(avgNightMin, nightSpikes, difficulty))
      && (NoStrongSignals in hints <==>
            !BackgroundRule(avgNightMin, difficulty) && !ToiletRule(nightSpikes, difficulty)
            && !TankRule(plateauBins, difficulty) && !PipeRule(avgNightMin, nightSpikes, difficulty))
    ensures InRuleOrder(hints)
  {
    if difficulty == Hard {
      return [];
    }
    hints := [];
    var isEasy := difficulty == Easy;
    if avgNightMin > 0.6 {
      hints := hints + [BackgroundMnf];
    }
    if isEasy && nightSpikes > 10 {
      hints := hints + [ToiletSpikes];
    }
    if isEasy && plateauBins > 6 {
      hints := hints + [TankPlateau];
    }
    if isEasy && avgNightMin > 0.5 && nightSpikes < 3 {
      hints := hints + [PipeLeak];
    }
    if |hints| == 0 {
      hints := hints + [NoStrongSignals];
    }
  }

  /** The banner tiers, best first; colours, sub-titles and emoji are presentation. */
  datatype Tier = MasterDetective | GreatInspector | CapableSleuth | Apprentice | KeepInvestigating

  function TierRank(t: Tier): nat {
    match t
    case KeepInvestigating => 0
    case Apprentice => 1
    case CapableSleuth => 2
    case GreatInspector => 3
    case MasterDetective => 4
  }

  /** The score a tier asks for. */
  predicate Qualifies(t: Tier, score: int) {
    match t
    case MasterDetective => score >= 90
    case GreatInspector => score >= 75
    case CapableSleuth => score >= 50
    case Apprentice => score >= 25
    case KeepInvestigating => true
  }

  /** scoreCategory: the best tier whose threshold the score reaches. */
  function ScoreCategory(score: int): (tier: Tier)
    ensures Qualifies(tier, score)
    ensures forall t :: TierRank(t) > TierRank(tier) ==> !Qualifies(t, score)
  {
    if score >= 90 then MasterDetective
    else if score >= 75 then GreatInspector
    else if score >= 50 then CapableSleuth
    else if score >= 25 then Apprentice
    else KeepInvestigating
  }

  /** A higher score never earns a lower tier. */
  lemma ScoreCategoryMonotone(a: int, b: int)
    requires a <= b
    ensures TierRank(ScoreCategory(a)) <= TierRank(ScoreCategory(b))
  {
    // a's tier also admits b, and b's tier is the best one b qualifies for
    assert Qualifies(ScoreCategory(a), b);
  }
}
