/**
 * The recommendation scorer: capped contributions from the spread's
 * momentum and steam, from each moneyline side's momentum and from the
 * point-move forecasts are added to a score, the score is turned into a
 * confidence clamped to [0.05, 0.95], and the confidence decides the
 * action, the expected value and the Kelly stake.
 */
module Recommendations {
  import opened Wrappers
  import opened Stats
  import opened Config
  import opened TaEngine

  /** The four buffered markets of a game. */
  datatype Market = AwayMl | HomeMl | Spread | Total

  /** The market's name in buffer keys and trigger tags. */
  function MarketName(m: Market): string {
    match m
    case AwayMl => "away_ml"
    case HomeMl => "home_ml"
    case Spread => "spread"
    case Total => "total"
  }

  /** A point-move forecast; a missing confidence is read as 0.0 by whoever builds it. */
  datatype Forecast = Forecast(projectedPointMove: Option<real>, confidence: real)

  datatype Action = Back | Fade | Hold

  /** The entries of `triggered_indicators`. */
  datatype Trigger = SpreadMomentumTrigger | SteamTrigger | SideMomentumTrigger(side: Market)

  /** The text of a trigger: `spread_momentum`, `steam`, or `{side}_momentum`. */
  function TriggerName(t: Trigger): string {
    match t
    case SpreadMomentumTrigger => "spread_momentum"
    case SteamTrigger => "steam"
    case SideMomentumTrigger(side) => MarketName(side) + "_momentum"
  }

  /** The lines of the narrative, with the values they report. */
  datatype NarrativeLine =
    | SpreadMomentumLine(momV: real)
    | SteamLine(confidence: real)
    | ForecastLine(market: Market, move: real, confidence: real)

  /** The running state of the scorer. */
  datatype Tally = Tally(score: real, narrative: seq<NarrativeLine>, triggered: seq<Trigger>)

  /** The record `generate_recommendation` returns. */
  datatype Recommendation = Recommendation(
    gameId: Option<string>,
    action: Action,
    confidence: real,
    expectedValue: real,
    kellyStake: real,
    narrative: seq<NarrativeLine>,
    triggered: seq<Trigger>,
    indicatorSummary: map<Market, Option<IndicatorSet>>)

  // ---------------------------------------------------------------------
  // Contributions
  // ---------------------------------------------------------------------

  function Min(a: real, b: real): real {
    if b < a then b else a
  }

  /** `np.sign(v) * min(0.5, abs(v) * 100)` */
  function SpreadMomentumContribution(v: real): real {
    Sign(v) * Min(0.5, Abs(v) * 100.0)
  }

  /** `np.sign(v) * min(0.4, abs(v) * 120)` */
  function SideMomentumContribution(v: real): real {
    Sign(v) * Min(0.4, Abs(v) * 120.0)
  }

  /** A forecast counts when it projects a move larger than 0.3 points with confidence above 0.6. */
  predicate ForecastQualifies(f: Forecast) {
    f.projectedPointMove.Some? && f.projectedPointMove.value != 0.0 &&
    Abs(f.projectedPointMove.value) > 0.3 && f.confidence > 0.6
  }

  /** The indicators of a market, when they are present and not empty. */
  predicate HasIndicators(indicators: map<Market, Option<IndicatorSet>>, m: Market) {
    m in indicators && indicators[m].Some?
  }

  /** The spread's momentum and steam contributions. */
  function SpreadStep(t: Tally, indicators: map<Market, Option<IndicatorSet>>): Tally {
    if !HasIndicators(indicators, Spread) then t
    else
      var s := indicators[Spread].value;
      var afterMomentum :=
        match s.momentum.momV
        case Some(v) =>
          Tally(t.score + SpreadMomentumContribution(v), t.narrative + [SpreadMomentumLine(v)], t.triggered + [SpreadMomentumTrigger])
        case None => t;
      var steam := s.steamDetection;
      if steam.steam then
        Tally(afterMomentum.score + 0.3 * steam.confidence,
              afterMomentum.narrative + [SteamLine(steam.confidence)],
              afterMomentum.triggered + [SteamTrigger])
      else afterMomentum
  }

  /** One moneyline side's contribution: a nonzero velocity adds its score and a tag, no narrative. */
  function SideStep(t: Tally, indicators: map<Market, Option<IndicatorSet>>, side: Market): Tally {
    if !HasIndicators(indicators, side) then t
    else
      match indicators[side].value.momentum.momV
      case Some(v) =>
        if v != 0.0 then Tally(t.score + SideMomentumContribution(v), t.narrative, t.triggered + [SideMomentumTrigger(side)])
        else t
      case None => t
  }

  /** One forecast's contribution: a qualifying forecast adds 0.2 in its direction and a narrative line, no tag. */
  function ForecastStep(t: Tally, entry: (Market, Option<Forecast>)): Tally {
    match entry.1
    case None => t
    case Some(f) =>
      if ForecastQualifies(f) then
        var pm := f.projectedPointMove.value;
        Tally(t.score + 0.2 * Sign(pm), t.narrative + [ForecastLine(entry.0, pm, f.confidence)], t.triggered)
      else t
  }

  /** The forecasts' contributions, in order. */
  function ForecastsTally(t: Tally, forecasts: seq<(Market, Option<Forecast>)>): Tally {
    if forecasts == [] then t
    else ForecastStep(ForecastsTally(t, forecasts[..|forecasts| - 1]), forecasts[|forecasts| - 1])
  }

  /** All contributions: the spread, then the away and home sides, then the forecasts. */
  function FullTally(indicators: map<Market, Option<IndicatorSet>>, forecasts: seq<(Market, Option<Forecast>)>): Tally {
    var t := SpreadStep(Tally(0.0, [], []), indicators);
    ForecastsTally(SideStep(SideStep(t, indicators, AwayMl), indicators, HomeMl), forecasts)
  }

  // ---------------------------------------------------------------------
  // From score to recommendation
  // ---------------------------------------------------------------------

  /** `0.5 + score`, capped at 0.95 and then floored at 0.05. */
  function ConfidenceOf(score: real): real {
    var c := 0.5 + score;
    var capped := if c > 0.95 then 0.95 else c;
    if capped < 0.05 then 0.05 else capped
  }

  function ActionOf(cfg: Settings, confidence: real): Action {
    if confidence >= cfg.strongConfidenceThreshold then Back
    else if confidence <= cfg.minConfidenceForAction - 0.1 then Fade
    else Hold
  }

  function ExpectedValue(confidence: real): real {
    (confidence - 0.5) * 0.12
  }

  /** `max(0.0, min(cap, ev / 0.05))` */
  function KellyStake(cfg: Settings, ev: real): real {
    var k := Min(cfg.kellyFractionCap, ev / 0.05);
    if 0.0 >= k then 0.0 else k
  }

  /** The recommendation for a game, as a function of its indicators and forecasts. */
  function RecommendationOf(cfg: Settings, gameId: Option<string>, indicators: map<Market, Option<IndicatorSet>>,
                            forecasts: seq<(Market, Option<Forecast>)>): Recommendation
  {
    var t := FullTally(indicators, forecasts);
    var c := ConfidenceOf(t.score);
    var ev := ExpectedValue(c);
    Recommendation(gameId, ActionOf(cfg, c), c, ev, KellyStake(cfg, ev), t.narrative, t.triggered, indicators)
  }

  /** The `for side in ('away_ml', 'home_ml')` loop of `generate_recommendation`. */
  method AddSideMomentum(t: Tally, indicators: map<Market, Option<IndicatorSet>>) returns (u: Tally)
    ensures u == SideStep(SideStep(t, indicators, AwayMl), indicators, HomeMl)
  {
    var score, triggered := t.score, t.triggered;
    var sides := [AwayMl, HomeMl];
    var k := 0;
    while k < |sides|
      invariant 0 <= k <= |sides|
      invariant Tally(score, t.narrative, triggered) ==
        (if k == 0 then t
         else if k == 1 then SideStep(t, indicators, AwayMl)
         else SideStep(SideStep(t, indicators, AwayMl), indicators, HomeMl))
    {
      ghost var before := Tally(score, t.narrative, triggered);
      var side := sides[k];
      if side in indicators && indicators[side].Some? {
        var momv := indicators[side].value.momentum.momV;
        if momv.Some? && momv.value != 0.0 {
          score := score + SideMomentumContribution(momv.value);
          triggered := triggered + [SideMomentumTrigger(side)];
        }
      }
      assert Tally(score, t.narrative, triggered) == SideStep(before, indicators, side);
      k := k + 1;
    }
    u := Tally(score, t.narrative, triggered);
  }

  /** The `for market, fc in lmf_forecasts.items()` loop of `generate_recommendation`. */
  method AddForecasts(t: Tally, forecasts: seq<(Market, Option<Forecast>)>) returns (u: Tally)
    ensures u == ForecastsTally(t, forecasts)
  {
    var score, narrative := t.score, t.narrative;
    var i := 0;
    while i < |forecasts|
      invariant 0 <= i <= |forecasts|
      invariant Tally(score, narrative, t.triggered) == ForecastsTally(t, forecasts[..i])
    {
      ghost var before := Tally(score, narrative, t.triggered);
      var (mk, f) := forecasts[i];
      assert forecasts[..i + 1][..i] == forecasts[..i];
      if f.Some? {
        var pm := f.value.projectedPointMove;
        var conf := f.value.confidence;
        if pm.Some? && pm.value != 0.0 && Abs(pm.value) > 0.3 && conf > 0.6 {
          narrative := narrative + [ForecastLine(mk, pm.value, conf)];
          score := score + 0.2 * Sign(pm.value);
        }
      }
      assert Tally(score, narrative, t.triggered) == ForecastStep(before, forecasts[i]);
      i := i + 1;
    }
    assert forecasts[..i] == forecasts;
    u := Tally(score, narrative, t.triggered);
  }

  /** `RecommendationEngine`: a scorer holding read-only configuration. */
  class RecommendationEngine {
    const cfg: Settings

    constructor (cfg: Settings)
      ensures this.cfg == cfg
    {
      this.cfg := cfg;
    }

    /** `generate_recommendation`: accumulates the score, the narrative and the tags step by step. */
    method GenerateRecommendation(gameId: Option<string>, indicators: map<Market, Option<IndicatorSet>>,
                                  forecasts: seq<(Market, Option<Forecast>)>) returns (r: Recommendation)
      ensures r == RecommendationOf(cfg, gameId, indicators, forecasts)
    {
      var score := 0.0;
      var narrative: seq<NarrativeLine> := [];
      var triggered: seq<Trigger> := [];

      if Spread in indicators && indicators[Spread].Some? {
        var s := indicators[Spread].value;
        var momV := s.momentum.momV;
        if momV.Some? {
          score := score + SpreadMomentumContribution(momV.value);
          narrative := narrative + [SpreadMomentumLine(momV.value)];
          triggered := triggered + [SpreadMomentumTrigger];
        }
        var steam := s.steamDetection;
        if steam.steam {
          score := score + 0.3 * steam.confidence;
          narrative := narrative + [SteamLine(steam.confidence)];
          triggered := triggered + [SteamTrigger];
        }
      }
      assert Tally(score, narrative, triggered) == SpreadStep(Tally(0.0, [], []), indicators);
      var t := AddSideMomentum(Tally(score, narrative, triggered), indicators);
      t := AddForecasts(t, forecasts);
      score, narrative, triggered := t.score, t.narrative, t.triggered;

      var confidence := 0.5 + score;
      if confidence > 0.95 {
        confidence := 0.95;
      }
      if confidence < 0.05 {
        confidence := 0.05;
      }

      var action;
      if confidence >= cfg.strongConfidenceThreshold {
        action := Back;
      } else if confidence <= cfg.minConfidenceForAction - 0.1 {
        action := Fade;
      } else {
        action := Hold;
      }

      var ev := (confidence - 0.5) * 0.12;
      var kelly := Min(cfg.kellyFractionCap, ev / 0.05);
      if 0.0 >= kelly {
        kelly := 0.0;
      }
      r := Recommendation(gameId, action, confidence, ev, kelly, narrative, triggered, indicators);
    }
  }

  // ---------------------------------------------------------------------
  // Properties
  // ---------------------------------------------------------------------

  /** Whatever the score, the confidence lies in [0.05, 0.95]; inside that band it is `0.5 + score`. */
  lemma ConfidenceBounds(score: real)
    ensures 0.05 <= ConfidenceOf(score) <= 0.95
    ensures 0.05 <= 0.5 + score <= 0.95 ==> ConfidenceOf(score) == 0.5 + score
  {
  }

  /**
   * Back exactly at or above the strong threshold; Fade exactly below it and
   * at or under the action minimum less 0.1; Hold otherwise.
   */
  lemma ActionThresholds(cfg: Settings, c: real)
    ensures ActionOf(cfg, c) == Back <==> c >= cfg.strongConfidenceThreshold
    ensures ActionOf(cfg, c) == Fade <==> c < cfg.strongConfidenceThreshold && c <= cfg.minConfidenceForAction - 0.1
    ensures ActionOf(cfg, c) == Hold <==> cfg.minConfidenceForAction - 0.1 < c < cfg.strongConfidenceThreshold
  {
  }

  /** With the shipped thresholds: Back from 0.80, Fade up to 0.45. */
  lemma DefaultActionThresholds(c: real)
    ensures ActionOf(Defaults, c) == Back <==> c >= 0.80
    ensures ActionOf(Defaults, c) == Fade <==> c <= 0.45
    ensures ActionOf(Defaults, c) == Hold <==> 0.45 < c < 0.80
  {
    ActionThresholds(Defaults, c);
  }

  /**
   * The Kelly stake is never negative, never above a non-negative cap, and 0
   * whenever the confidence is at most 0.5; it equals `ev / 0.05` when that
   * lies between 0 and the cap.
   */
  lemma KellyBounds(cfg: Settings, c: real)
    ensures KellyStake(cfg, ExpectedValue(c)) >= 0.0
    ensures cfg.kellyFractionCap >= 0.0 ==> KellyStake(cfg, ExpectedValue(c)) <= cfg.kellyFractionCap
    ensures c <= 0.5 ==> ExpectedValue(c) <= 0.0 && KellyStake(cfg, ExpectedValue(c)) == 0.0
    ensures 0.0 <= ExpectedValue(c) / 0.05 <= cfg.kellyFractionCap ==>
      KellyStake(cfg, ExpectedValue(c)) == ExpectedValue(c) / 0.05
  {
  }

  /** With the shipped cap the stake lies in [0, 0.20]. */
  lemma DefaultKellyBounds(c: real)
    ensures 0.0 <= KellyStake(Defaults, ExpectedValue(c)) <= 0.20
  {
    KellyBounds(Defaults, c);
  }

  /**
   * Spread momentum adds at most 0.5 in magnitude and each moneyline side at
   * most 0.4, both with the sign of the velocity; a qualifying forecast adds
   * exactly 0.2 in the direction of its move.
   */
  lemma ContributionBounds(v: real, pm: real)
    ensures Abs(SpreadMomentumContribution(v)) <= 0.5
    ensures Abs(SideMomentumContribution(v)) <= 0.4
    ensures SpreadMomentumContribution(v) > 0.0 <==> v > 0.0
    ensures SideMomentumContribution(v) > 0.0 <==> v > 0.0
    ensures pm != 0.0 ==> Abs(0.2 * Sign(pm)) == 0.2
  {
  }

  /** The spread step adds a momentum line and tag exactly when MOM_V is present, and 0.3 times the steam confidence when steam is flagged. */
  lemma SpreadStepFacts(t: Tally, indicators: map<Market, Option<IndicatorSet>>)
    requires HasIndicators(indicators, Spread)
    ensures var s := indicators[Spread].value;
      var r := SpreadStep(t, indicators);
      var momentumPart := if s.momentum.momV.Some? then SpreadMomentumContribution(s.momentum.momV.value) else 0.0;
      var steamPart := if s.steamDetection.steam then 0.3 * s.steamDetection.confidence else 0.0;
      r.score == t.score + momentumPart + steamPart &&
      r.triggered == t.triggered + (if s.momentum.momV.Some? then [SpreadMomentumTrigger] else [])
                                 + (if s.steamDetection.steam then [SteamTrigger] else []) &&
      |r.narrative| == |r.triggered| - |t.triggered| + |t.narrative|
  {
  }

  /**
   * A side whose velocity is missing or 0 changes nothing; a nonzero
   * velocity adds its contribution and the tag `{side}_momentum`, and no
   * narrative line.
   */
  lemma SideStepFacts(t: Tally, indicators: map<Market, Option<IndicatorSet>>, side: Market)
    ensures var r := SideStep(t, indicators, side);
      r.narrative == t.narrative &&
      (if HasIndicators(indicators, side) && indicators[side].value.momentum.momV.Some? &&
          indicators[side].value.momentum.momV.value != 0.0
       then r.triggered == t.triggered + [SideMomentumTrigger(side)] &&
            r.score == t.score + SideMomentumContribution(indicators[side].value.momentum.momV.value)
       else r == t)
  {
  }

  /** Forecasts never add a tag, and add exactly one narrative line per qualifying forecast. */
  lemma {:induction false} ForecastsNeverTag(t: Tally, forecasts: seq<(Market, Option<Forecast>)>)
    ensures ForecastsTally(t, forecasts).triggered == t.triggered
    ensures |ForecastsTally(t, forecasts).narrative| - |t.narrative| ==
      |forecasts| - |NonQualifying(forecasts)|
  {
    if forecasts != [] {
      var init := forecasts[..|forecasts| - 1];
      ForecastsNeverTag(t, init);
      assert NonQualifying(forecasts) ==
        NonQualifying(init) + (if Qualifies(forecasts[|forecasts| - 1]) then [] else [forecasts[|forecasts| - 1]]);
    }
  }

  /** The forecast entry is present and qualifies. */
  predicate Qualifies(entry: (Market, Option<Forecast>)) {
    entry.1.Some? && ForecastQualifies(entry.1.value)
  }

  /** The forecast entries that do not count, in order. */
  function NonQualifying(forecasts: seq<(Market, Option<Forecast>)>): seq<(Market, Option<Forecast>)> {
    if forecasts == [] then []
    else
      var last := forecasts[|forecasts| - 1];
      NonQualifying(forecasts[..|forecasts| - 1]) + (if Qualifies(last) then [] else [last])
  }

  /** Every recommendation has a confidence in [0.05, 0.95] and a stake in [0, cap] for a non-negative cap. */
  lemma RecommendationBounds(cfg: Settings, gameId: Option<string>, indicators: map<Market, Option<IndicatorSet>>,
                             forecasts: seq<(Market, Option<Forecast>)>)
    ensures var r := RecommendationOf(cfg, gameId, indicators, forecasts);
      0.05 <= r.confidence <= 0.95 &&
      r.expectedValue == (r.confidence - 0.5) * 0.12 &&
      r.kellyStake >= 0.0 &&
      (cfg.kellyFractionCap >= 0.0 ==> r.kellyStake <= cfg.kellyFractionCap) &&
      (r.action == Back <==> r.confidence >= cfg.strongConfidenceThreshold) &&
      r.gameId == gameId
  {
    var t := FullTally(indicators, forecasts);
    ConfidenceBounds(t.score);
    KellyBounds(cfg, ConfidenceOf(t.score));
  }

  /** With no indicators and no forecasts: confidence 0.5, Hold, no value and no stake. */
  lemma EmptyRecommendation(cfg: Settings, gameId: Option<string>)
    requires cfg.minConfidenceForAction - 0.1 < 0.5 < cfg.strongConfidenceThreshold
    ensures RecommendationOf(cfg, gameId, map[], []) ==
      Recommendation(gameId, Hold, 0.5, 0.0, 0.0, [], [], map[])
  {
  }

  /** Spread MOM_V of 0.01 with no steam and nothing else: confidence 0.95, Back, stake 0.20. */
  lemma SpreadOnlyExample(gameId: Option<string>, s: IndicatorSet)
    requires s.momentum.momV == Some(0.01) && !s.steamDetection.steam
    ensures var r := RecommendationOf(Defaults, gameId, map[Spread := Some(s)], []);
      r.confidence == 0.95 && r.action == Back && r.kellyStake == 0.20 &&
      r.triggered == [SpreadMomentumTrigger] && r.narrative == [SpreadMomentumLine(0.01)]
  {
  }
}
