/**
 * The process-wide configuration, as an immutable value passed to each
 * component instead of a global singleton. `Defaults` holds the values the
 * repository ships with.
 */
module Config {

  datatype Settings = Settings(
    // parsing toggles
    ignoreHeaderRows: bool,
    parse5LineBlocks: bool,
    parse4LineBlocks: bool,
    // recommendation thresholds
    strongConfidenceThreshold: real,
    minConfidenceForAction: real,
    // forecast horizons, in minutes
    lmfHorizons: seq<nat>,
    // indicator defaults
    defaultHistoryLen: nat,
    rsiPeriod: nat,
    zscoreLookback: nat,
    bollingerLookback: nat,
    atrLookback: nat,
    // stake sizing
    kellyFractionCap: real)

  const Defaults := Settings(
    ignoreHeaderRows := true,
    parse5LineBlocks := true,
    parse4LineBlocks := true,
    strongConfidenceThreshold := 0.80,
    minConfidenceForAction := 0.55,
    lmfHorizons := [30, 60, 90],
    defaultHistoryLen := 300,
    rsiPeriod := 14,
    zscoreLookback := 20,
    bollingerLookback := 20,
    atrLookback := 14,
    kellyFractionCap := 0.20)
}
