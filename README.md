# Omniscience odds pipeline, modelled in Dafny

This project models the computational core of the Omniscience odds dashboard.
That core reads pasted sports-odds text and turns American odds into
vig-normalised implied probabilities. It keeps a bounded history per game and
market, computes technical indicators over that history, and combines them
into a Back / Fade / Hold recommendation with an expected value and a Kelly
stake.

The modules follow the repository's files:

| module | file | models |
|---|---|---|
| `Wrappers` | `wrappers.dfy` | `Option`, standing for Python's `None` |
| `Config` | `config.dfy` | `config/settings.py`, as an immutable `Settings` value with the shipped `Defaults` |
| `Text` | `text.dfy` | what the parser uses of `str.strip`, `str.split`, `str.splitlines`, `str.lower`, `str(int)`, `float()` on plain decimals, and the regular expressions `-?\d+`, `[+-]?\d+`, `\d+\.?\d*` and `-?\d+\.?\d*` |
| `OddsMath` | `odds_math.dfy` | the static helpers of `parser/odds_parser.py` |
| `OddsParser` | `odds_parser.dfy` | the 5-line, 4-line and splits grammars, plus `parse_feed` and `parse_splits_block` on a parser object that owns its `parsed_data` and `splits_data` lists |
| `Stats` | `stats.dfy` | the numpy reductions the indicators use: mean, population variance and standard deviation, min, max, diff, and Python's `xs[-n:]` |
| `TaEngine` | `ta_engine.dfy` | every indicator of `parser/ta/ta_engine.py` and the aggregate `calculate_all_ta_indicators` |
| `Recommendations` | `recommendations.dfy` | `RecommendationEngine.generate_recommendation` |
| `SeriesBuffer` | `series_buffer.dfy` | the dashboard's `push` closure, the buffer clear, and the buffer read that feeds the indicators (`app.py`) |

Values are Dafny `real`s, so the arithmetic is exact. Two places follow the code where it differs from its own comments.

- `_normalize_two_way` promises, in its docstring, the raw probability of the present side and `None` for the other. The code instead returns `(1.0, 0.0)` (or `(0.0, 1.0)`) whenever the present side's odds are nonzero. The model follows the code.
- `parse_feed` tests `cfg.parse_4line_blocks`, but the configuration defines only `parse_4_line_blocks`. Every 4-line block therefore raises `AttributeError` outside any `try`. Records mapped before that block stay appended to `parsed_data`.
  - The model has this as the `RaisedAttributeError` outcome.
  - It proves that auto mode, with the shipped settings, raises on every feed of at least four lines after the header.

## Model

| member | source | states |
|---|---|---|
| Text.NonBlankLinesOfJoin | parser/odds_parser.py:78 | Splitting a join of clean lines (separators may hold blank lines) and keeping the stripped non-blank lines gives back exactly those lines. |
| Text.DigitsSurviveStrip | parser/odds_parser.py:24 | Stripping a token keeps exactly its digits: the stripped token has a digit iff the token has one. |
| Text.ScanSignedIntFound | parser/odds_parser.py:30-31 | The `-?\d+` search finds a match iff the text has a digit. |
| Text.SignedIntMatchesRun | parser/odds_parser.py:146 | At an optional sign followed by a maximal run of digits, the `[+-]?\d+` search yields that text and then continues after it. |
| Text.SignedIntMatchesOfPair | parser/odds_parser.py:146 | The `[+-]?\d+` search on two signed digit strings separated by a space finds exactly those two, in order. |
| OddsMath.SanitizeIntToken | parser/odds_parser.py:21-31 | A value is read exactly when the token is present and either strips to "even" in any case or holds a digit. "even" gives 100. |
| OddsMath.SanitizeFormatted | parser/odds_parser.py:21-31 | An integer written as `str(n)`, optionally with a leading '+', sanitises back to n. |
| OddsMath.SanitizeOddsText | parser/odds_parser.py:21-31 | A written odds value is unchanged by stripping and sanitises back to its integer. |
| OddsMath.OddsTextParts | parser/odds_parser.py:146 | A written odds value is an optional sign followed by the digits of its magnitude, with no whitespace. |
| OddsMath.AmericanToProbRaw | parser/odds_parser.py:34-40 | Present exactly when the odds are. The result is in [0,1) and is 0 only for odds 0. Positive odds satisfy p·(odds+100) = 100; non-positive odds satisfy p·(100+\|odds\|) = \|odds\|. |
| OddsMath.NormalizeTwoWay | parser/odds_parser.py:43-55 | Both absent gives (None, None). Both present and not both 0 gives two probabilities in [0,1] summing to 1. One present side with nonzero odds gives (1,0) or (0,1). The un-normalised fallback fires exactly when every present side has odds 0, and it then returns 0.0 beside None. |
| OddsMath.NormalizeTwoWayShares | parser/odds_parser.py:49-55 | With both odds present and not both 0, each side's result times the sum of the raw probabilities is that side's raw probability: its share of the total. |
| OddsMath.OppositeVig | parser/odds_parser.py:57-61 | Present exactly when the vig is; the vig and its opposite sum to −220. |
| OddsMath.OppositeVigInvolution | parser/odds_parser.py:57-61 | Applying the opposite-vig rule twice returns the original vig. |
| OddsMath.EvenMarket | parser/odds_parser.py:43-61 | −110 is its own opposite, and −110/−110 normalises to (0.5, 0.5). |
| OddsMath.ParsePercentage | parser/odds_parser.py:63-72 | The empty token gives None. A token that is a plain decimal once stripped and cleared of '%' is read as that decimal. Any result implies the token has a digit. |
| OddsMath.PercentageOfDigits | parser/odds_parser.py:63-72 | "<digits>%" reads back as the digits' value. |
| OddsMath.PercentageOfDecimal | parser/odds_parser.py:63-72 | "<whole>.<frac>%" reads back as whole plus the fraction frac. |
| OddsMath.PercentageFallback | parser/odds_parser.py:68-72 | "<n> <word>" is no float, so the `\d+\.?\d*` fallback reads n. |
| OddsMath.PercentageFallbackExample | parser/odds_parser.py:68-72 | "55 pct" is read as 55.0 by the fallback. |
| OddsMath.PercentageOfNat | parser/odds_parser.py:63-72 | "<n>%" reads back as n. |
| OddsMath.ExtractPointValue | parser/odds_parser.py:249-254 | A value is found exactly when the token has a `-?\d` start somewhere. |
| OddsMath.PointValueOfInt | parser/odds_parser.py:249-254 | `str(n)` reads back as n. |
| OddsMath.PointValueAfterPrefix | parser/odds_parser.py:249-254 | After a prefix with no digit that does not end in '-', the leftmost match is the decimal `[-]<whole>.<frac>` that follows, with its sign. |
| OddsMath.PointValueOfDecimal | parser/odds_parser.py:249-254 | `[-]<whole>.<frac>` reads back as its signed value. |
| OddsMath.PointValueExample | parser/odds_parser.py:249-254 | "O8.5" gives 8.5: the letter is skipped. |
| OddsParser.VigPair | parser/odds_parser.py:129-132 | A vig and its opposite always normalise to a probability distribution, or to (None, None) when the vig is missing. |
| OddsParser.Parse5Line | parser/odds_parser.py:119-175 | A record exists exactly when there are 5 lines and the first has at least 4 tokens, and it is a 5-line record. |
| OddsParser.Parse5LineRecord | parser/odds_parser.py:122-172 | Date, time, favourite and spread points are tokens 1-4 of line 1, and the game id is date\|time\|favourite. The spread vig is line 2, stripped and sanitised. The total vig is line 4, sanitised. The spread and total pairs are distributions. The moneyline probabilities are the normalised moneylines, and they sum to 1 whenever both moneylines were read and not both are 0. |
| OddsParser.Parse5LineFirstLine | parser/odds_parser.py:122-127 | A first line of four words `date time favourite spread` gives a record with those fields and the game id date\|time\|favourite. |
| OddsParser.Parse5LineVigs | parser/odds_parser.py:129-144 | Odds v and w written with `str()` on lines 2 and 4 are read back as the spread vig v and the total vig w, with opposites −220 − v and −220 − w. |
| OddsParser.Parse5LineSidedTotal | parser/odds_parser.py:134-138 | A line 3 of 'o' or 'u' (either case) followed by a word gives side over or under, and the points are read from the rest of the word. |
| OddsParser.Parse5LinePlainTotal | parser/odds_parser.py:134-140 | A line 3 word that does not start with 'o' or 'u' gives no side, and the points are read from the whole word. |
| OddsParser.Parse5LineOverUnder | parser/odds_parser.py:134-138 | A line 3 such as "o45.5" gives that side and the decimal value. |
| OddsParser.MoneylineMatches | parser/odds_parser.py:146 | The signed-integer search on two odds written with `str()` and a space between them finds exactly those two. |
| OddsParser.Parse5LineMoneylines | parser/odds_parser.py:146-149 | Two odds written on line 5 are read as the away and home moneylines, and the moneyline probabilities are their normalisation. |
| OddsParser.Parse5LineExample | parser/odds_parser.py:119-172 | The layout comment's block gives: spread −3.5; favourite TeamA; total 45.5 over; moneylines −150/+130, normalised to 69/119 and 50/119; all vig pairs at 0.5/0.5; game id "01/01\|7:00pm\|TeamA". |
| OddsParser.Parse4Line | parser/odds_parser.py:180-223 | A record exists exactly when there are 4 lines and the first line has at least 5 tokens. Date and time are tokens 1-2 of line 1, the moneylines are tokens 3-4 sanitised, and their probabilities are the normalised moneylines. The total points are token 5. The game id is date\|time\|away\|home, with `str()` of the moneylines. The total vig is line 2 sanitised, and the total pair is a distribution. The runline points are read from the second token of line 3 when there is one, and are absent otherwise. The runline vig is line 4 sanitised, with its opposite. The runline probabilities are not kept. |
| OddsParser.Parse4LineFirstLine | parser/odds_parser.py:183-191 | A first line `date time away home total`, with both moneylines written with `str()`, gives those dates, moneylines, total and game id. |
| OddsParser.Parse4LineVigs | parser/odds_parser.py:193-200 | Odds w and x written with `str()` on lines 2 and 4 are read back as the total vig w and the runline vig x, with opposites −220 − w and −220 − x. |
| OddsParser.Parse4LineRunline | parser/odds_parser.py:197-198 | A line 3 of `<side> <point>` gives the runline points read from the second word. |
| OddsParser.FeedLines | parser/odds_parser.py:78-85 | Every line is stripped. The count is the number of non-blank lines, less one when header rows are ignored and there is a line. |
| OddsParser.FeedLinesOfJoin | parser/odds_parser.py:78-85 | Joining a header and clean lines with line breaks, blank lines allowed, and reading the feed gives back the lines, with the header only when header rows are kept. |
| OddsParser.FlushSize | parser/odds_parser.py:90-96 | The block size actually cut is 4 or 5; auto mode cuts at 4 whenever 4-line blocks are enabled. |
| OddsParser.ExpectMatchesFlushSize | parser/odds_parser.py:90-96 | The per-step flush rule fires at a block length exactly when that length is the flush size. |
| OddsParser.GroupLines | parser/odds_parser.py:83-100 | The grouping loop yields the blocks given by `Blocks` over the lines after the start. |
| OddsParser.BlocksPartition | parser/odds_parser.py:86-100 | Every block has the block size except possibly a last block of 4 or 5. The blocks laid end to end are a prefix of the lines. The leftover is shorter than the block size and is neither 4 nor 5 lines long. |
| OddsParser.AutoBlocksAreFourLine | parser/odds_parser.py:95-96 | In auto mode with 4-line blocks enabled, every block has 4 lines. |
| OddsParser.MapBlocksStep | parser/odds_parser.py:103-112 | While nothing has raised, each block appends its record, is dropped, or raises. |
| OddsParser.MapBlocksStopsAtRaise | parser/odds_parser.py:103-112 | Once a block raises, the outcome is the records appended before it. |
| OddsParser.MapBlocksRaises | parser/odds_parser.py:104-107 | The mapping loop raises exactly when some block has 4 lines. |
| OddsParser.MapBlocksRows | parser/odds_parser.py:104-112 | Only 5-line records are appended, at most one per block. |
| OddsParser.MapBlocksFirstRaise | parser/odds_parser.py:103-112 | A 4-line first block raises with nothing appended. |
| OddsParser.AutoFeedRaises | parser/odds_parser.py:77-112 | With 4-line blocks enabled, auto mode raises on every feed that leaves at least 4 lines, and appends nothing. |
| OddsParser.OmniscienceParser.ParseFeed | parser/odds_parser.py:77-114 | `parsed_data` grows by exactly the mapped rows and `splits_data` is unchanged. The result is those rows, or the raised error. |
| OddsParser.OmniscienceParser.MapFeedBlocks | parser/odds_parser.py:102-114 | The mapping loop appends in block order and stops at the first raise. |
| OddsParser.SplitsFromLines | parser/odds_parser.py:228-240 | A record exists exactly when there are at least 7 non-blank lines. |
| OddsParser.SplitsOfPercentages | parser/odds_parser.py:228-240 | With "<digits>%" on lines 4 to 7, the record holds those four values in order: away bets, home bets, away money, home money. |
| OddsParser.SplitsExample | parser/odds_parser.py:228-240 | Lines 4 to 7 reading 55%, 45%, 62% and 38% give those four percentages. |
| OddsParser.SplitsUseLinesFourToSeven | parser/odds_parser.py:232-235 | Two blocks that agree on lines 4 to 7 give the same record. |
| OddsParser.OmniscienceParser.ParseSplitsBlock | parser/odds_parser.py:228-244 | The result is the splits grammar over the non-blank lines. A record is appended to `splits_data` exactly when one is returned. `parsed_data` is unchanged. |
| TaEngine.MomentumGuards | parser/ta/ta_engine.py:6-15 | MOM_V exists exactly from period+1 values and MOM_A from 2·period+1. The sign of MOM_V is the sign of last − values[−period−1]. |
| TaEngine.MomentumAcceleration | parser/ta/ta_engine.py:10-14 | MOM_A is (MOM_V − the previous window's MOM_V)/period. |
| TaEngine.RsiRange | parser/ta/ta_engine.py:18-30 | None exactly below period+1 values. Otherwise the value is in [0,100], and it is exactly 100 iff the last `period` steps contain no loss. |
| TaEngine.ZScoreReported | parser/ta/ta_engine.py:33-36 | The z-score is None exactly below `lookback` values. |
| TaEngine.ZScoreFlat | parser/ta/ta_engine.py:37-40 | It is 0 for a constant window or a zero standard deviation. |
| TaEngine.ZScoreSign | parser/ta/ta_engine.py:37-41 | With a nonzero standard deviation, its sign is the sign of last − window mean. |
| TaEngine.SmaBounds | parser/ta/ta_engine.py:44-47 | None exactly on empty input. Otherwise it lies between the series' min and max, and is the whole mean when the period is 0 or covers the series. |
| TaEngine.Ema | parser/ta/ta_engine.py:50-58 | The smoothing loop returns None exactly on empty input, and otherwise the recursive EMA starting at values[0]. |
| TaEngine.EmaBounds | parser/ta/ta_engine.py:50-58 | For period ≥ 1 the EMA lies between the series' min and max. |
| TaEngine.AlphaRange | parser/ta/ta_engine.py:54 | For period ≥ 1, 0 < alpha ≤ 1. |
| TaEngine.AdaptivePeriod | parser/ta/ta_engine.py:67-74 | The window is at least the base period, and at most the max period unless the max is below the base. |
| TaEngine.AdaptiveMaBounds | parser/ta/ta_engine.py:61-75 | None exactly on empty input. Below the base period it is the mean of all values. Otherwise it lies between the series' min and max. |
| TaEngine.BollingerIsFourStd | parser/ta/ta_engine.py:78-84 | None exactly below `lookback` values. The width is 4× the window's standard deviation, non-negative, and 0 for a constant window. |
| TaEngine.AtrFacts | parser/ta/ta_engine.py:87-93 | None exactly below 2 points. The value is non-negative, and with fewer moves than `lookback` it averages all of them. |
| TaEngine.ImpliedVolatilityFacts | parser/ta/ta_engine.py:184-188 | None exactly below 2 values. The value is non-negative, and 0 when all steps are equal. |
| TaEngine.FibonacciLevelsOrder | parser/ta/ta_engine.py:96-113 | Empty exactly below 2 points. Level 0.0 is the window high and level 1.0 the low; the levels strictly descend when high > low. A flat window uses a swing of 1. |
| TaEngine.FibonacciExtensionsOrder | parser/ta/ta_engine.py:116-131 | Empty exactly below 2 points. The extensions strictly ascend above the high, and 2.0 is the high plus the swing (1 for a flat window). |
| TaEngine.DetectSteam | parser/ta/ta_engine.py:134-163 | The accumulating method equals the steam function: signals appended in checking order, with score weights 1, 1, 0.5 and 1. |
| TaEngine.WeightSumAppend | parser/ta/ta_engine.py:144-159 | Appending a signal adds its weight to the score. |
| TaEngine.ConfidenceThreshold | parser/ta/ta_engine.py:161-162 | The confidence min(1, score/3) lies in [0,1], and exceeds 0.4 exactly when the score is at least 1.5. |
| TaEngine.SignalsOrdered | parser/ta/ta_engine.py:145-159 | Whatever the z-score, velocity, volatility and splits, the signals raised appear at most once each, in the order zscore, momentum, volatility, sharp_splits. |
| TaEngine.SteamFacts | parser/ta/ta_engine.py:134-163 | Below 6 values the report is (False, 0.0, []). The confidence is in [0,1]. Steam holds exactly when the score is at least 1.5. Signals are in checking order. |
| TaEngine.RatiosEmpty | parser/ta/ta_engine.py:173-175 | Some ratio survives exactly when some point move exceeds 1e-8. |
| TaEngine.RatiosTwo | parser/ta/ta_engine.py:173-179 | At least two ratios survive exactly when two different zipped point moves exceed 1e-8. |
| TaEngine.GreeksFacts | parser/ta/ta_engine.py:166-181 | Delta exists exactly with at least 3 ips, at least 3 points and some point move. Gamma exists exactly when, in addition, two point moves exceed 1e-8. Vega exists exactly when delta does. Vega is the std of the ip steps, and is non-negative. |
| TaEngine.IpValuesEmpty | parser/ta/ta_engine.py:192 | The ip list is empty exactly when no point carries an ip. |
| TaEngine.IpValuesLast | parser/ta/ta_engine.py:192-197 | The last listed ip belongs to the last series point that carries one. |
| TaEngine.AllIndicatorsEmpty | parser/ta/ta_engine.py:191-196 | The aggregate is empty exactly when no series point carries an ip. |
| TaEngine.AllIndicatorsSummary | parser/ta/ta_engine.py:191-213 | A non-empty aggregate counts the present ips, reports the last series point that has an ip as current, keeps the last 500 ips as the series, and runs steam detection on the ips with no splits. |
| Stats.TailSuffix | parser/ta/ta_engine.py:212 | `xs[-n:]` is the suffix of `xs` of length n, or all of `xs` when n is 0 or too large, in the same order. |
| Recommendations.RecommendationEngine.GenerateRecommendation | engine/recommendations.py:11-81 | The step-by-step scorer returns exactly the recommendation function's result. |
| Recommendations.AddSideMomentum | engine/recommendations.py:34-40 | The moneyline loop applies the away side's step and then the home side's step. |
| Recommendations.AddForecasts | engine/recommendations.py:43-50 | The forecast loop applies each forecast's step in order. |
| Recommendations.ConfidenceBounds | engine/recommendations.py:53-57 | The confidence always lies in [0.05, 0.95], and equals 0.5 + score inside that band. |
| Recommendations.ActionThresholds | engine/recommendations.py:59-65 | Back iff confidence ≥ the strong threshold. Fade iff below it and ≤ the minimum − 0.1. Hold iff strictly between. |
| Recommendations.DefaultActionThresholds | engine/recommendations.py:59-65 | With the shipped settings: Back iff ≥ 0.80, Fade iff ≤ 0.45, Hold iff strictly between. |
| Recommendations.KellyBounds | engine/recommendations.py:67-69 | The stake is never negative and never above a non-negative cap. It is 0 (with ev ≤ 0) when the confidence is ≤ 0.5, and ev/0.05 when that lies within [0, cap]. |
| Recommendations.DefaultKellyBounds | engine/recommendations.py:67-69 | With the shipped cap the stake lies in [0, 0.20]. |
| Recommendations.ContributionBounds | engine/recommendations.py:23-50 | Spread momentum adds at most 0.5 in magnitude and a moneyline side at most 0.4, each with the velocity's sign. A forecast adds exactly ±0.2. |
| Recommendations.SpreadStepFacts | engine/recommendations.py:17-31 | The spread adds its momentum contribution and tag when MOM_V is present, and 0.3 × steam confidence with the steam tag when steam is flagged. It adds one narrative line per tag. |
| Recommendations.SideStepFacts | engine/recommendations.py:34-40 | A missing or zero side velocity changes nothing. A nonzero one adds its contribution and the `{side}_momentum` tag, but never a narrative line. |
| Recommendations.ForecastsNeverTag | engine/recommendations.py:43-50 | Forecasts never add a tag, and add exactly one narrative line per qualifying forecast. |
| Recommendations.RecommendationBounds | engine/recommendations.py:53-81 | Every recommendation has confidence in [0.05, 0.95], ev = (confidence − 0.5)·0.12, a stake in [0, cap], Back iff at or above the strong threshold, and the row's game id. |
| Recommendations.EmptyRecommendation | engine/recommendations.py:12-72 | No indicators and no forecasts give 0.5, Hold, ev 0, stake 0, and the game id copied. |
| Recommendations.SpreadOnlyExample | engine/recommendations.py:17-69 | A spread MOM_V of 0.01 with nothing else gives 0.95, Back, stake 0.20. |
| SeriesBuffer.SeriesBuffers.Push | app.py:56-63 | A missing ip changes nothing. Otherwise the point is appended under "gid\|market" (created empty first) and the list is cut to the cap. The invariant that each list is the last `cap` points pushed under its key is kept. |
| SeriesBuffer.SeriesBuffers.PushRow | app.py:65-68 | A row pushes away_ml, home_ml, spread (favourite ip, spread points) and total (over ip, total points), in that order. |
| SeriesBuffer.SeriesBuffers.PushRows | app.py:54-68 | Rows are pushed in feed order, and the buffer invariant is kept. |
| SeriesBuffer.SeriesBuffers.Clear | app.py:29-31 | Clearing empties every history. |
| SeriesBuffer.SeriesBuffers.ReadIndicators | app.py:76-82 | The read loop returns the indicators of each market of the game whose history is not empty. |
| SeriesBuffer.TailAppend | app.py:61-63 | Cutting to the last `cap` before or after an append keeps the same points. |
| SeriesBuffer.StoredTracksLogged | app.py:56-63 | A push keeps every stored list equal to the last `cap` points pushed under its key. |
| SeriesBuffer.TracksBounded | app.py:62-63 | Under the invariant, each list is a suffix of what was pushed, in push order. It holds exactly `cap` points once more were pushed, else all of them. |
| SeriesBuffer.StoredElsewhere | app.py:57-60 | A push with a missing ip changes nothing, and a push never touches another key. |
| SeriesBuffer.StoredAtKey | app.py:59-63 | After a push with an ip, the key exists and its list ends with the new point. The list is a suffix of the old list plus that point, of length min(cap, old length + 1). A cap of 0 keeps everything. |
| SeriesBuffer.KeysDistinct | app.py:59 | The four markets of a game have distinct keys. |
| SeriesBuffer.RowStoredFacts | app.py:65-68 | After a row, each market's history is its old history plus at most its one point, cut to the cap. |
| SeriesBuffer.IndicatorsFoldKeys | app.py:76-82 | The read has an entry for a market exactly when the market was read and its history is non-empty. |
| SeriesBuffer.IndicatorsFoldValues | app.py:76-82 | Each entry of the read is the indicator set of that market's history. |
| SeriesBuffer.IndicatorsOfFacts | app.py:76-82 | Over the four markets, there is an entry exactly for each non-empty history. |
| SeriesBuffer.ClearedHasNoIndicators | app.py:30-79 | After a clear, reading any game finds no indicators. |

## Left out

- Floating point. All values are `real`, so IEEE rounding is not modelled. One consequence: `0.55 - 0.1` at engine/recommendations.py:62 is slightly above 0.45 in floats, but exactly 0.45 here.
- numpy's `sqrt`, `std` and `median`.
  - The square root is an abstract non-negative function that is 0 exactly at 0 (`Stats.SqrtFn`).
  - `std` is that function applied to the population variance.
  - `median` is an uninterpreted function (`Stats.Numerics`), so the Greeks' delta and gamma values are only guarded, not computed.
- Stats.VarianceZero: proves only that a constant window has zero variance, not the converse.
- Stats.StdZero: same as VarianceZero; a zero standard deviation is not shown to imply a constant window.
- TaEngine.BollingerIsFourStd: proves width 0 for a constant window, not that width 0 forces a constant window.
- TaEngine.MomentumGuards, TaEngine.RsiRange, TaEngine.ZScoreReported, TaEngine.ZScoreFlat, TaEngine.ZScoreSign, TaEngine.BollingerIsFourStd, TaEngine.AdaptiveMaBounds: require a period or lookback of at least 1. The code divides by the period or slices with `-period`, and every caller passes a positive constant.
- Clocks. The `parsed_at`, `timestamp` and push-time readings of the current time are dropped from records. A push takes its time stamp as a text parameter.
- pandas. DataFrame construction, `NaN` for missing cells, and `to_dict()` are replaced by sequences of records. Missing values are `None`.
- Exceptions inside the block parsers. `_parse_5line` and `_parse_4line` catch every exception and return None (parser/odds_parser.py:173-174 and 222-223). Two such exceptions are not modelled, and in both cases the model returns a record where Python returns None:
  - `int()` raises ValueError on a numeral of more than 4300 digits.
  - `float(-odds)` raises OverflowError when the odds are at least about 1.8e308 (parser/odds_parser.py:38-40).
- Python `float()` syntax beyond plain decimals (exponents, `inf`, `nan`, underscores) and non-ASCII digits matched by `\d`.
- The dashboard's widgets, tables and messages, and the `run_auto` switch.
- `lmf_forecast`. app.py imports it from `ta.ta_engine`, which does not define it, so forecasts are an input to the scorer. A forecast's missing confidence is read as 0.0 by whoever builds the input. A present-but-`None` confidence, which would make the comparison raise, is not modelled.
- The import path `ta.ta_engine` used by app.py, although the engine lives at parser/ta/ta_engine.py.
- The text of narrative lines (`:.6f` and `:.2f` formatting, and the `'\n'` join). Each line is a record of the values it reports.
- The indicators' generic dictionary inputs. `calculate_all_ta_indicators` is modelled for series built the way the dashboard builds them (fields `ip` and `point`).
- Splits in the aggregate. `calculate_all_ta_indicators` passes the points positionally as `values_points`, so steam detection there never sees splits. `detect_steam_movement_advanced` itself takes splits as its own input, and does not use `values_points`.
- The configuration's `lmf_horizons` and the indicator defaults other than `default_history_len`. They are carried in `Settings` but never read by the modelled code, since the engine's functions use their own literals.
