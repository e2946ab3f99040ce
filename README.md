# A verified model of the stock-portfolio decision pipeline

This project is a Dafny model of the core of a stock-portfolio assistant. The original is a
TypeScript backend with a Redux front end. The model covers:

- **Indicators**: moving averages, EMA, MACD, RSI, KDJ, Bollinger bands, the trend label, trend
  strength, support/resistance and the three signal rules.
- **Fundamental quality score**: the step-function sub-scores, the weighted composite, the A–D
  rating and the guarded ratio helpers.
- **Position classifier**: the four-way category cascade and the technical, indicator and
  fundamental scorers.
- **Time-series analyser**: direction, momentum, confidence, risk factors and the recommendation
  cascade.
- **Per-stock recommender**: trend phase, the held/not-held transition tables, position sizes, the
  risk ladder, the time-node guards and the batch recommender.
- **Portfolio decision engine** and **theme composition**.
- **Risk control**, **sector analysis**, **report aggregations**, **system-health
  classification** and **user-experience aggregations**.
- **Sina quote parser**, with the Eastmoney field mapping.
- **WebSocket subscription registry**.
- The three route files' **position arithmetic and validation**, the analysis route's helpers,
  the market routes and the strategy routes.
- The four **Redux slices**.

Each source file is one Dafny module, in a `.dfy` file of its own:

| module | source file |
|---|---|
| `Util` | shared: optional values, JavaScript rounding, sums, `filter` |
| `Sorting` | shared: the in-place descending sort used by several services |
| `TechnicalAnalysis` | `backend/src/services/technicalAnalysis.ts` |
| `FundamentalAnalysis` | `backend/src/services/fundamentalAnalysis.ts` |
| `PositionClassification` | `backend/src/services/positionClassification.ts` |
| `TimeSeriesAnalysis` | `backend/src/services/timeSeriesAnalysis.ts` |
| `SmartPositionRecommendation` | `backend/src/services/smartPositionRecommendation.ts` |
| `DecisionEngine` | `backend/src/services/decisionEngine.ts` |
| `PortfolioStrategy` | `backend/src/services/portfolioStrategy.ts` |
| `RiskControl` | `backend/src/services/riskControl.ts` |
| `SectorAnalysis` | `backend/src/services/sectorAnalysis.ts` |
| `ReportGenerator` | `backend/src/services/reportGenerator.ts` |
| `SystemOptimization` | `backend/src/services/systemOptimization.ts` |
| `UserExperience` | `backend/src/services/userExperience.ts` |
| `DataSources` | `backend/src/config/dataSources.ts` |
| `WebSocket` | `backend/src/services/websocket.ts` |
| `PortfolioRoutes` | `backend/src/routes/portfolio.ts` |
| `AnalysisRoutes` | `backend/src/routes/analysis.ts` |
| `MarketRoutes` | `backend/src/routes/market.ts` |
| `StrategyRoutes` | `backend/src/routes/portfolioStrategy.ts` |
| `Store`, `PortfolioSlice`, `MarketSlice`, `UiSlice`, `AuthSlice` | `frontend/src/store/slices/*.ts` |

Code that fills arrays in loops, pushes into lists or mutates state is modelled as methods. Each
such method is proved equal to a specification function, and the properties are proved about that
function. The registry and the slices are classes whose methods update fields. Pure expressions
are functions. Prices, scores and ratios are `real`.

- Every `Math.random()` stand-in, clock reading, fetched database row and `parseFloat` result is a
  parameter.
- JavaScript `undefined` and the `NaN` of a division by zero are `None`.
- A comparison with `undefined` is false, as in JavaScript.

## Model

| member | source | states |
|---|---|---|
| TechnicalAnalysis.CalculateMA | backend/src/services/technicalAnalysis.ts:119-126 | max(0, n − period + 1) averages, the j-th being the mean of the `period` closes starting at j |
| TechnicalAnalysis.WindowMeanBounds | backend/src/services/technicalAnalysis.ts:119-126 | a moving average lies within the range of its window |
| TechnicalAnalysis.CalculateEMA | backend/src/services/technicalAnalysis.ts:153-163 | one EMA per close: ema[0] = p[0], ema[i] = p[i]·k + ema[i−1]·(1−k) with k = 2/(period+1) |
| TechnicalAnalysis.EmaOfConstant | backend/src/services/technicalAnalysis.ts:153-163 | a constant series is its own EMA |
| TechnicalAnalysis.EmaBounds | backend/src/services/technicalAnalysis.ts:153-163 | with 0 < k ≤ 1 the EMA stays within the range of the closes seen so far |
| TechnicalAnalysis.CalculateMACD | backend/src/services/technicalAnalysis.ts:129-150 | each entry: value = EMA12 − EMA26, signal = 9-period EMA of the MACD line, histogram = value − signal |
| TechnicalAnalysis.MacdOfConstant | backend/src/services/technicalAnalysis.ts:129-150 | a flat series has a zero MACD line and a zero signal |
| TechnicalAnalysis.RsiValueRange | backend/src/services/technicalAnalysis.ts:180-187 | RSI from non-negative averages lies in [0,100], and is 100 exactly when the average loss is 0 |
| TechnicalAnalysis.RsiAtRange | backend/src/services/technicalAnalysis.ts:166-190 | every RSI value lies in [0,100], and is 100 iff its 14-change window holds no loss |
| TechnicalAnalysis.GainsLossesNonNegative | backend/src/services/technicalAnalysis.ts:170-177 | gains and losses are never negative |
| TechnicalAnalysis.ChangesOf | backend/src/services/technicalAnalysis.ts:170-177 | the loop builds exactly the positive parts and the negated negative parts of the day-over-day changes |
| TechnicalAnalysis.CalculateRSI | backend/src/services/technicalAnalysis.ts:166-190 | n − 14 values (none for n ≤ 14), the j-th computed from the 14 changes starting at j |
| TechnicalAnalysis.CalculateKDJ | backend/src/services/technicalAnalysis.ts:193-218 | one entry per index from 8 on, each the K/D/J recurrence at that index (NaN as `None`) |
| TechnicalAnalysis.RsvRange | backend/src/services/technicalAnalysis.ts:198-203 | RSV of a window with a non-zero range lies in [0,100] |
| TechnicalAnalysis.KdjRange | backend/src/services/technicalAnalysis.ts:193-218 | every defined entry has K and D in [0,100]; the first entry has K = D = J = RSV |
| TechnicalAnalysis.KdjNaNPersists | backend/src/services/technicalAnalysis.ts:198-210 | a flat window (0/0) makes that entry and every later one NaN |
| TechnicalAnalysis.CalculateBollingerBands | backend/src/services/technicalAnalysis.ts:221-239 | one band per 20-window, each from the window mean and the square root of its variance |
| TechnicalAnalysis.BandsShape | backend/src/services/technicalAnalysis.ts:221-239 | middle = 20-day mean, upper and lower symmetric around it, ordered for a non-negative root |
| TechnicalAnalysis.DetermineTrend | backend/src/services/technicalAnalysis.ts:242-255 | 'up' iff close > MA5 > MA10 > MA20, 'down' iff the strict reverse chain, comparisons with undefined false |
| TechnicalAnalysis.SlopeDenominatorPositive | backend/src/services/technicalAnalysis.ts:270-281 | the least-squares denominator is positive from two points on |
| TechnicalAnalysis.SlopeOfConstant | backend/src/services/technicalAnalysis.ts:270-281 | a flat series has slope 0 |
| TechnicalAnalysis.TrendStrength | backend/src/services/technicalAnalysis.ts:258-268 | NaN iff fewer than 2 closes; otherwise in [0,100] and equal to \|slope\|·100 of the last 20 closes, times 1.2 when the slope agrees with the trend, capped at 100 |
| TechnicalAnalysis.TrendStrengthOfConstant | backend/src/services/technicalAnalysis.ts:258-281 | a flat history has strength 0 whatever the trend |
| TechnicalAnalysis.Support | backend/src/services/technicalAnalysis.ts:284-288 | 0.95 times the minimum of the last 60 closes: below 0.95·every close and equal to 0.95·one of them |
| TechnicalAnalysis.Resistance | backend/src/services/technicalAnalysis.ts:290-293 | 1.05 times the maximum of the last 60 closes |
| TechnicalAnalysis.SupportBelowResistance | backend/src/services/technicalAnalysis.ts:284-293 | for positive prices, support < resistance |
| TechnicalAnalysis.GenerateSignals | backend/src/services/technicalAnalysis.ts:296-345 | the MACD, RSI and alignment rules in that order, each adding at most one signal, so at most 3 |
| TechnicalAnalysis.AlignmentMatchesTrend | backend/src/services/technicalAnalysis.ts:330-342 | the alignment rule fires iff the trend is not sideways, with a buy exactly on an up trend |
| TechnicalAnalysis.RulesNeverConflict | backend/src/services/technicalAnalysis.ts:299-327 | the MACD rule buys exactly on a golden cross and sells only on a death cross; RSI buys exactly below 30 |
| TechnicalAnalysis.LatestMA | backend/src/services/technicalAnalysis.ts:99-104 | the last moving average is present iff the history holds at least `period` closes |
| TechnicalAnalysis.LatestMacd | backend/src/services/technicalAnalysis.ts:105 | the last MACD entry's histogram is its value minus its signal |
| TechnicalAnalysis.LatestRsi | backend/src/services/technicalAnalysis.ts:106 | the last RSI entry exists iff there are more closes than the RSI period |
| TechnicalAnalysis.LatestKdj | backend/src/services/technicalAnalysis.ts:107 | the last KDJ entry exists iff a full 9-close window exists |
| TechnicalAnalysis.LatestBoll | backend/src/services/technicalAnalysis.ts:108 | the last band entry exists iff a full 20-close window exists |
| TechnicalAnalysis.LatestIndicators | backend/src/services/technicalAnalysis.ts:98-109 | the indicators block: the 20-day average, RSI, KDJ and bands are each present iff the history is long enough |
| TechnicalAnalysis.LastOfMA | backend/src/services/technicalAnalysis.ts:99-104 | the last entry of the array `calculateMA` returns is the mean of the last `period` closes, `undefined` on a short history |
| TechnicalAnalysis.LastOfMacd | backend/src/services/technicalAnalysis.ts:105 | the last entry of the MACD array is the MACD of the last close |
| TechnicalAnalysis.LastOfKdj | backend/src/services/technicalAnalysis.ts:107 | the last entry of the KDJ array is the KDJ of the last close, `undefined` on a short history |
| TechnicalAnalysis.LastOfBoll | backend/src/services/technicalAnalysis.ts:108 | the last entry of the band array is the band of the last 20 closes, `undefined` on a short history |
| TechnicalAnalysis.LatestMAOf | backend/src/services/technicalAnalysis.ts:61-66 | running the moving average and reading its last entry gives the latest average |
| TechnicalAnalysis.LatestMacdOf | backend/src/services/technicalAnalysis.ts:68 | running the MACD and reading its last entry gives the latest MACD |
| TechnicalAnalysis.LatestRsiOf | backend/src/services/technicalAnalysis.ts:69 | running the RSI and reading its last entry gives the latest RSI |
| TechnicalAnalysis.LatestKdjOf | backend/src/services/technicalAnalysis.ts:70 | running the KDJ and reading its last entry gives the latest KDJ |
| TechnicalAnalysis.LatestBollOf | backend/src/services/technicalAnalysis.ts:71 | running the bands and reading their last entry gives the latest bands |
| TechnicalAnalysis.LatestIndicatorsOf | backend/src/services/technicalAnalysis.ts:61-71 | the ten indicator values the report carries are exactly the latest indicators |
| TechnicalAnalysis.ReportFrom | backend/src/services/technicalAnalysis.ts:73-111 | the report carries the given indicators, the trend of the last close against the 5/10/20-day averages, the MACD, RSI and alignment signals in that order (at most 3), and a strength in [0,100] that is missing iff there are fewer than two closes |
| TechnicalAnalysis.ReportWellFormed | backend/src/services/technicalAnalysis.ts:73-75 | on real indicators an up or down trend always has a strength |
| TechnicalAnalysis.GetTechnicalAnalysis | backend/src/services/technicalAnalysis.ts:49-116 | fails iff the history is empty; otherwise exactly the report built from the latest indicators, which is well formed |
| FundamentalAnalysis.OrZero | backend/src/services/fundamentalAnalysis.ts:85-86 | JavaScript `value \|\| 0`: a missing field reads as 0, a present one as itself |
| FundamentalAnalysis.PriceToSales | backend/src/services/fundamentalAnalysis.ts:101-107 | 0 without positive revenue, otherwise the positive ratio whose product with revenue is the assumed market cap 1e10 |
| FundamentalAnalysis.PriceEarningsToGrowth | backend/src/services/fundamentalAnalysis.ts:109-114 | 0 unless profit growth is positive, otherwise the ratio whose product with the growth is the PE |
| FundamentalAnalysis.ReturnOnAssets | backend/src/services/fundamentalAnalysis.ts:139-144 | 0 without positive assets, otherwise net profit as a percentage of assets |
| FundamentalAnalysis.NetMargin | backend/src/services/fundamentalAnalysis.ts:152-157 | 0 without positive revenue, otherwise net profit as a percentage of revenue |
| FundamentalAnalysis.DebtRatio | backend/src/services/fundamentalAnalysis.ts:217-222 | 0 without positive assets, otherwise liabilities as a percentage of assets |
| FundamentalAnalysis.CalculateMetrics | backend/src/services/fundamentalAnalysis.ts:84-240 | every metric group is read from the record (missing fields as 0) or the guarded ratios above, growth from the random draws |
| FundamentalAnalysis.ScorePE | backend/src/services/fundamentalAnalysis.ts:306-313 | 0 exactly for a non-positive PE, otherwise one of the step values |
| FundamentalAnalysis.ScorePB | backend/src/services/fundamentalAnalysis.ts:315-322 | 0 exactly for a non-positive PB, otherwise one of the step values |
| FundamentalAnalysis.ScoreROE | backend/src/services/fundamentalAnalysis.ts:324-330 | a step value; 100 iff ROE ≥ 20, 40 iff ROE < 5 |
| FundamentalAnalysis.ScoreMargin | backend/src/services/fundamentalAnalysis.ts:332-338 | a step value; 100 iff margin ≥ 20, 40 iff margin < 5 |
| FundamentalAnalysis.ScoreGrowth | backend/src/services/fundamentalAnalysis.ts:340-347 | a step value of the mean growth; 100 iff the mean is ≥ 30, 40 iff it is negative |
| FundamentalAnalysis.ScoreDebt | backend/src/services/fundamentalAnalysis.ts:349-355 | a step value; 100 iff the debt ratio is ≤ 20, 40 iff it is > 80 |
| FundamentalAnalysis.ScoreLiquidity | backend/src/services/fundamentalAnalysis.ts:357-363 | a step value; 100 iff the current ratio is ≥ 3, 40 iff it is < 1 |
| FundamentalAnalysis.ValuationScoresNonIncreasing | backend/src/services/fundamentalAnalysis.ts:306-322 | among positive ratios a cheaper PE or PB never scores lower |
| FundamentalAnalysis.StepScoresMonotone | backend/src/services/fundamentalAnalysis.ts:324-363 | better ROE, margin, growth and liquidity never score lower; more debt never scores higher |
| FundamentalAnalysis.RawQualityScoreRange | backend/src/services/fundamentalAnalysis.ts:242-281 | the weighted composite (25/30/25/20) is never clamped: it lies in [50,175] and is 175 exactly when every sub-score is at its best |
| FundamentalAnalysis.QualityScoreRange | backend/src/services/fundamentalAnalysis.ts:298 | the rounded score lies in [50,175] |
| FundamentalAnalysis.RatingMonotone | backend/src/services/fundamentalAnalysis.ts:290-294 | a higher score never gets a worse A–D rating |
| FundamentalAnalysis.NeverRatedD | backend/src/services/fundamentalAnalysis.ts:290-294 | since the composite is at least 50, rating D is unreachable |
| FundamentalAnalysis.StrengthsExact | backend/src/services/fundamentalAnalysis.ts:253-286 | each strength is listed exactly when its threshold (PE in (0,15), ROE > 15, revenue growth > 20, debt < 30) holds |
| FundamentalAnalysis.WeaknessesExact | backend/src/services/fundamentalAnalysis.ts:253-286 | each weakness is listed exactly when its threshold holds and its strength does not; at most four remarks in all |
| FundamentalAnalysis.Remarks | backend/src/services/fundamentalAnalysis.ts:253-286 | the if/else-if pushes build exactly the strengths and weaknesses lists, in metric order |
| FundamentalAnalysis.CalculateQualityScore | backend/src/services/fundamentalAnalysis.ts:242-304 | score = round of the weighted composite, rating = its band, remarks as above |
| FundamentalAnalysis.GetFundamentalAnalysis | backend/src/services/fundamentalAnalysis.ts:41-81 | fails iff there is no fundamental record; otherwise the four metric groups of the record, the rounded quality score, its rating, and exactly the strengths and weaknesses their thresholds call for |
| PositionClassification.TrendPoints | backend/src/services/positionClassification.ts:64-71 | the trend share lies in [0,40] and is 20 when sideways |
| PositionClassification.MaScore | backend/src/services/positionClassification.ts:85-108 | 100 iff the price and MA5/10/20/60 form the full bullish chain, 0 iff the full bearish one, otherwise 70, 30 or 50 |
| PositionClassification.MaScoreAgreesWithTrend | backend/src/services/positionClassification.ts:85-108 | a full bullish alignment implies the up trend label and a full bearish one the down label |
| PositionClassification.MacdPoints | backend/src/services/positionClassification.ts:114-120 | 25 exactly on a golden cross, 0 exactly on a death cross, else 12.5 |
| PositionClassification.RsiPoints | backend/src/services/positionClassification.ts:123-131 | 25 iff RSI < 30, 0 iff RSI > 70, 10 for an undefined RSI |
| PositionClassification.KdjPoints | backend/src/services/positionClassification.ts:134-140 | 25 iff K > D and J > K, 0 iff K < D and J < K, 12.5 for the NaN entry |
| PositionClassification.BollingerPosition | backend/src/services/positionClassification.ts:151-164 | 0 at or above the upper band, 100 at or below the lower, 25 for an undefined price |
| PositionClassification.IndicatorScore | backend/src/services/positionClassification.ts:111-148 | undefined (a TypeError) exactly when the KDJ entry or the bands are missing |
| PositionClassification.IndicatorScoreSaturated | backend/src/services/positionClassification.ts:143-147 | the Bollinger share is always 25 × 25, so every accepted indicator set scores exactly 100 |
| PositionClassification.CalculateIndicatorScore | backend/src/services/positionClassification.ts:111-148 | the accumulating method computes the indicator score |
| PositionClassification.TechnicalScore | backend/src/services/positionClassification.ts:61-82 | undefined exactly when the indicator score is |
| PositionClassification.TechnicalScoreRange | backend/src/services/positionClassification.ts:61-82 | the cap never binds: the score is the trend share + 0.3·alignment + 30, within [30,100] |
| PositionClassification.TechnicalScoreStrengthMonotone | backend/src/services/positionClassification.ts:64-68 | a stronger up trend never lowers the technical score and a stronger down trend never raises it |
| PositionClassification.CalculateTechnicalScore | backend/src/services/positionClassification.ts:61-82 | the method computes the technical score |
| PositionClassification.PePoints | backend/src/services/positionClassification.ts:186-221 | the PE share lies in [10,40] and is 40 iff 0 < PE < 15 |
| PositionClassification.PbPoints | backend/src/services/positionClassification.ts:186-221 | the PB share lies in [5,30] and is 30 iff 0 < PB < 2 |
| PositionClassification.PegPoints | backend/src/services/positionClassification.ts:186-221 | the PEG share lies in [10,30] and is 30 iff 0 < PEG < 1 |
| PositionClassification.ValuationScore | backend/src/services/positionClassification.ts:186-221 | lies in [25,100] and is 100 iff all three shares are at their best, so the cap never binds |
| PositionClassification.ScoreValuation | backend/src/services/positionClassification.ts:186-221 | the method computes the valuation score |
| PositionClassification.RoePoints | backend/src/services/positionClassification.ts:224-261 | the ROE share lies in [10,40] and is 40 iff ROE ≥ 20 |
| PositionClassification.NetMarginPoints | backend/src/services/positionClassification.ts:224-261 | the net-margin share lies in [5,30] and is 30 iff margin ≥ 15 |
| PositionClassification.GrossMarginPoints | backend/src/services/positionClassification.ts:224-261 | the gross-margin share lies in [5,30] and is 30 iff margin ≥ 40 |
| PositionClassification.ProfitabilityScore | backend/src/services/positionClassification.ts:224-261 | lies in [20,100] and is 100 iff every share is at its best |
| PositionClassification.ScoreProfitability | backend/src/services/positionClassification.ts:224-261 | the method computes the profitability score |
| PositionClassification.GrowthScore | backend/src/services/positionClassification.ts:264-278 | lies in [20,100]; 100 iff the mean growth is ≥ 30, 20 iff it is negative |
| PositionClassification.GrowthScoreMonotone | backend/src/services/positionClassification.ts:264-278 | faster mean growth never scores lower |
| PositionClassification.DebtPoints | backend/src/services/positionClassification.ts:281-318 | the debt share lies in [5,50] and is 50 iff the debt ratio is ≤ 30 |
| PositionClassification.CurrentRatioPoints | backend/src/services/positionClassification.ts:281-318 | the current-ratio share lies in [5,30] and is 30 iff the ratio is ≥ 2 |
| PositionClassification.CoveragePoints | backend/src/services/positionClassification.ts:281-318 | the coverage share lies in [0,20] and is 20 iff coverage is ≥ 5 |
| PositionClassification.FinancialScore | backend/src/services/positionClassification.ts:281-318 | lies in [10,100] and is 100 iff every share is at its best |
| PositionClassification.ScoreFinancial | backend/src/services/positionClassification.ts:281-318 | the method computes the financial score |
| PositionClassification.FundamentalScoreRange | backend/src/services/positionClassification.ts:167-183 | the 25/30/25/20 blend lies in [19.25,100] and is 100 iff every sub-score is 100 |
| PositionClassification.CalculateFundamentalScore | backend/src/services/positionClassification.ts:167-183 | the method computes the fundamental blend |
| PositionClassification.OverallScoreProperties | backend/src/services/positionClassification.ts:43 | the 40/30/30 blend is monotone in each score and stays in [0,100] when they do |
| PositionClassification.RatingAtLeastB | backend/src/services/positionClassification.ts:365 | the string comparison `rating >= 'B'` holds for B, C and D and fails for A |
| PositionClassification.CategoryConditions | backend/src/services/positionClassification.ts:347-393 | right iff overall ≥ 80, up trend and rating A; left iff overall ≥ 60, sideways and rating not A; defensive iff its own guard holds and left's does not; below 50 always observation |
| PositionClassification.CategoryMonotone | backend/src/services/positionClassification.ts:347-393 | raising the overall score never moves a position further down the cascade |
| PositionClassification.Confidence | backend/src/services/positionClassification.ts:351-385 | every confidence lies in [60,90] |
| PositionClassification.ConfidenceFollowsCascade | backend/src/services/positionClassification.ts:347-393 | a category earlier in the cascade has strictly higher confidence, and conversely |
| PositionClassification.DetermineCategory | backend/src/services/positionClassification.ts:337-402 | the cascade's category and confidence, three reasons and one recommendation whose action and target (110% of resistance, 95% of support, none) match the category |
| PositionClassification.ClassifyPosition | backend/src/services/positionClassification.ts:26-58 | fails iff an analysis fails or the KDJ or bands are missing; otherwise the scores are the technical, fundamental and market scores, overall is their blend in [0,100], and the category follows the cascade |
| TimeSeriesAnalysis.HorizonFor | backend/src/services/timeSeriesAnalysis.ts:165 | 'daily' iff at most 7 points, 'monthly' iff more than 30, otherwise 'weekly' |
| TimeSeriesAnalysis.CountTrendTotal | backend/src/services/timeSeriesAnalysis.ts:180-182 | the up, down and sideways counts add up to the number of points |
| TimeSeriesAnalysis.Share | backend/src/services/timeSeriesAnalysis.ts:180-182 | every trend share lies in [0,1] |
| TimeSeriesAnalysis.UpDownShares | backend/src/services/timeSeriesAnalysis.ts:180-182 | the up and down shares add up to at most one |
| TimeSeriesAnalysis.SeriesSlopeOfConstant | backend/src/services/timeSeriesAnalysis.ts:395-408 | a flat series has slope 0 (also for fewer than two points) |
| TimeSeriesAnalysis.DirectionConditions | backend/src/services/timeSeriesAnalysis.ts:191-197 | improving iff the up share > 0.6 with both slopes positive; deteriorating iff the down share > 0.6 with both slopes negative; the two never overlap |
| TimeSeriesAnalysis.MomentumRange | backend/src/services/timeSeriesAnalysis.ts:200-202 | momentum lies in [−1,1]; it is above 0.68 when improving and below −0.68 when deteriorating |
| TimeSeriesAnalysis.ConfidenceRange | backend/src/services/timeSeriesAnalysis.ts:205-212 | the confidence lies in [0,1] and the cap at 1 never binds |
| TimeSeriesAnalysis.FactorsForExact | backend/src/services/timeSeriesAnalysis.ts:224-248 | the factor list holds each factor exactly when its flag is set, without repeats |
| TimeSeriesAnalysis.RiskFactorsExact | backend/src/services/timeSeriesAnalysis.ts:217-248 | high volatility iff mean volatility > 0.3, large drawdown iff the worst drawdown > 0.2, weak fundamentals iff the latest score < 60, weak technicals iff the latest strength < 40; at most four, no repeats |
| TimeSeriesAnalysis.FindFactors | backend/src/services/timeSeriesAnalysis.ts:224-248 | the pushes build exactly the factor list, with the mitigation at the same index |
| TimeSeriesAnalysis.CalculateRiskAssessment | backend/src/services/timeSeriesAnalysis.ts:217-265 | the factors above, one mitigation per factor, and the level graded by their count (0 low, ≤ 2 medium, else high) |
| TimeSeriesAnalysis.GenerateRecommendation | backend/src/services/timeSeriesAnalysis.ts:269-308 | continue iff improving at low risk, replace iff deteriorating at high risk, rebalance iff stable, adjust otherwise, with the confidence of each branch |
| TimeSeriesAnalysis.AnalyzeTimeSeriesTrend | backend/src/services/timeSeriesAnalysis.ts:151-171 | fails iff the series is empty; otherwise the horizon, the trend analysis with confidence in [0,1], the risk factors found with one mitigation each and a level that matches their count, and advice that continues, replaces or rebalances exactly under the recommendation rules for that trend and level, with their confidences |
| SmartPositionRecommendation.AssessMASystem | backend/src/services/smartPositionRecommendation.ts:261-280 | 100 iff MA5 > MA10 > MA20 > MA60, at least 75 iff MA5 > MA10 > MA20, otherwise 50 or 25 |
| SmartPositionRecommendation.IndicatorScore | backend/src/services/smartPositionRecommendation.ts:285-318 | undefined (a TypeError) exactly when the KDJ entry is missing; otherwise in [40,100], and 100 only on a golden cross with RSI below 30 |
| SmartPositionRecommendation.AssessIndicators | backend/src/services/smartPositionRecommendation.ts:285-318 | the accumulating method computes the indicator score |
| SmartPositionRecommendation.SignalWeight | backend/src/services/smartPositionRecommendation.ts:331-336 | a signal weighs between 0.5 and 2 |
| SmartPositionRecommendation.KindStrengthBound | backend/src/services/smartPositionRecommendation.ts:323-337 | buy and sell strengths are non-negative and together at most two per signal |
| SmartPositionRecommendation.AssessSignalsRange | backend/src/services/smartPositionRecommendation.ts:323-337 | the signal score stays within 40 points per signal of 50 |
| SmartPositionRecommendation.SignalScoreUnclamped | backend/src/services/smartPositionRecommendation.ts:323-337 | two strong buys give 130: the signal score is not clamped to 100 |
| SmartPositionRecommendation.TrendShare | backend/src/services/smartPositionRecommendation.ts:234-241 | the trend share lies in [0,30] |
| SmartPositionRecommendation.TechnicalScore | backend/src/services/smartPositionRecommendation.ts:231-256 | undefined exactly when the KDJ entry is; otherwise capped at 100 |
| SmartPositionRecommendation.TechnicalScoreRange | backend/src/services/smartPositionRecommendation.ts:231-256 | with at most three signals the technical score lies in [2.25,100] |
| SmartPositionRecommendation.AssessTechnical | backend/src/services/smartPositionRecommendation.ts:231-256 | the method computes the technical score |
| SmartPositionRecommendation.AssessTrend | backend/src/services/smartPositionRecommendation.ts:352-368 | the trend score is clamped to [0,100] and is 50 with fewer than two points |
| SmartPositionRecommendation.AssessTrendCeiling | backend/src/services/smartPositionRecommendation.ts:352-368 | with non-negative volatilities the score is at most 75, and at most 35 without a positive mean return |
| SmartPositionRecommendation.VolatilityMeanNonNegative | backend/src/services/smartPositionRecommendation.ts:358-360 | the mean recent volatility is non-negative when every volatility is |
| SmartPositionRecommendation.OverallScoreMonotone | backend/src/services/smartPositionRecommendation.ts:196-200 | the 30/25/25/20 blend is monotone in every score |
| SmartPositionRecommendation.PhaseMatchesTrend | backend/src/services/smartPositionRecommendation.ts:381-408 | bottom-building and pullback only on a down trend, breakout and continuation only on an up trend, consolidation iff sideways, uncertain iff a weak up or a strong down trend |
| SmartPositionRecommendation.DetermineOpportunityLevel | backend/src/services/smartPositionRecommendation.ts:413-442 | high only in the breakout phase, medium-high only when bottom-building with fundamentals ≥ 70, very-low iff the mean is below 40 and the medium-high guard fails |
| SmartPositionRecommendation.StrategyShape | backend/src/services/smartPositionRecommendation.ts:447-520 | build only when not held; upgrade, add, reduce and exit only when held; exit only below 40 (confidence 75), upgrade at 85, all confidences in [50,85] |
| SmartPositionRecommendation.ConsolidationReducesBeforeExit | backend/src/services/smartPositionRecommendation.ts:447-520 | a held stock in consolidation below 40 is reduced, not exited, because the consolidation rule comes first |
| SmartPositionRecommendation.GeneratePositionStrategy | backend/src/services/smartPositionRecommendation.ts:447-520 | the transition table's decision, with two reasoning lines when building and one otherwise |
| SmartPositionRecommendation.GenerateTimeNodes | backend/src/services/smartPositionRecommendation.ts:525-614 | the nodes are those of the guards: build-left for an unheld stock at 70 or more; for a held one upgrade-to-right on a breakout at 75 or more, upgrade-to-mainline in a continuing up trend at 80 or more, reduce below 50 and exit below 40; the add list is always empty; each node has its fixed priority and confidence |
| SmartPositionRecommendation.TimeNodesAgreeWithStrategy | backend/src/services/smartPositionRecommendation.ts:447-614 | an exit node implies a reduce node; an exit or upgrade strategy always comes with its node |
| SmartPositionRecommendation.SizesMonotone | backend/src/services/smartPositionRecommendation.ts:619-668 | for a fixed phase, left, right and mainline sizes never shrink as the overall score grows |
| SmartPositionRecommendation.CalculatePositionSize | backend/src/services/smartPositionRecommendation.ts:619-668 | each size is its table value from the fixed sets, and the maximum is the largest of the three |
| SmartPositionRecommendation.CalculateRiskControl | backend/src/services/smartPositionRecommendation.ts:673-714 | for a positive price: stop loss < price < target, four ladder rungs strictly rising in price and ratio, the first above the stop and the last above the target |
| SmartPositionRecommendation.GenerateEntrySignal | backend/src/services/smartPositionRecommendation.ts:748-757 | breakout entry iff up with quality ≥ 70, watch iff up with quality < 70, left-side iff sideways with quality ≥ 80 |
| SmartPositionRecommendation.GenerateExitSignal | backend/src/services/smartPositionRecommendation.ts:762-771 | breakdown exit iff down with quality < 50, fundamental exit iff quality < 40 otherwise |
| SmartPositionRecommendation.EntryExitConsistent | backend/src/services/smartPositionRecommendation.ts:748-771 | an entry to build never comes with an exit signal; an exit signal needs a down trend or quality below 40 |
| SmartPositionRecommendation.ForecastTrend | backend/src/services/smartPositionRecommendation.ts:808-823 | up iff a strong (> 70) up trend, down iff a strong down trend, with probabilities 75/70/50 |
| SmartPositionRecommendation.ForecastMatchesPhase | backend/src/services/smartPositionRecommendation.ts:808-823 | an upward forecast is made exactly in the breakout phase |
| SmartPositionRecommendation.GenerateRecommendation | backend/src/services/smartPositionRecommendation.ts:83-162 | fails iff an analysis fails or the KDJ entry is missing; otherwise the recommendation carries the code, the held flag and the price, and the assessment's scores, phase and opportunity determine the strategy, the time nodes, the left, right, mainline and largest sizes, the risk control, the entry and exit signals from the trend and quality score, and the forecast |
| SmartPositionRecommendation.Successes | backend/src/services/smartPositionRecommendation.ts:835-842 | the failed recommendations are dropped, so no more than the inputs remain |
| SmartPositionRecommendation.GenerateBatchRecommendations | backend/src/services/smartPositionRecommendation.ts:829-846 | the successful recommendations, permuted and sorted by confidence, highest first |
| DecisionEngine.PositionSizeOrder | backend/src/services/decisionEngine.ts:218-224 | a reduce never sizes above the holding and an increase never below it, each within 1000 shares of it |
| DecisionEngine.SingleDecisionShape | backend/src/services/decisionEngine.ts:160-237 | never 'buy'; a target price exactly on an increase; a stop loss exactly on a sell or a high-risk reduce; sell iff the advice is replace; confidence in [0.5,0.9] |
| DecisionEngine.GenerateSinglePositionDecision | backend/src/services/decisionEngine.ts:160-237 | the method follows the decision table |
| DecisionEngine.GeneratePositionDecisions | backend/src/services/decisionEngine.ts:135-157 | one decision per holding, from that holding's own analysis and category, in holding order |
| DecisionEngine.CountsAddUp | backend/src/services/decisionEngine.ts:244-249 | every decision is counted in exactly one category |
| DecisionEngine.CountCategories | backend/src/services/decisionEngine.ts:244-249 | the count dictionary maps each category to its number of decisions and holds no zero entries |
| DecisionEngine.Ratio | backend/src/services/decisionEngine.ts:251-255 | a rounded percentage in [0,100], NaN exactly when there are no holdings |
| DecisionEngine.RebalancingShape | backend/src/services/decisionEngine.ts:257-290 | at most three actions, only the first can be high priority, none at all without holdings |
| DecisionEngine.GeneratePortfolioAdjustment | backend/src/services/decisionEngine.ts:240-297 | the four category ratios and the rebalancing actions derived from them |
| DecisionEngine.NextStepsBounds | backend/src/services/decisionEngine.ts:300-351 | at most one immediate action per decision, two watch entries per decision, and alerts plus immediate actions at most one per decision |
| DecisionEngine.GetTimeline | backend/src/services/decisionEngine.ts:407-417 | the urgent timeline exactly when some decision is a buy or a sell |
| DecisionEngine.GenerateNextSteps | backend/src/services/decisionEngine.ts:300-351 | the pushes build exactly the immediate actions, the watch list, the alerts and the timeline |
| DecisionEngine.Multiplier | backend/src/services/decisionEngine.ts:390-401 | every decision multiplier lies in [0.8,1.2] |
| DecisionEngine.PortfolioRisk | backend/src/services/decisionEngine.ts:362-365 | low iff no analysis is high-risk; high only when more than half are |
| DecisionEngine.MeanMultiplierRange | backend/src/services/decisionEngine.ts:390-401 | the mean multiplier lies in [0.8,1.2] |
| DecisionEngine.HealthRange | backend/src/services/decisionEngine.ts:359-360 | with every confidence in [0.5,0.9] the portfolio health lies in [50,90] |
| DecisionEngine.GenerateFinalDecision | backend/src/services/decisionEngine.ts:52-97 | one table decision per holding; the category ratios and rebalancing actions of those decisions; their immediate actions, watch list, alerts and timeline; and the overall assessment |
| PortfolioStrategy.ThemeTable | backend/src/services/portfolioStrategy.ts:98-153 | the six predefined proportions add up to 100 and the theme ids are distinct |
| PortfolioStrategy.FilterThemesMembers | backend/src/services/portfolioStrategy.ts:166-168 | a theme survives the id filter iff it is in the table and its id was asked for |
| PortfolioStrategy.SelectThemes | backend/src/services/portfolioStrategy.ts:166-168 | without ids every theme; otherwise no more themes than the table holds |
| PortfolioStrategy.SelectThemesMembers | backend/src/services/portfolioStrategy.ts:166-168 | a theme is selected iff it is in the table and (no ids were given or its id was asked for) |
| PortfolioStrategy.OptimalSelection | backend/src/services/portfolioStrategy.ts:512-540 | the bull preset selects the first four themes, the bear preset the last two, recovery three themes, all in table order rather than preset order |
| PortfolioStrategy.FilterSix | backend/src/services/portfolioStrategy.ts:166-168 | filtering a six-theme table is the concatenation of the per-theme decisions |
| PortfolioStrategy.BullSelection | backend/src/services/portfolioStrategy.ts:520-523 | the bull preset selects the first four table themes |
| PortfolioStrategy.BearSelection | backend/src/services/portfolioStrategy.ts:524-527 | the bear preset selects the two defensive themes |
| PortfolioStrategy.RecoverySelection | backend/src/services/portfolioStrategy.ts:532-535 | the recovery preset selects tech-ai, new-energy and pharmaceutical in table order |
| PortfolioStrategy.Recommended | backend/src/services/portfolioStrategy.ts:300-314 | failed recommendations are skipped, so no more than the pool remains |
| PortfolioStrategy.GenerateRecommendationsForPool | backend/src/services/portfolioStrategy.ts:300-314 | the loop collects exactly the successful recommendations, in pool order |
| PortfolioStrategy.WithPositionMembers | backend/src/services/portfolioStrategy.ts:213-214 | a recommendation is kept for a list iff its position is that list's position |
| PortfolioStrategy.ToMembers | backend/src/services/portfolioStrategy.ts:215-221 | one member per recommendation, each with its stock code and the equal share 100/n |
| PortfolioStrategy.MembersShareEqually | backend/src/services/portfolioStrategy.ts:212-241 | one member per matching recommendation, and the shares of a non-empty list add up to 100 |
| PortfolioStrategy.Truncate | backend/src/services/portfolioStrategy.ts:269-271 | `slice(0, k)` keeps the first min(n, k) elements |
| PortfolioStrategy.PortfolioAllocation | backend/src/services/portfolioStrategy.ts:319-337 | zero in every list iff no stock was placed, otherwise the split adds up to 100 |
| PortfolioStrategy.SupportScores | backend/src/services/portfolioStrategy.ts:342-393 | the weighted, rounded count of support points is the tabulated score (67 for the flagship themes, 33 otherwise) |
| PortfolioStrategy.GenerateDataSupport | backend/src/services/portfolioStrategy.ts:342-393 | the pushes build exactly the theme's support points and score |
| PortfolioStrategy.RiskForStrategy | backend/src/services/portfolioStrategy.ts:428-454 | diversification in [0,80]; maximum loss above 15 iff the theme is high-risk; hedging advice iff high-risk |
| PortfolioStrategy.DiversificationMonotone | backend/src/services/portfolioStrategy.ts:433 | more recommendations never lower the diversification |
| PortfolioStrategy.StrategyShape | backend/src/services/portfolioStrategy.ts:202-277 | at most 5 left, 5 right and 3 mainline members, each list a prefix of its matches in recommendation order, and the 35/45/20 split iff some stock was placed |
| PortfolioStrategy.GenerateStrategyForTheme | backend/src/services/portfolioStrategy.ts:202-277 | the strategy is built from the recommendations of the theme's own pool |
| PortfolioStrategy.BucketsAddUp | backend/src/services/portfolioStrategy.ts:459-469 | every theme's proportion lands in exactly one type bucket |
| PortfolioStrategy.CalculateTotalAllocation | backend/src/services/portfolioStrategy.ts:459-469 | the reduce builds the bucket totals theme by theme |
| PortfolioStrategy.RiskPointSum | backend/src/services/portfolioStrategy.ts:475-478 | each strategy contributes 1 to 3 risk points |
| PortfolioStrategy.MaxLossIsMaximum | backend/src/services/portfolioStrategy.ts:482-484 | the drawdown bounds every strategy's maximum loss and is one of them (or 0 without strategies) |
| PortfolioStrategy.BuiltLoss | backend/src/services/portfolioStrategy.ts:437 | a built strategy's maximum loss is above 15 iff its theme is high-risk |
| PortfolioStrategy.DrawdownIffHigh | backend/src/services/portfolioStrategy.ts:482-494 | when each loss exceeds 15 exactly for high-risk themes, so does the largest |
| PortfolioStrategy.DrawdownAdviceIffHighTheme | backend/src/services/portfolioStrategy.ts:474-500 | for built strategies the drawdown exceeds 15 iff some theme is high-risk, and a high total risk brings all three adjustments |
| PortfolioStrategy.HighAverageHasHighTheme | backend/src/services/portfolioStrategy.ts:480 | a mean risk of at least 2.5 needs some high-risk theme |
| PortfolioStrategy.NoHighThemeSum | backend/src/services/portfolioStrategy.ts:475-478 | without high-risk themes the risk sum is at most two per strategy |
| PortfolioStrategy.StrategiesForEach | backend/src/services/portfolioStrategy.ts:171-176 | the i-th strategy is built for the i-th theme from that theme's pool |
| PortfolioStrategy.GenerateStrategies | backend/src/services/portfolioStrategy.ts:171-176 | the loop builds one strategy per theme, in order |
| PortfolioStrategy.GeneratePortfolioStrategy | backend/src/services/portfolioStrategy.ts:158-197 | the selected themes, one strategy each, the bucket totals and the overall risk control of those strategies |
| PortfolioStrategy.RecommendOptimalPortfolio | backend/src/services/portfolioStrategy.ts:512-540 | the condition's preset themes, one strategy per theme, the allocation by type and the overall risk control of those strategies |
| PortfolioStrategy.AllThemesAllocation | backend/src/services/portfolioStrategy.ts:459-469 | all six themes together put 60 in tech, 20 in policy and 20 in defensive |
| PortfolioStrategy.BucketsSix | backend/src/services/portfolioStrategy.ts:459-469 | the buckets of six strategies, added strategy by strategy |
| RiskControl.PositionLevel | backend/src/services/riskControl.ts:296 | high iff the score exceeds 0.7, low iff it is at most 0.4 |
| RiskControl.PositionLevelMonotone | backend/src/services/riskControl.ts:296 | a higher score never gets a lower level |
| RiskControl.RiskFactors | backend/src/services/riskControl.ts:409-418 | at most four factors; high volatility iff its draw exceeds 0.7, weak fundamentals iff its draw exceeds 0.6 |
| RiskControl.PositionRiskOf | backend/src/services/riskControl.ts:290-311 | the score 0.8·draw + 0.2 lies in [0.2,1); the position is high-risk iff the draw exceeds 0.625; the factors are the drawn ones |
| RiskControl.CalculatePositionRisks | backend/src/services/riskControl.ts:290-311 | one risk entry per position, in order |
| RiskControl.SectorsDistinct | backend/src/services/riskControl.ts:421-433 | no sector key is created twice |
| RiskControl.SectorsExactAt | backend/src/services/riskControl.ts:421-433 | a sector is a key iff some position belongs to it, iff its group is non-empty (a missing sector counts as 其他) |
| RiskControl.SectorsExact | backend/src/services/riskControl.ts:421-433 | the keys are exactly the sectors of the positions |
| RiskControl.GroupBySector | backend/src/services/riskControl.ts:421-433 | the dictionary maps each sector, in first-seen order, to its positions in input order |
| RiskControl.Diversification | backend/src/services/riskControl.ts:436-439 | min(n/10, 1) lies in [0,1] and is 1 iff the sector holds at least 10 positions |
| RiskControl.ConcentrationLevel | backend/src/services/riskControl.ts:323 | high iff the concentration exceeds 0.4, medium iff it lies in (0.2,0.4]; NaN is low |
| RiskControl.RateSector | backend/src/services/riskControl.ts:319-330 | the entry of one sector from its group and the portfolio value |
| RiskControl.CalculateSectorRisks | backend/src/services/riskControl.ts:314-336 | one entry per sector, in first-seen order, each rated from its share of the portfolio value |
| RiskControl.RateSectors | backend/src/services/riskControl.ts:319-333 | the loop rates every grouped sector in key order |
| RiskControl.SectorValuesPartition | backend/src/services/riskControl.ts:421-433 | the sector groups partition the positions: their values add up to the portfolio value |
| RiskControl.ConcentrationsSumToOne | backend/src/services/riskControl.ts:319-322 | with a non-zero portfolio value the concentrations add up to 1 |
| RiskControl.StopLossPrice | backend/src/services/riskControl.ts:463-468 | the stop never lies below 90% of the price, and is the technical support when that is non-zero and higher |
| RiskControl.StopLossRateBound | backend/src/services/riskControl.ts:471-479 | at a positive price the stop-loss rate is at most 10%, so the loose-stop advice is never given |
| RiskControl.RiskAdjustedWeight | backend/src/services/riskControl.ts:482-487 | the clamped weight lies in [0.05,0.2] |
| RiskControl.RiskAdjustedWeightRange | backend/src/services/riskControl.ts:482-498 | for draws in [0,1) the clamp never binds, the increase advice is never given, and the decrease advice is given iff the draw is below 0.3 |
| RiskControl.StopLossRate | backend/src/services/riskControl.ts:194 | the rate is finite iff the price is non-zero, and then times the price gives price minus stop; at a zero price it is minus infinity exactly when the support is positive, NaN otherwise |
| RiskControl.StopLossFor | backend/src/services/riskControl.ts:188-204 | the stop lies at or above 90% of the price; the rate is finite iff the price is non-zero; at a zero price a positive support gives the rate minus infinity and the strict-stop advice, any other support NaN and the standard advice |
| RiskControl.StopLossForBound | backend/src/services/riskControl.ts:188-204 | a position with a positive price has a rate of at most 10% and never gets the loose-stop advice |
| RiskControl.CalculateStopLoss | backend/src/services/riskControl.ts:176-211 | one suggestion per position, from that position's technical support |
| RiskControl.SizingFor | backend/src/services/riskControl.ts:224-240 | the recommended weight lies in [5,20]%; the current weight and adjustment are defined iff the total is non-zero, the adjustment being recommended minus current |
| RiskControl.CalculatePositionSizing | backend/src/services/riskControl.ts:214-249 | one sizing entry per position, weighted against the total market value |
| RiskControl.CurrentWeightsSum | backend/src/services/riskControl.ts:224-231 | with a non-zero total the current weights add up to 100% |
| RiskControl.PortfolioRiskOf | backend/src/services/riskControl.ts:262-287 | systematic plus unsystematic risk is the total risk; the drawdown lies in [0,0.3) |
| RiskControl.PositionAlertsCount | backend/src/services/riskControl.ts:118-131 | one high-level position alert per high-risk position and none for the others |
| RiskControl.CriticalIffDrawdown | backend/src/services/riskControl.ts:86-173 | a critical alert is raised iff the drawdown exceeds 20% |
| RiskControl.SectorAlertsLevel | backend/src/services/riskControl.ts:134-147 | every sector alert is medium level |
| RiskControl.PushPositionAlerts | backend/src/services/riskControl.ts:118-131 | the loop appends exactly the position alerts, in order |
| RiskControl.PushSectorAlerts | backend/src/services/riskControl.ts:134-147 | the loop appends exactly the sector alerts, in order |
| RiskControl.GenerateRiskAlerts | backend/src/services/riskControl.ts:86-173 | the alerts are the portfolio, drawdown, position, sector and market alerts in that order |
| SectorAnalysis.TrendOf | backend/src/services/sectorAnalysis.ts:44 | up iff the change rate exceeds +2%, down iff it is below −2%, sideways otherwise |
| SectorAnalysis.SectorFromIndustry | backend/src/services/sectorAnalysis.ts:33-45 | the trend is derived from the change rate; the strength drawn lies in [0,100) |
| SectorAnalysis.AnalyzeSectorStrength | backend/src/services/sectorAnalysis.ts:68-70 | the sectors are permuted in place into descending strength |
| SectorAnalysis.HotSectors | backend/src/services/sectorAnalysis.ts:73-79 | the filter keeps no more sectors than it was given |
| SectorAnalysis.HotSectorsExact | backend/src/services/sectorAnalysis.ts:73-79 | a sector is hot iff it is an input with change rate > 3, strength > 80 or an up trend |
| SectorAnalysis.HotSectorsIdempotent | backend/src/services/sectorAnalysis.ts:73-79 | filtering the hot sectors again changes nothing |
| SectorAnalysis.AnalyzeSectorRotation | backend/src/services/sectorAnalysis.ts:82-92 | rising holds only up sectors, falling only down ones, stable only sideways ones |
| SectorAnalysis.RotationPartition | backend/src/services/sectorAnalysis.ts:82-92 | the three lists together hold every input sector exactly as often as the input does |
| SectorAnalysis.Score | backend/src/services/sectorAnalysis.ts:115-118 | with a relevance in [0,100] each news score lies in [−1,1] |
| SectorAnalysis.ImpactFor | backend/src/services/sectorAnalysis.ts:109-126 | a sector gets an entry iff some news item is relevant to it (named exactly or as a substring) |
| SectorAnalysis.ImpactInRange | backend/src/services/sectorAnalysis.ts:114-119 | with relevances in [0,100] every average impact lies in [−1,1] |
| SectorAnalysis.NamedSectorHasImpact | backend/src/services/sectorAnalysis.ts:109-112 | a sector named in some news item always gets an entry |
| SectorAnalysis.AnalyzePolicyImpact | backend/src/services/sectorAnalysis.ts:101-129 | the entries of the sectors with relevant news, permuted into descending absolute impact |
| ReportGenerator.ProfitRate | backend/src/services/reportGenerator.ts:203 | 0 unless the market value is positive; otherwise P/L as a percentage of it, positive exactly for a gain |
| ReportGenerator.PortfolioOverview | backend/src/services/reportGenerator.ts:200-218 | the count, one line per position, the summed market value and P/L, and their rate |
| ReportGenerator.LinesAt | backend/src/services/reportGenerator.ts:210-216 | the lines follow the positions one to one, in order |
| ReportGenerator.TotalsAppend | backend/src/services/reportGenerator.ts:201-202 | the totals add up position by position |
| ReportGenerator.PnlLines | backend/src/services/reportGenerator.ts:290-295 | one line per position, in order, with its code, name, P/L and P/L rate |
| ReportGenerator.RealtimePnl | backend/src/services/reportGenerator.ts:283-298 | the total P/L is the sum over the positions, the rate is that total against the summed market value (0 unless positive), and line i carries position i's code, name, P/L and P/L rate |
| ReportGenerator.PnlAgreesWithOverview | backend/src/services/reportGenerator.ts:283-298 | the real-time P&L has the overview's total and rate, and each of its lines is the overview's line for the same position with the market value dropped |
| ReportGenerator.NewsAbout | backend/src/services/reportGenerator.ts:226-229 | the filter keeps no more items than the feed holds |
| ReportGenerator.GetImportantNews | backend/src/services/reportGenerator.ts:221-238 | the first ten of the position-matched news followed by the policy news |
| ReportGenerator.ImportantNewsCap | backend/src/services/reportGenerator.ts:237 | with ten or more items the list is exactly the first ten; with fewer nothing is dropped |
| ReportGenerator.AlertsForHolding | backend/src/services/reportGenerator.ts:305-327 | at most two alerts: a price alert iff the P/L rate moves more than 3% either way, a signal alert iff the stock has a technical signal |
| ReportGenerator.IntradayAlertsFor | backend/src/services/reportGenerator.ts:301-331 | at most two alerts per position |
| ReportGenerator.GetIntradayAlerts | backend/src/services/reportGenerator.ts:301-331 | the loop builds exactly the alerts of every position, in order |
| ReportGenerator.GetDailyPerformance | backend/src/services/reportGenerator.ts:389-401 | sorts the positions in place by P/L rate, best first, and reports the first and last, the mean rate and the share of winners; all undefined without positions |
| ReportGenerator.PerformanceExtremes | backend/src/services/reportGenerator.ts:393-396 | the best performer's rate bounds every rate from above and the worst one's from below |
| ReportGenerator.WinRateRange | backend/src/services/reportGenerator.ts:398 | the win rate is a percentage in [0,100] |
| ReportGenerator.DiagnosisRisk | backend/src/services/reportGenerator.ts:473 | low iff the average is at least 80, medium iff it lies in [60,80); a NaN average is high |
| ReportGenerator.PositionDiagnoses | backend/src/services/reportGenerator.ts:474-480 | one entry per position, each with the portfolio average and its risk |
| ReportGenerator.GetPortfolioDiagnosis | backend/src/services/reportGenerator.ts:459-484 | the average of the overall scores (NaN without positions), its risk, and one entry per position |
| ReportGenerator.DiagnosisRiskMonotone | backend/src/services/reportGenerator.ts:473 | a higher average never raises the diagnosed risk |
| ReportGenerator.AdviceFor | backend/src/services/reportGenerator.ts:366-386 | at most one advice per position, each with at least one recommendation |
| ReportGenerator.AdviceComplete | backend/src/services/reportGenerator.ts:375-381 | a position with a recommendation always gets advice |
| ReportGenerator.GetOperationAdvice | backend/src/services/reportGenerator.ts:366-386 | the loop builds exactly the advice list, in position order |
| SystemOptimization.IssuesFor | backend/src/services/systemOptimization.ts:315-340 | at most five issues, one per threshold check |
| SystemOptimization.RemediesFor | backend/src/services/systemOptimization.ts:315-340 | one recommendation per issue |
| SystemOptimization.StatusOf | backend/src/services/systemOptimization.ts:343-350 | healthy iff there is no issue; critical iff some issue is the error-rate, memory or CPU one |
| SystemOptimization.MonitorSystemHealth | backend/src/services/systemOptimization.ts:305-366 | a monitoring failure reports critical with the fixed issue and advice; otherwise the checked issues, one recommendation each, and the status they imply |
| SystemOptimization.CheckMetrics | backend/src/services/systemOptimization.ts:315-340 | the pushes build exactly the issues and their recommendations |
| SystemOptimization.HealthStatusRules | backend/src/services/systemOptimization.ts:315-350 | healthy iff every metric is within its threshold; critical iff the error rate, memory or CPU is over its threshold |
| SystemOptimization.ThresholdSuggestions | backend/src/services/systemOptimization.ts:67-145 | at most six threshold suggestions |
| SystemOptimization.SuggestionsShape | backend/src/services/systemOptimization.ts:61-169 | two to eight suggestions, ending with security then scalability; a critical one appears iff the error rate exceeds 5% |
| SystemOptimization.OnlyErrorRateCritical | backend/src/services/systemOptimization.ts:67-145 | among the threshold suggestions only the error-rate one is critical, and it is there iff the error rate exceeds 5% |
| SystemOptimization.GenerateOptimizationSuggestions | backend/src/services/systemOptimization.ts:61-169 | the threshold suggestions followed by the security and scalability ones |
| SystemOptimization.ThresholdChecks | backend/src/services/systemOptimization.ts:67-145 | one push per exceeded threshold, in rule order |
| SystemOptimization.ExecuteOptimization | backend/src/services/systemOptimization.ts:172-201 | succeeds exactly for the four known optimisation ids |
| UserExperience.Durations | backend/src/services/userExperience.ts:294 | each session contributes its duration, 0 when missing |
| UserExperience.PageViews | backend/src/services/userExperience.ts:300 | each session contributes its page views, 0 when missing |
| UserExperience.AverageSessionDurationBounds | backend/src/services/userExperience.ts:291-296 | the average lies between any bounds of the durations counted |
| UserExperience.AverageSessionDurationConstant | backend/src/services/userExperience.ts:291-296 | sessions that all last the same time average to that time |
| UserExperience.TotalPageViewsAppend | backend/src/services/userExperience.ts:299-301 | one more session adds its page views (0 when missing) to the total |
| UserExperience.TotalPageViewsNonNegative | backend/src/services/userExperience.ts:299-301 | the total is never negative when no count is |
| UserExperience.AddCounts | backend/src/services/userExperience.ts:309-311 | adding one session's counts keeps every key of either map and sums the counts key by key |
| UserExperience.FeatureUsageTotals | backend/src/services/userExperience.ts:304-317 | the usage map holds exactly the features some session reports, each with its total across all sessions |
| UserExperience.CalculateFeatureUsage | backend/src/services/userExperience.ts:304-317 | the nested loops build exactly the usage map |
| UserExperience.AddSessionCounts | backend/src/services/userExperience.ts:309-311 | the inner loop adds one session's counts onto the map |
| UserExperience.DefaultSettings | backend/src/services/userExperience.ts:335-360 | the defaults belong to the user, with the light theme and zh-CN |
| UserExperience.CurrentSettings | backend/src/services/userExperience.ts:119-137 | the stored settings when present, the user's defaults otherwise |
| UserExperience.MergeSettingsFields | backend/src/services/userExperience.ts:150 | every key given in the update wins; every other key keeps its current value |
| UserExperience.MergeSettingsLaws | backend/src/services/userExperience.ts:150 | an empty update changes nothing, and applying an update twice equals applying it once |
| UserExperience.UpdatedSettings | backend/src/services/userExperience.ts:140-164 | the saved settings merge the update onto the stored settings or onto the defaults |
| UserExperience.FeatureNameOf | backend/src/services/userExperience.ts:253-255 | a feature name is recorded iff the action starts with `feature_`, and prefixing it gives back the action |
| UserExperience.FeatureNameRoundTrip | backend/src/services/userExperience.ts:253-255 | tracking `feature_` + name records exactly that name |
| UserExperience.NotifiesAdminsThreshold | backend/src/services/userExperience.ts:71-73 | admins are notified exactly for high and critical feedback, so raising a priority never stops the notification |
| UserExperience.ActiveRatio | backend/src/services/userExperience.ts:380 | the active ratio is a comparable number iff both counts are present and the total is positive |
| UserExperience.GenerateUxRecommendations | backend/src/services/userExperience.ts:363-393 | the pushes build exactly the recommendations of the rules that fire |
| UserExperience.UxRecommendationsRules | backend/src/services/userExperience.ts:363-393 | each rule adds its advice iff its threshold is crossed (rating < 3, duration < 300, active ratio < 0.3); the top-issue advice comes last iff there is an issue; at most four |
| UserExperience.ReportOnlyFlagsTopIssue | backend/src/services/userExperience.ts:167-235 | the report passes whole row lists that lack the fields read, so only the top-issue rule can fire |
| DataSources.Split | backend/src/config/dataSources.ts:126 | `split` always yields at least one piece |
| DataSources.JoinSplit | backend/src/config/dataSources.ts:126 | joining the pieces with the separator restores the string |
| DataSources.SplitJoin | backend/src/config/dataSources.ts:135 | splitting a join of separator-free pieces gives the pieces back |
| DataSources.RunLength | backend/src/config/dataSources.ts:129 | a greedy character-class run consumes the longest prefix in the class and stops at the first character outside it |
| DataSources.MatchAt | backend/src/config/dataSources.ts:129 | a match at an offset has a non-empty code and a non-empty, quote-free payload |
| DataSources.MatchCode | backend/src/config/dataSources.ts:129 | a code match has a non-empty code and a non-empty, quote-free payload |
| DataSources.MatchPayload | backend/src/config/dataSources.ts:129 | a payload match is non-empty and quote-free |
| DataSources.FirstMatchIncludes | backend/src/config/dataSources.ts:128-129 | a line the regular expression matches contains the marker tested first, so that test never rejects a matching line |
| DataSources.QuoteOf | backend/src/config/dataSources.ts:137-148 | code and name from the match, the change is field 4 minus field 2, and the change rate is defined iff field 2 is non-zero |
| DataSources.ParseSinaData | backend/src/config/dataSources.ts:124-154 | the loop collects exactly the quotes of the lines that yield one, in line order |
| DataSources.SinaQuotesCount | backend/src/config/dataSources.ts:124-154 | at most one quote per line, and one per line iff every line yields one |
| DataSources.SinaQuotesOrigin | backend/src/config/dataSources.ts:124-154 | every quote is the one some line yields |
| DataSources.MatchCodeFormatted | backend/src/config/dataSources.ts:129 | a word-character code, `="`, a quote-free payload and a closing quote match whole |
| DataSources.MatchAtFormatted | backend/src/config/dataSources.ts:128-129 | a formatted line matches at its very start |
| DataSources.SinaLineRoundTrip | backend/src/config/dataSources.ts:124-154 | a well-formed feed line with at least 32 comma- and quote-free fields parses to the quote of exactly that code and those fields |
| DataSources.RealtimeUrlCodes | backend/src/config/dataSources.ts:62-63 | the URL starts with the endpoint and its tail splits back into exactly the requested codes |
| DataSources.GetRealtimeQuotes | backend/src/config/dataSources.ts:60-74 | the URL joins the codes; a failed request yields no quotes, otherwise the parsed quotes of the response |
| DataSources.ParseEastmoneyData | backend/src/config/dataSources.ts:157-171 | null exactly when there is no `data` object |
| DataSources.EastmoneyRoundTrip | backend/src/config/dataSources.ts:157-171 | the field mapping is a renaming: mapping back and forth loses nothing in either direction |
| WebSocket.AddAbsentMeaning | backend/src/services/websocket.ts:118-122 | adding codes keeps the old list as a prefix, adds exactly the new codes and never duplicates one |
| WebSocket.WithoutMeaning | backend/src/services/websocket.ts:143 | removal keeps exactly the codes not named, without duplicates |
| WebSocket.OnlyMeaning | backend/src/services/websocket.ts:183-185 | the per-client filter keeps exactly the quotes the client subscribes to |
| WebSocket.FirstOnSocket | backend/src/services/websocket.ts:33-38 | the scan finds the first client, in insertion order, on that socket, or reports that none is |
| WebSocket.AuthPreserves | backend/src/services/websocket.ts:71-95 | authentication keeps the registry well formed |
| WebSocket.AuthRules | backend/src/services/websocket.ts:71-95 | a missing user id or token changes nothing and answers with the auth error; otherwise the user is (re)registered on this socket with no subscriptions and everyone else is untouched |
| WebSocket.SubscribePreserves | backend/src/services/websocket.ts:97-131 | subscribing keeps the registry well formed |
| WebSocket.SubscribeRules | backend/src/services/websocket.ts:97-131 | bad parameters and unknown users get their errors and change nothing; otherwise the old codes stay a prefix, exactly the requested ones are added, no duplicates, the subscriber keeps its socket, and no other client, key or the order changes |
| WebSocket.UnsubscribePreserves | backend/src/services/websocket.ts:133-154 | unsubscribing keeps the registry well formed |
| WebSocket.UnsubscribeRules | backend/src/services/websocket.ts:133-154 | an unknown user changes nothing and gets no reply; otherwise exactly the named codes are dropped with the rest in order, or all of them when `codes` is not an array; no other client, key, socket or the order changes; the reply is the success, followed by the format error when `codes` is present but not an array, because the log line's `join` throws |
| WebSocket.ClosePreserves | backend/src/services/websocket.ts:30-39 | closing keeps the registry well formed |
| WebSocket.CloseRules | backend/src/services/websocket.ts:30-39 | close removes one client on that socket and nothing else; without one the registry is unchanged |
| WebSocket.AllSubscriptionsMeaning | backend/src/services/websocket.ts:160-163 | the set of all subscriptions holds each subscribed code once, and nothing else |
| WebSocket.UpdatesMeaning | backend/src/services/websocket.ts:181-192 | each update goes to a client with subscriptions and carries exactly its quotes; nothing is sent only when nobody subscribes |
| WebSocket.PushSilent | backend/src/services/websocket.ts:158-196 | the periodic push sends nothing exactly when no client has a subscription |
| WebSocket.PushRules | backend/src/services/websocket.ts:158-196 | every pushed update goes to a registered client and names exactly that client's codes, each once |
| WebSocket.HandleRules | backend/src/services/websocket.ts:17-28 | every message keeps the registry well formed; an unknown type gets the error and changes nothing; an unparsable message gets the format error |
| WebSocket.AddEach | backend/src/services/websocket.ts:118-122 | the forEach appends exactly the codes not yet present |
| WebSocket.Service.constructor | backend/src/services/websocket.ts:11 | the service starts with no clients and nothing sent |
| WebSocket.Service.HandleAuth | backend/src/services/websocket.ts:71-95 | the registry and outbox follow the auth transition |
| WebSocket.Service.HandleSubscribe | backend/src/services/websocket.ts:97-131 | the registry and outbox follow the subscribe transition |
| WebSocket.Service.HandleUnsubscribe | backend/src/services/websocket.ts:133-154 | the registry and outbox follow the unsubscribe transition, including the format error sent after the success for a non-array `codes` |
| WebSocket.Service.HandleClose | backend/src/services/websocket.ts:30-39 | the registry follows the close transition and nothing is sent |
| WebSocket.Service.CollectSubscriptions | backend/src/services/websocket.ts:160-163 | the loops collect every subscribed code once, in first-seen order |
| WebSocket.Service.SendUpdates | backend/src/services/websocket.ts:181-192 | each subscribing client is sent its own quotes, in registration order, and no client changes |
| WebSocket.Service.PushQuotes | backend/src/services/websocket.ts:158-196 | one push tick leaves the registry unchanged and sends exactly the periodic updates |
| WebSocket.Service.HandleMessage | backend/src/services/websocket.ts:17-28 | the registry and outbox follow the dispatch on the message type, a throwing handler ending in the format error |
| WebSocket.FirstOnSocketUnique | backend/src/services/websocket.ts:33-38 | the first index on the socket is the one the scan stops at |
| PortfolioRoutes.Mul | backend/src/routes/portfolio.ts:62-64 | a product is finite exactly when both factors are |
| PortfolioRoutes.Add | backend/src/routes/portfolio.ts:73 | a sum is finite exactly when both terms are |
| PortfolioRoutes.Sub | backend/src/routes/portfolio.ts:63 | a difference is finite exactly when both terms are |
| PortfolioRoutes.Div | backend/src/routes/portfolio.ts:64 | a quotient is finite exactly when both operands are and the divisor is not zero |
| PortfolioRoutes.FiguresMeaning | backend/src/routes/portfolio.ts:62-64 | the profit is quantity times per-share gain and the rate is the per-share gain over cost in percent, independent of quantity; with a positive cost the rate is positive exactly when the price is above cost |
| PortfolioRoutes.PositionRatio | backend/src/routes/portfolio.ts:75 | the clamped position ratio always lies in [0, 100] |
| PortfolioRoutes.Shares | backend/src/routes/portfolio.ts:92-95 | each row's rewritten ratio is its value over the new total, in percent |
| PortfolioRoutes.SharesSum | backend/src/routes/portfolio.ts:92-95 | the rewritten ratios add up to the rows' total value over the new total, in percent |
| PortfolioRoutes.AddPositionRules | backend/src/routes/portfolio.ts:53-97 | a request with a missing or falsy field is rejected with 400 and only then; the other positions are rewritten exactly when the stored total was positive; the new ratio is a percentage |
| PortfolioRoutes.AddPositionShares | backend/src/routes/portfolio.ts:62-97 | with positive inputs the new position and the rewritten ones share the new total: all ratios add up to 100 |
| PortfolioRoutes.AddedTotals | backend/src/routes/portfolio.ts:72-90 | on a portfolio worth something the new total is the old plus the new value, the new ratio is the value's share of it, and the others are rewritten |
| PortfolioRoutes.Put | backend/src/routes/portfolio.ts:149-151 | writing a key sets that key and leaves every other key as it was |
| PortfolioRoutes.WithFigures | backend/src/routes/portfolio.ts:149-151 | the three derived fields carry the new figures and every other field is unchanged |
| PortfolioRoutes.Defined | backend/src/routes/portfolio.ts:158-163 | keeping only the defined entries never lengthens the body |
| PortfolioRoutes.Prepare | backend/src/routes/portfolio.ts:141-152 | the body sent to the database is the one the specification of the repricing step gives |
| PortfolioRoutes.Collect | backend/src/routes/portfolio.ts:155-163 | the loop builds one `key = ?` assignment and one parameter per defined entry, in order |
| PortfolioRoutes.UpdatePosition | backend/src/routes/portfolio.ts:123-174 | the handler returns what the update specification gives: 404, 400 or the UPDATE statement |
| PortfolioRoutes.DefinedMeaning | backend/src/routes/portfolio.ts:158-165 | an entry is kept exactly when it is in the body with a defined value; nothing is kept exactly when every value is undefined |
| PortfolioRoutes.UpdateRules | backend/src/routes/portfolio.ts:131-167 | a position the user does not own is 404 and only then; an owned one is 400 exactly when the body defines no field |
| PortfolioRoutes.GetIn | backend/src/routes/portfolio.ts:158-161 | a defined value read by key comes from an entry of the body |
| PortfolioRoutes.UpdateReprices | backend/src/routes/portfolio.ts:141-152 | a positive new quantity and price give market value, profit and rate computed against the stored cost |
| PortfolioRoutes.RepricedFigures | backend/src/routes/portfolio.ts:141-147 | the repriced figures are those of the new quantity and price at the stored cost |
| PortfolioRoutes.PreparedKeepsFields | backend/src/routes/portfolio.ts:141-152 | every field other than the three derived ones is sent as the client gave it |
| PortfolioRoutes.UpdateKeepsBody | backend/src/routes/portfolio.ts:141 | without a truthy new price or quantity the body is sent unchanged |
| PortfolioRoutes.CategoriesPartition | backend/src/routes/portfolio.ts:209-217 | when every holding has one of the four categories, the category values add up to the total value |
| PortfolioRoutes.CategoryValueBounds | backend/src/routes/portfolio.ts:214-217 | with non-negative values each category value lies between 0 and the total |
| PortfolioRoutes.SummaryRatios | backend/src/routes/portfolio.ts:223-238 | total assets are market value plus the assumed cash; a worthless portfolio has all ratios 0; otherwise each ratio is a percentage and, with every holding categorised, they add up to 100 |
| PortfolioRoutes.ShareSum | backend/src/routes/portfolio.ts:235-238 | four parts that make up the total have shares adding up to 100 |
| PortfolioRoutes.ShareBounds | backend/src/routes/portfolio.ts:235-238 | a part between 0 and the total has a share in [0, 100] |
| AnalysisRoutes.Scores | backend/src/routes/analysis.ts:76 | the scores are read off the analysed positions one by one |
| AnalysisRoutes.OverallScoreBounds | backend/src/routes/analysis.ts:76 | the mean score is undefined exactly for no positions, and otherwise lies within any range holding every score |
| AnalysisRoutes.RiskLevelRules | backend/src/routes/analysis.ts:96-101 | low, medium and high risk partition the mean score at 80 and 60, and no positions at all (an undefined mean) is high risk |
| AnalysisRoutes.RiskLevelFromScores | backend/src/routes/analysis.ts:96-101 | scores all at least 80 give low risk; scores all below 60 give high risk |
| AnalysisRoutes.MeanAtLeast | backend/src/routes/analysis.ts:97 | a mean of values each at least a bound is at least that bound |
| AnalysisRoutes.MeanBelow | backend/src/routes/analysis.ts:97 | a mean of values each below a bound is below that bound |
| AnalysisRoutes.Bump | backend/src/routes/analysis.ts:105-108 | one increment adds at most one category to the tally |
| AnalysisRoutes.BumpMeaning | backend/src/routes/analysis.ts:105-108 | an increment raises the counted category by one, adds it with count 1 when new, and leaves every other count alone |
| AnalysisRoutes.TallyMeaning | backend/src/routes/analysis.ts:105-108 | the tally holds each category with its number of positions, none absent that occurs, and the counts add up to the positions |
| AnalysisRoutes.TotalBounds | backend/src/routes/analysis.ts:110-111 | each count lies between 1 and the number of positions, and there are no more categories than positions |
| AnalysisRoutes.CountCategories | backend/src/routes/analysis.ts:105-108 | the reduce computes the tally of the specification |
| AnalysisRoutes.MaxCount | backend/src/routes/analysis.ts:111 | the maximum is one of the counts and no count exceeds it |
| AnalysisRoutes.DiversificationBounds | backend/src/routes/analysis.ts:104-114 | diversification is undefined for no positions and otherwise lies strictly between -50 and 100 |
| AnalysisRoutes.DiversificationOneCategory | backend/src/routes/analysis.ts:104-114 | with every position in one category the figure is 100/n - 50 |
| AnalysisRoutes.OneCategoryTally | backend/src/routes/analysis.ts:105-108 | a single shared category is tallied once with the full count |
| AnalysisRoutes.GeneratePortfolioRecommendations | backend/src/routes/analysis.ts:117-144 | the method returns the advice the specification gives |
| AnalysisRoutes.AdviceQuirk | backend/src/routes/analysis.ts:127-141 | since a missing count compares false, the right-side advice is given exactly when one position is on the right, and the defensive advice never |
| MarketRoutes.QuotesShape | backend/src/routes/market.ts:9-30 | a missing or non-array code list is 400 and only then; otherwise there is one quote per code, in order, named after its code and stamped with the request time |
| MarketRoutes.QuoteRanges | backend/src/routes/market.ts:17-29 | with draws in [0, 1), prices lie in [10, 110), changes and change rates in [-5, 5), volumes in [0, 1000000) and turnovers in [0, 100000000) |
| MarketRoutes.Matching | backend/src/routes/market.ts:61-63 | the matches are drawn from the table and are never more than its entries |
| MarketRoutes.MatchingMeaning | backend/src/routes/market.ts:61-63 | a stock is returned exactly when its table key contains the query |
| MarketRoutes.SearchRules | backend/src/routes/market.ts:39-72 | a missing or empty name is 400 and only then; otherwise the reply is 404 exactly when no key contains the name, and lists exactly the stocks whose key does |
| MarketRoutes.HistoryOrder | backend/src/routes/market.ts:147-159 | the history has thirty entries, oldest first, one day apart, ending at the request time |
| StrategyRoutes.Generate | backend/src/routes/portfolioStrategy.ts:24-56 | an unauthenticated request is 401 and only then; a given market condition selects the optimal themes, otherwise the requested ones; the allocation is the bucket split of the generated strategies |
| StrategyRoutes.ToleranceOf | backend/src/routes/portfolioStrategy.ts:63 | an absent risk tolerance defaults to medium; a given one is kept |
| StrategyRoutes.Recommend | backend/src/routes/portfolioStrategy.ts:61-97 | an unauthenticated request is 401 and only then; otherwise the themes are those of the tolerance and the allocation is the bucket split of the strategies |
| StrategyRoutes.ToleranceSelection | backend/src/routes/portfolioStrategy.ts:74-83 | low tolerance selects only defensive themes, high tolerance only non-defensive ones, and the default a balanced mix of four |
| StrategyRoutes.BalancedSelection | backend/src/routes/portfolioStrategy.ts:80-83 | a medium tolerance selects tech-AI, consumption-defensive, pharmaceutical and new-energy, in table order |
| PortfolioSlice.FirstIndex | frontend/src/store/slices/portfolioSlice.ts:95 | the search finds the first index holding the key, and nothing exactly when the key is absent |
| PortfolioSlice.FirstIndexAt | frontend/src/store/slices/portfolioSlice.ts:140 | an index before which no entry matches is the one the search returns |
| PortfolioSlice.RepricedMeaning | frontend/src/store/slices/portfolioSlice.ts:96-101 | the re-priced position carries the new price, value quantity times price and profit quantity times per-share gain; nothing but the four figures changes |
| PortfolioSlice.RepricedRateMissing | frontend/src/store/slices/portfolioSlice.ts:100 | the rate is undefined (a division by zero) exactly when the quantity or the cost is zero |
| PortfolioSlice.RepricedRate | frontend/src/store/slices/portfolioSlice.ts:98-100 | otherwise the rate is the per-share gain over the cost, in percent |
| PortfolioSlice.RepricedRateSign | frontend/src/store/slices/portfolioSlice.ts:98-100 | for a positive cost the rate is positive exactly when the price is above the cost |
| PortfolioSlice.RepricedLatest | frontend/src/store/slices/portfolioSlice.ts:96-101 | re-pricing twice is re-pricing at the later price |
| PortfolioSlice.PricedFirst | frontend/src/store/slices/portfolioSlice.ts:95-101 | re-pricing keeps the number of positions |
| PortfolioSlice.PricedFirstRules | frontend/src/store/slices/portfolioSlice.ts:95-101 | only the first position with the code is re-priced and every other one stays; with no match nothing changes |
| PortfolioSlice.Replaced | frontend/src/store/slices/portfolioSlice.ts:139-143 | replacing keeps the number of positions |
| PortfolioSlice.ReplacedRules | frontend/src/store/slices/portfolioSlice.ts:139-143 | the first position with the updated id is replaced and nothing else changes; an unknown id changes nothing |
| PortfolioSlice.ReplacedIds | frontend/src/store/slices/portfolioSlice.ts:139-143 | replacing keeps the ids, is idempotent, and leaves the update in the list exactly when its id was there |
| PortfolioSlice.WithoutId | frontend/src/store/slices/portfolioSlice.ts:147 | deleting never lengthens the list |
| PortfolioSlice.WithoutIdMeaning | frontend/src/store/slices/portfolioSlice.ts:147 | deleting keeps exactly the positions with another id, and keeps the length exactly when no position has the id |
| PortfolioSlice.WithoutIdConcat | frontend/src/store/slices/portfolioSlice.ts:147 | deleting distributes over concatenation, so the kept positions stay in order |
| PortfolioSlice.WithoutIdTwice | frontend/src/store/slices/portfolioSlice.ts:147 | deleting twice is deleting once |
| PortfolioSlice.AddThenDelete | frontend/src/store/slices/portfolioSlice.ts:127-148 | adding a position and deleting its id leaves what deleting the id alone leaves |
| PortfolioSlice.PortfolioStore.constructor | frontend/src/store/slices/portfolioSlice.ts:39-44 | the slice starts with no positions, no summary, not loading and no error |
| PortfolioSlice.PortfolioStore.UpdatePositionPrice | frontend/src/store/slices/portfolioSlice.ts:93-102 | the reducer re-prices the first position with the code and changes nothing else |
| PortfolioSlice.PortfolioStore.ClearError | frontend/src/store/slices/portfolioSlice.ts:103-105 | only the error is cleared |
| PortfolioSlice.PortfolioStore.Pending | frontend/src/store/slices/portfolioSlice.ts:110-126 | a pending fetch or add sets loading and clears the error |
| PortfolioSlice.PortfolioStore.Rejected | frontend/src/store/slices/portfolioSlice.ts:118-136 | a rejected fetch or add stops loading and records the message or the fallback text |
| PortfolioSlice.PortfolioStore.FetchFulfilled | frontend/src/store/slices/portfolioSlice.ts:114-117 | the fetched list, unwrapped from `data` when present, replaces the positions |
| PortfolioSlice.PortfolioStore.AddFulfilled | frontend/src/store/slices/portfolioSlice.ts:127-132 | the new position is appended at the end |
| PortfolioSlice.PortfolioStore.UpdateFulfilled | frontend/src/store/slices/portfolioSlice.ts:138-144 | the first position with the updated id is replaced |
| PortfolioSlice.PortfolioStore.DeleteFulfilled | frontend/src/store/slices/portfolioSlice.ts:146-148 | the positions with the deleted id are dropped |
| PortfolioSlice.PortfolioStore.SummaryFulfilled | frontend/src/store/slices/portfolioSlice.ts:150-152 | the fetched summary replaces the old one |
| MarketSlice.MergedKeys | frontend/src/store/slices/marketSlice.ts:77-80 | after merging, the codes are the old ones plus those of the incoming quotes |
| MarketSlice.MergedLatest | frontend/src/store/slices/marketSlice.ts:77-80 | each code's quote is the last incoming quote with that code |
| MarketSlice.MergedLatestAt | frontend/src/store/slices/marketSlice.ts:77-80 | an incoming quote no later one overrides is the one stored under its code |
| MarketSlice.MergedUntouched | frontend/src/store/slices/marketSlice.ts:77-80 | a code no incoming quote names keeps its old quote |
| MarketSlice.MergedTwice | frontend/src/store/slices/marketSlice.ts:77-80 | merging the same batch twice is merging it once |
| MarketSlice.LastWith | frontend/src/store/slices/marketSlice.ts:77-80 | a code that occurs in the batch has a last occurrence |
| MarketSlice.MarketStore.constructor | frontend/src/store/slices/marketSlice.ts:35-41 | the slice starts with no quotes, no indices, not loading, no error and no update time |
| MarketSlice.MarketStore.UpdateQuote | frontend/src/store/slices/marketSlice.ts:72-76 | the quote is stored under its code and the update time is the clock |
| MarketSlice.MarketStore.Merge | frontend/src/store/slices/marketSlice.ts:78-80 | the loop writes the batch as the merge of the specification does |
| MarketSlice.MarketStore.UpdateQuotes | frontend/src/store/slices/marketSlice.ts:77-82 | the batch is merged and the update time is the clock |
| MarketSlice.MarketStore.ClearError | frontend/src/store/slices/marketSlice.ts:83-85 | only the error is cleared |
| MarketSlice.MarketStore.QuotesPending | frontend/src/store/slices/marketSlice.ts:90-93 | a pending fetch sets loading and clears the error |
| MarketSlice.MarketStore.QuotesFulfilled | frontend/src/store/slices/marketSlice.ts:94-101 | the fetched quotes, unwrapped from `data` when present, are merged and the update time is the clock |
| MarketSlice.MarketStore.QuotesRejected | frontend/src/store/slices/marketSlice.ts:102-105 | a rejected fetch stops loading and records the message or the fallback text |
| MarketSlice.MarketStore.IndicesFulfilled | frontend/src/store/slices/marketSlice.ts:107-109 | the fetched indices replace the old ones |
| UiSlice.Decimal | frontend/src/store/slices/uiSlice.ts:43 | the id of a notification is a non-empty string of decimal digits, one digit for a clock reading below 10 |
| UiSlice.WithoutId | frontend/src/store/slices/uiSlice.ts:49-51 | removing never lengthens the list |
| UiSlice.WithoutIdMeaning | frontend/src/store/slices/uiSlice.ts:49-51 | removing keeps exactly the notifications with another id, and keeps the length exactly when none has the id |
| UiSlice.WithoutIdConcat | frontend/src/store/slices/uiSlice.ts:49-51 | removing distributes over concatenation, so the kept notifications stay in order |
| UiSlice.SameMillisecond | frontend/src/store/slices/uiSlice.ts:42-51 | two notifications added in the same millisecond share an id, so removing one removes both |
| UiSlice.ReducerRules | frontend/src/store/slices/uiSlice.ts:26-54 | toggling flips the sidebar and twice restores it; adding appends one notification with the payload's kind and message and the clock time and changes nothing else; removing touches only the notifications and keeps exactly those with another id |
| UiSlice.UiStore.constructor | frontend/src/store/slices/uiSlice.ts:15-20 | the slice starts expanded, light, not loading and with no notifications |
| UiSlice.UiStore.ToggleSidebar | frontend/src/store/slices/uiSlice.ts:26-28 | the sidebar flag is flipped |
| UiSlice.UiStore.SetSidebarCollapsed | frontend/src/store/slices/uiSlice.ts:29-31 | only the sidebar flag is set |
| UiSlice.UiStore.SetTheme | frontend/src/store/slices/uiSlice.ts:32-34 | only the theme is set |
| UiSlice.UiStore.SetLoading | frontend/src/store/slices/uiSlice.ts:35-37 | only the loading flag is set |
| UiSlice.UiStore.AddNotification | frontend/src/store/slices/uiSlice.ts:38-48 | one notification stamped with the clock is appended |
| UiSlice.UiStore.RemoveNotification | frontend/src/store/slices/uiSlice.ts:49-51 | the notifications with the id are dropped |
| UiSlice.UiStore.ClearNotifications | frontend/src/store/slices/uiSlice.ts:52-54 | only the notifications are emptied |
| AuthSlice.Restored | frontend/src/store/slices/authSlice.ts:19-29 | a user is restored exactly when a stored non-empty item parses; the token is the stored one; the session counts as signed in exactly when a non-empty token and a user are both present; nothing is loading and there is no error |
| AuthSlice.ReducersKeepConsistent | frontend/src/store/slices/authSlice.ts:19-130 | the restored state is consistent and every reducer keeps it so, sign-in only with a non-empty token; a rejection keeps the session; a non-empty fallback always leaves an error |
| AuthSlice.AuthStore.constructor | frontend/src/store/slices/authSlice.ts:19-29 | the store starts from the state restored from the stored items |
| AuthSlice.AuthStore.ClearError | frontend/src/store/slices/authSlice.ts:74-76 | only the error is cleared |
| AuthSlice.AuthStore.Pending | frontend/src/store/slices/authSlice.ts:81-102 | a pending sign-in or registration sets loading and clears the error |
| AuthSlice.AuthStore.Fulfilled | frontend/src/store/slices/authSlice.ts:85-111 | a fulfilled sign-in or registration records the user and token and signs in |
| AuthSlice.AuthStore.Rejected | frontend/src/store/slices/authSlice.ts:94-115 | a rejected sign-in or registration stops loading and records the message or the fallback text |
| AuthSlice.AuthStore.Logout | frontend/src/store/slices/authSlice.ts:117-126 | signing out clears user, token, session, loading and error |
| AuthSlice.AuthStore.ProfileFulfilled | frontend/src/store/slices/authSlice.ts:128-130 | only the user is replaced by the fetched profile |
| Store.ErrorText | frontend/src/store/slices/authSlice.ts:94-97 | a non-empty message is kept, a missing or empty one falls back, so the text is never empty when the fallback is not |
| Util.Round | backend/src/services/decisionEngine.ts:252 | `Math.round` gives the integer nearest the value, halves upward |
| Util.RoundWithin | backend/src/services/decisionEngine.ts:252-254 | rounding a value between two integers stays between them |
| Util.Round2 | backend/src/services/decisionEngine.ts:403 | rounding to two decimals moves the value by at most half a cent |
| Util.Take | backend/src/services/portfolioStrategy.ts:268-270 | `slice(0, n)` is a prefix of at most n elements, all of them when there are fewer |
| Util.TakeLast | backend/src/services/technicalAnalysis.ts:259 | `slice(-n)` is the last n elements, or all of them when there are fewer |
| Util.Last | backend/src/services/technicalAnalysis.ts:58 | the last element is undefined exactly for an empty array |
| Util.PushedIf | backend/src/routes/analysis.ts:127-133 | a guarded push appends the element exactly when the guard holds |
| Util.Filter | backend/src/services/decisionEngine.ts:363 | filtering never lengthens an array |
| Util.FilterSnoc | backend/src/services/decisionEngine.ts:363 | filtering an extended array extends the filtered one by the new element when it passes |
| Util.FilterConcat | backend/src/services/decisionEngine.ts:363 | filtering distributes over concatenation, so order is kept |
| Util.FilterMembers | backend/src/services/decisionEngine.ts:363 | an element survives exactly when it was there and passes |
| Util.FilterLength | backend/src/services/decisionEngine.ts:363 | nothing is dropped exactly when every element passes |
| Util.FilterTwice | backend/src/services/decisionEngine.ts:363 | filtering twice is filtering once |
| Util.SumBounds | backend/src/services/decisionEngine.ts:359 | a sum of n terms in [lo, hi] lies in [n lo, n hi] |
| Util.MeanBounds | backend/src/services/decisionEngine.ts:359 | the mean of terms in [lo, hi] lies in [lo, hi] |
| Util.SeqMinMaxBound | backend/src/services/technicalAnalysis.ts:199-200 | every element lies between `Math.min(...s)` and `Math.max(...s)` |
| Util.SeqMinMaxMember | backend/src/services/technicalAnalysis.ts:199-200 | `Math.min(...s)` and `Math.max(...s)` are elements of the array |
| Sorting.SortByKeyDesc | backend/src/services/sectorAnalysis.ts:69 | the array ends in descending key order and holds the same elements as before |
| Sorting.Insert | backend/src/services/sectorAnalysis.ts:69 | one insertion step extends the descending prefix by one element and keeps the elements |

## Left out

- Random values, the clock and I/O: every `Math.random()` draw, `Date.now()` and `new Date()` reading, fetched database row, Redis value and HTTP response is a parameter of the member that uses it, so the model says nothing about their distribution or origin.
- Dates as text: ISO strings and `toISOString().split('T')[0]` are not modelled; timestamps are integers of milliseconds.
- Floating point: prices and scores are exact `real`s. Rounding error, `Infinity`, `-0` and the difference between `NaN` and `undefined` are not modelled; each non-finite result is `None`.
- `Math.sqrt`: the Bollinger bands take the square root as a function parameter, and the portfolio's total risk, a square root, is a given value. Dafny has no square root on `real`.
- `parseFloat`, `toFixed` and string formatting: numbers parsed from text are a `parse` parameter, and the text of messages, reasons and remarks is a fixed label rather than the interpolated string.
- The logger, `console.log`, SQL text and the `500` responses of the catch blocks are not modelled; the model returns the value the happy path computes or the 400, 401 and 404 errors the handlers raise.
- The list and delete routes of `backend/src/routes/portfolio.ts` only run SQL, and the `/indices`, `/subscribe` and `/stocks/:code` routes of `backend/src/routes/market.ts` and `/recommendations` of `backend/src/routes/analysis.ts` return fixed mock payloads; none of them is modelled.
- The position-analysis handler of `backend/src/routes/analysis.ts` calls `this.calculateRiskLevel` on module functions, which fails at run time; only the helper functions it means to call are modelled.
- `/themes` of `backend/src/routes/portfolioStrategy.ts` returns the theme table, which `PortfolioStrategy` models; the route itself is not modelled.
- Sort stability: `Sorting.SortByKeyDesc` proves the order and the permutation but not that equal keys keep their relative order, which `Array.prototype.sort` guarantees.
- WebSocket delivery: `pushToUser`, `broadcast`, socket errors and the `setInterval` timer are not modelled; a push tick is one call to `WebSocket.Service.PushQuotes`, and sent messages are recorded in an outbox sequence.
- `JSON.parse` of the stored user in the auth slice would throw on malformed text; the model gives it no user instead, through the `parse` parameter.
- MySQL type coercion, for example sums returned as strings, is not modelled; database aggregates are numbers.
- `localStorage` writes of the auth slice are not modelled; only the state fields they mirror are.
- The asynchronous thunks of the slices, and the API client they call, are not modelled; each reducer is a method of its store class.
- Redux Toolkit's Immer drafts are modelled as plain field updates of a class; structural sharing is not modelled.
- Mock generators built from random draws are not modelled: `analyzeTimeliness` and `getStockPoolForTheme` in the strategy service, `generateKeyNodes` and `getRecommendedStockPool` in the recommender, `getSectorCorrelation`, `getSectorData` and `getPolicyNews` in the sector service. The market volatility, correlation, liquidity and policy risks of the risk service are random draws and enter the model as one given `RiskControl.MarketRisk` value.
- Members that only fetch or store data are not modelled. These are the `getUser*`, `get*TimeSeries`, `getMarketData` and `get*Metrics` readers, and the `save*`, `trackUserBehavior`, `collectFeedback` and `notifyAdmins` writers. The modelled functions take the fetched values as parameters.
- The report builders (`generatePreMarketReport` and the three others) are not modelled: they only assemble sections and store the result. Four of their sections are per-position maps over analyses fetched for each holding: `getTodayFocus` copies each holding's technical support, resistance, trend and signals, `getTechnicalReview` its technical trend, strength and signals, `getFundamentalChanges` its quality score, rating, strengths and weaknesses, and `getAIRecommendations` its classification's category, confidence and recommendations. They are left out as report assembly, since they compute nothing beyond copying fields of the analyses that the technical, fundamental and classification modules model. The other sections are made only of fixed values or random draws and are not modelled: `getMarketEnvironment`, `getMoneyFlow` (random flows for each holding), `getSectorDynamics`, `getMarketReview`, `getRebalancingPlan` and `getTomorrowPlan`.
- The system service's `clearCache`, `optimizeDatabase`, `restartServices` and `updateConfig` act on the running process, and `generateSystemReport` only assembles them; only the dispatch of `executeOptimization` is modelled.
- TechnicalAnalysis.CalculateEMA: requires a non-empty series. On an empty one the source returns `[undefined]`, but its only caller rejects empty histories first.
- TechnicalAnalysis.CalculateMACD: requires a non-empty series, for the same reason.
- TechnicalAnalysis.Support: requires a non-empty series. `Math.min()` of nothing would give `Infinity`, but the caller rejects empty histories first.
- TechnicalAnalysis.Resistance: requires a non-empty series, for the same reason.
- TimeSeriesAnalysis.CalculateRiskAssessment: requires non-empty data. On empty data the source's `analyzeTimeSeriesTrend` fails when it reads the last point's fundamentals.
- RiskControl.CurrentWeights: requires a non-zero total. On a zero total the source divides 0 by 0 and the weights are `NaN`.
- MarketRoutes.Quotes: every quote carries one timestamp `now`. The source reads `Date.now()` once per quote, so quotes built across a millisecond boundary can carry different times.
- MarketRoutes.History: the history is built from one request time `now`. The source reads `Date.now()` once per point, so points built across a day boundary can be spaced by other than exactly one day.
- `redisUtils.publish('stock_quotes', quotes)` at the end of each push tick of `backend/src/services/websocket.ts` hands the quotes to Redis. It has no effect on the registry or the replies and is not modelled.
- DecisionEngine.GenerateFinalDecision: each holding's category is the parameter `categories` rather than a call to `PositionClassificationService.classifyPosition`, so a failure of that call is not modelled.
