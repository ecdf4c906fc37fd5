# Car price intelligence: the agent pipeline and its two pages, in Dafny

This project models the decision core of a used-car price intelligence service.

Backend utilities:
- request validation for the prediction endpoint;
- the smoothing helpers (moving average, exponential moving average, clamp);
- the scenario table that shifts a 90-day forecast.

The six agents of the multi-agent pipeline:
- the data agent, which decides whether usable history exists;
- the trend agent: strength, momentum, moving averages, depreciation and seasonal factor;
- the forecast agent: the statistical and language-model blend and its base confidence;
- the risk agent: 90-day change, volatility class, risk score and uncertainty band;
- the decision agent: its three prioritised rules;
- the explanation agent: its three-sentence summary and the deterministic fallback.

The orchestrator that runs the agents:
- a demo-override table keyed by the normalised make and model;
- otherwise the live pipeline, which appends every agent's log entry;
- the legacy recommendation and confidence fields of the report.

The frontend's derived logic:
- the analyze page: catalogue drop-downs, chart series, SHAP bars, confidence gauge, progress stages, form state;
- the market page: heat score and reading, seasonality colour ramp, forecast badge, seed-data banner, load and re-seed state.

The model's conventions:
- Everything outside the core is an input to the model: the database, the statistical forecaster, the price model, the language model, the ethics agent and the HTTP requests.
- Python's `round()` is modelled exactly as round-half-to-even on reals (`Numeric.Round`); JavaScript's `Math.round` is `Numeric.JsRound`.
- Log messages and other formatted prose are kept as `Text` fragments. Numbers inside them are not rendered.
- The two React pages become classes. Their fields are the `useState` variables, and their methods are the event handlers.

## Model

| member | source | states |
|---|---|---|
| Validation.ValidatePredictParams | backend/utils/validation.py:10-43 | the loop and the two integer checks produce exactly `Errors(params)`: missing-field errors in field order, then at most one year error, then at most one mileage error |
| Validation.MissingErrorsExact | backend/utils/validation.py:17-19 | a "Missing required field" error names a field exactly when that field is required and is absent, null or blank after strip |
| Validation.ErrorsEmptyIffAcceptable | backend/utils/validation.py:10-43 | the error list is empty if and only if every required field is present and non-blank and year and mileage convert to integers within [1980, 2026] and [0, 500000] |
| Validation.AtMostEightErrors | backend/utils/validation.py:17-35 | at most eight errors: six missing fields plus one each for year and mileage |
| Validation.BlankYearTwoErrors | backend/utils/validation.py:17-27 | a blank year string is reported both as missing and as not an integer |
| Validation.ConditionNeverBlocks | backend/utils/validation.py:37-41 | any two present, non-blank conditions, known or unknown, give the same errors |
| Validation.ToInt | backend/utils/validation.py:23 | `int()` of null fails and of an integer is that integer |
| Smoothing.MovingAverage | backend/utils/smoothing.py:7-16 | the loop computes the mean of each trailing window of at most `window` values, and returns the input unchanged when it is empty or the window is not positive |
| Smoothing.MovingAverageLength | backend/utils/smoothing.py:11-16 | the output is as long as the input |
| Smoothing.MovingAverageFirst | backend/utils/smoothing.py:13-15 | the first smoothed value is the first input |
| Smoothing.MovingAverageWindowOne | backend/utils/smoothing.py:13-15 | a window of one returns the values unchanged |
| Smoothing.MovingAverageBetween | backend/utils/smoothing.py:13-15 | each smoothed value lies between the smallest and the largest value of its window |
| Smoothing.ExponentialMovingAverage | backend/utils/smoothing.py:19-29 | same length; the first value kept; each later value is alpha times the input plus (1 - alpha) times the previous output; for alpha in [0, 1] every output lies within the inputs' range |
| Smoothing.MeanBetween | backend/utils/smoothing.py:15 | the mean of a non-empty chunk lies between its minimum and maximum |
| Smoothing.Bound | backend/utils/smoothing.py:32-34 | the result lies in [lo, hi]; a value already inside is unchanged, and one outside is moved to the nearer end |
| Smoothing.BoundIdempotent | backend/utils/smoothing.py:32-34 | clamping twice equals clamping once |
| Smoothing.BoundMonotone | backend/utils/smoothing.py:32-34 | clamping preserves order |
| ScenarioAdjustments.ScenarioDeltasSmall | backend/utils/scenario_adjustments.py:7-32 | four scenarios, each moving the confidence by at most 4 points |
| ScenarioAdjustments.ApplyScenario | backend/utils/scenario_adjustments.py:35-55 | an unknown key returns the base values with no label; a known key adds its delta to the change (rounded to 2 places) and its confidence delta clamped to [10, 99], with the scenario's label and description |
| ScenarioAdjustments.ClampConfidence | backend/utils/scenario_adjustments.py:49 | the result lies in [10, 99] and a value already inside is unchanged |
| ScenarioAdjustments.ApplyScenarioMonotone | backend/utils/scenario_adjustments.py:44-49 | a larger base change or base confidence never gives a smaller adjusted one |
| ScenarioAdjustments.ConfidenceMovesAtMostDelta | backend/utils/scenario_adjustments.py:7-49 | for a base confidence in [10, 99] and a known scenario, the adjusted confidence moves by at most the scenario's own delta, and so by at most 4 points |
| DataAgent.Run | backend/agents/data_agent.py:24-51 | history counts only when it is non-empty and its first entry has no error; n_months is its length or 0; the log status is "ok" or "fallback"; the context is passed through with its defaults |
| DataAgent.MonthsMatchStatus | backend/agents/data_agent.py:27-42 | a fallback run reports 0 months and an "ok" run at least one |
| TrendAgent.Strength | backend/agents/trend_agent.py:42-48 | "strong" if and only if the absolute trend is at least 3%, "moderate" if and only if it is in [1, 3), otherwise "weak" |
| TrendAgent.Momentum | backend/agents/trend_agent.py:51 | the momentum score lies in [0, 100] |
| TrendAgent.MomentumFlat | backend/agents/trend_agent.py:51 | a flat trend has momentum 50 |
| TrendAgent.MomentumMonotone | backend/agents/trend_agent.py:51 | a larger trend never has a lower momentum |
| TrendAgent.TruthyPrices | backend/agents/trend_agent.py:54-56 | the kept values are exactly the present, non-zero average prices of the history; none is zero; there is one per entry when every entry has a price |
| TrendAgent.Prices | backend/agents/trend_agent.py:54-56 | an empty or erroneous history gives no prices, and every kept price is non-zero |
| TrendAgent.FallbackPrice | backend/agents/trend_agent.py:58-60 | `last_price or 18500`: the last known price when it is non-zero; the fallback is never zero |
| TrendAgent.MovingAverageLast | backend/agents/trend_agent.py:62-67 | the last moving average is the mean of the last `window` prices |
| TrendAgent.MovingAverages | backend/agents/trend_agent.py:62-67 | with fewer than 3 prices, ma_30 and ma_90 are the rounded forecasts; otherwise they are the rounded last 3-window and min(9, n)-window averages |
| TrendAgent.AveragesWithinPrices | backend/agents/trend_agent.py:62-67 | with at least 3 prices, both averages lie between the rounded smallest and largest price |
| TrendAgent.DepreciationSign | backend/agents/trend_agent.py:70-75 | a price that fell from a positive oldest price gives a non-negative annual depreciation, and one that rose gives a non-positive one |
| TrendAgent.SeasonalFactor | backend/agents/trend_agent.py:78 | the factor is 1.0 when ma_90 is not positive |
| TrendAgent.SeasonalFactorAtAverage | backend/agents/trend_agent.py:78 | a last price at ma_90 gives factor 1, and one above it gives at least 1 |
| TrendAgent.Run | backend/agents/trend_agent.py:36-111 | direction defaults to "stable"; strength follows the trend and momentum is the momentum score of the trend change (0 when absent); with at least three prices the 30- and 90-day averages are the rounded means of the last 3 and last 9 prices; the depreciation rate and seasonal factor are their definitions on the history, the last known price and the 90-day average, 0 and 1 in the degenerate cases; the log entry carries the output fields |
| ForecastAgent.BlendForecasts | backend/agents/forecast_agent.py:66-73 | when both 30-day values are positive: a 40/60 and 30/70 blend labelled "llm_blended"; otherwise the rounded statistical values with the raw method, defaulting to "statistical" |
| ForecastAgent.BlendBetweenInputs | backend/agents/forecast_agent.py:66-68 | each blended value lies between its rounded statistical and rounded model input |
| ForecastAgent.BlendedLabel | backend/agents/forecast_agent.py:66-73 | the label is "llm_blended" exactly when blending happened or the raw method was itself "llm_blended" |
| ForecastAgent.MethodConfidence | backend/agents/forecast_agent.py:76-85 | the method table's confidence, 65 for any other method, always within [58, 80] |
| ForecastAgent.Confidence | backend/agents/forecast_agent.py:84-97 | the base confidence after both adjustments lies in [10, 99] |
| ForecastAgent.ConfidenceExact | backend/agents/forecast_agent.py:84-97 | neither clamp is reached: the result is the table value ±5 for agreement, plus 3 for "now" or "30_days", within [53, 88] |
| ForecastAgent.AgreementRaisesConfidence | backend/agents/forecast_agent.py:88-92 | agreement on the trend direction always gives strictly more confidence than disagreement |
| ForecastAgent.Run | backend/agents/forecast_agent.py:38-126 | predicted price defaults to 0; statistical and model values default as in the source; blend and confidence as above; the SHAP factors default to none; the log carries the output |
| ForecastAgent.MissingModelForecastBlendsWithItself | backend/agents/forecast_agent.py:63-68 | without model forecasts, a positive statistical 30-day value blends with itself and gives the rounded statistical values |
| RiskAgent.NameInjective | backend/agents/risk_agent.py:38-45 | the three volatility names are distinct |
| RiskAgent.ChangePct | backend/agents/risk_agent.py:27-30 | the change is 0 when the prediction is not positive |
| RiskAgent.ChangePctSign | backend/agents/risk_agent.py:27-28 | the change has the sign of forecast minus prediction, and is at least -100% for a non-negative forecast |
| RiskAgent.Classify | backend/agents/risk_agent.py:38-45 | High if and only if there is no history or the absolute change exceeds 5; Moderate if and only if there is history, the change is at most 5, and either it exceeds 2 or inventory is unknown; Low otherwise |
| RiskAgent.RiskBase | backend/agents/risk_agent.py:48-49 | base risk is 20, 50 or 75 |
| RiskAgent.ConfReductionMonotone | backend/agents/risk_agent.py:51 | more confidence never reduces the reduction |
| RiskAgent.RiskScore | backend/agents/risk_agent.py:52 | the risk score lies in [5, 95] |
| RiskAgent.RiskScoreMonotone | backend/agents/risk_agent.py:48-52 | more confidence never raises the risk score |
| RiskAgent.RiskScoreOrderedByVolatility | backend/agents/risk_agent.py:48-52 | Low ≤ Moderate ≤ High risk score at equal confidence |
| RiskAgent.Sigma | backend/agents/risk_agent.py:55-56 | the band's relative width lies in (0, 1) |
| RiskAgent.ProjectedPrice | backend/agents/risk_agent.py:57 | the 90-day forecast when positive, else the prediction |
| RiskAgent.BandContainsProjection | backend/agents/risk_agent.py:57-59 | for a non-negative projection, low ≤ the projection rounded to 2 places ≤ high |
| RiskAgent.UncertaintyBand | backend/agents/risk_agent.py:54-59 | the projection scaled by 1 − sigma and 1 + sigma, each rounded to 2 places; low ≤ high for a non-negative projection and width, and a zero width collapses the band to the rounded projection |
| RiskAgent.Run | backend/agents/risk_agent.py:27-84 | change, class and score as above; the band is round(projection × (1 ∓ sigma), 2) with the class's sigma (0.04, 0.08 or 0.14) around the projected price; no history means High; Low implies history, \|change\| ≤ 2 and known inventory; the log carries the output |
| DecisionAgent.Recommend | backend/agents/decision_agent.py:34-57 | WAIT if and only if the change is at most -3 with confidence at least 75; BUY NOW if and only if that fails and either a rise of at least 2 in a Low market or a price at least 10% under median with confidence at least 75; MONITOR otherwise |
| DecisionAgent.Run | backend/agents/decision_agent.py:29-75 | the recommendation follows the rules in priority order; the rationale is non-empty; the log carries the recommendation and its inputs |
| DecisionAgent.WaitDominates | backend/agents/decision_agent.py:34-35 | a confident fall gives WAIT whatever the volatility and the median gap |
| DecisionAgent.FirstMatch | frontend/src/pages/TechPage.jsx:28-33 | a row of the published rules table applies exactly when one of its rows' conditions all hold |
| DecisionAgent.RunFollowsRulesTable | backend/agents/decision_agent.py:14-19 | the agent's decision is the first matching row of the published rules table, and MONITOR when none matches |
| ExplanationAgent.DirectionWord | backend/agents/explanation_agent.py:79 | "rise" if and only if the change is positive, otherwise "fall" |
| ExplanationAgent.Fallback | backend/agents/explanation_agent.py:77-84 | three sentences; the second names the direction word; the third is the decision rationale |
| ExplanationAgent.Summary | backend/agents/explanation_agent.py:71-84 | three sentences: the model's first three bullets when it returned a list of at least three, else the fallback |
| ExplanationAgent.Run | backend/agents/explanation_agent.py:71-99 | the summary as above, the explanation as the sentences joined by spaces, and the log entry carrying the summary |
| ExplanationAgent.ZeroChangeIsFall | backend/agents/explanation_agent.py:79 | a zero change is described as a fall |
| Records.AgentNames | backend/agents/orchestrator.py:161-322 | the "agent" field of each log entry, position by position, one name per entry |
| Records.AgentNamesAppend | backend/agents/orchestrator.py:161-322 | appending entries to the log appends their names |
| Orchestrator.Normalise | backend/agents/orchestrator.py:135-137 | the key is the stripped, lower-cased make and model joined by one space |
| Orchestrator.NormaliseIgnoresCase | backend/agents/orchestrator.py:135-137 | the key does not depend on letter case |
| Orchestrator.NormaliseIgnoresLeadingSpace | backend/agents/orchestrator.py:135-137 | the key does not depend on leading whitespace of either name |
| Orchestrator.RecMap | backend/agents/orchestrator.py:285-286 | BUY if and only if "BUY NOW", WAIT if and only if "WAIT", NEUTRAL otherwise |
| Orchestrator.LegacyConfidence | backend/agents/orchestrator.py:325-330 | HIGH if and only if the score is at least 75, MODERATE if and only if it is in [55, 75), LOW below |
| Orchestrator.LegacyConfidenceMonotone | backend/agents/orchestrator.py:325-330 | a higher score never gets a lower label |
| Orchestrator.LegacyRecommendationFollowsRules | backend/agents/orchestrator.py:274-286 | the legacy recommendation is WAIT exactly when the first decision rule fires, and BUY exactly when a buy rule does |
| Orchestrator.OverrideTableFacts | backend/agents/orchestrator.py:35-132 | for every override entry, the legacy recommendation is the mapping of its final one, and the final one is what the live rules give for its change, confidence and volatility; the change is above -100%, the confidence is in [10, 99], the volatility is a known class and the method is "llm_blended" |
| Orchestrator.OverrideEntriesConsistent | backend/agents/orchestrator.py:36-131 | each of the four entries satisfies those facts |
| Orchestrator.OverrideConfidenceLabels | backend/agents/orchestrator.py:36-131 | three entries' legacy labels follow the 75/55 thresholds; the Camry entry says MODERATE at a score the thresholds call HIGH |
| Orchestrator.SigmaOf | backend/agents/orchestrator.py:180-183 | the override band width lies in (0, 1) and defaults to 0.08 |
| Orchestrator.SigmaOfAgreesWithRiskAgent | backend/agents/orchestrator.py:180-183 | the override widths are the risk agent's |
| Orchestrator.RisingRuleSeesLowClass | backend/agents/orchestrator.py:273-279 | the decision agent's rising rule, fed the risk class's name, fires exactly when the change is at least 2% and the class is Low |
| Orchestrator.OverrideProjectionFollowsChange | backend/agents/orchestrator.py:177 | a falling override projects at most 18500, a rising one at least 18500, and any change of at least -100% a non-negative price |
| Orchestrator.OverrideBandOrdered | backend/agents/orchestrator.py:177-183 | the override band around the projection has low ≤ high |
| Orchestrator.ApplyOverride | backend/agents/orchestrator.py:172-223 | the report is read off the table entry; projected and 90-day prices are the projection; current and predicted price are the projection taken back by the change, and the 30-day forecast moves it by a third of the change, both to 2 places; trend strength is "moderate" with momentum 50 + 2 × change; the data features are (projection, projection, 4.2, 1.0); the band is centred on the projection with low ≤ high; the log is the start entry plus the override entry; there are no tool outputs |
| Orchestrator.AssembleLive | backend/agents/orchestrator.py:307-375 | the report's fields come from the agents' results: current, predicted, 30- and 90-day and projected prices are the forecast's rounded to 2 places; the data features are the trend agent's averages, rate and factor; the key insight, explanation and the three ethics texts are carried over; the tool outputs hold the raw history, forecast, context, prediction, factors, language-model analysis and the synthesis of recommendation, confidence, rationale and prices; the log ends with the ethics and completion entries |
| Orchestrator.RunLive | backend/agents/orchestrator.py:227-375 | the six agents run in order on the external results, each feeding the next as the source wires them, and the report is assembled from them field by field as in AssembleLive; the uncertainty band is the risk agent's band of the class around the projected price |
| Orchestrator.LiveLogOrder | backend/agents/orchestrator.py:229-322 | the live log names, after the start entry, the data, trend, forecast, risk, decision and explanation agents, then the ethics agent and the orchestrator's completion entry, in that order |
| Orchestrator.RunOrchestrator | backend/agents/orchestrator.py:140-375 | the log starts with the start entry; a normalised key in the override table gives the override report with every field as in ApplyOverride, any other the live report with every field as in AssembleLive; every report is consistent |
| JsValues.Or | frontend/src/pages/AnalyzePage.jsx:184 | `a \|\| b` is a when a is truthy, else b |
| JsValues.ErrorText | frontend/src/pages/AnalyzePage.jsx:184-185 | the first truthy of the two body fields, else the message, with objects and null stringified |
| JsValues.ErrorOrdersDisagreeOnlyOnBoth | frontend/src/pages/MarketPage.jsx:68-69 | the two pages' error texts differ only when the body has both a truthy detail and a truthy error that show differently |
| JsValues.ToNumber | frontend/src/pages/AnalyzePage.jsx:161 | `+s` gives 0 for "", a non-negative value for digits, and NaN otherwise |
| AnalyzePage.MakeOptions | frontend/src/pages/AnalyzePage.jsx:165 | the makes offered are strictly ascending and are exactly the catalogue's makes |
| AnalyzePage.ModelOptions | frontend/src/pages/AnalyzePage.jsx:166-168 | the models offered are strictly ascending and are exactly the models of the chosen make; none for a make not offered |
| AnalyzePage.YearOptions | frontend/src/pages/AnalyzePage.jsx:169-172 | the years offered are strictly descending and are exactly those of the chosen make and model |
| AnalyzePage.YearsWithinModels | frontend/src/pages/AnalyzePage.jsx:165-172 | every offered year belongs to an offered model of an offered make |
| AnalyzePage.Descending | frontend/src/pages/AnalyzePage.jsx:171 | `b - a` orders years strictly and totally, larger first |
| AnalyzePage.StringOrderIsStrictTotal | frontend/src/pages/AnalyzePage.jsx:165 | the default sort order on strings is a strict total order |
| AnalyzePage.History | frontend/src/pages/AnalyzePage.jsx:194-196 | the history drawn is the array tool output, or nothing |
| AnalyzePage.Forecast30 | frontend/src/pages/AnalyzePage.jsx:199 | the blended 30-day value when truthy, else the raw forecast's |
| AnalyzePage.Forecast90 | frontend/src/pages/AnalyzePage.jsx:200 | the blended 90-day value when truthy, else the raw forecast's |
| AnalyzePage.BuildChartData | frontend/src/pages/AnalyzePage.jsx:193-209 | one point per history entry; when a last known price and a forecast exist, the last history point also starts the forecast line, and "Now", "+30d" and "+90d" points follow |
| AnalyzePage.ReplaceUnderscores | frontend/src/pages/AnalyzePage.jsx:222 | every underscore becomes a space and nothing else changes |
| AnalyzePage.SortByImpact | frontend/src/pages/AnalyzePage.jsx:223 | the bars are ordered by impact, largest first, and are a permutation of the input |
| AnalyzePage.ShapChartData | frontend/src/pages/AnalyzePage.jsx:213-223 | one bar per factor with its absolute impact, ordered largest first, as a permutation of the mapped factors |
| AnalyzePage.LargestImpactFirst | frontend/src/pages/AnalyzePage.jsx:221-223 | no factor has a larger absolute impact than the first bar |
| AnalyzePage.ConfPct | frontend/src/pages/AnalyzePage.jsx:225 | 90 if and only if HIGH, 60 if and only if MODERATE, 30 otherwise |
| AnalyzePage.ConfPctOfScore | frontend/src/pages/AnalyzePage.jsx:225 | on the orchestrator's labels the gauge fills 90 from a score of 75 and 60 from 55, and never falls as the score rises |
| AnalyzePage.AnalyzeView.constructor | frontend/src/pages/AnalyzePage.jsx:143-150 | the initial state: empty catalogue, the default form, no result, not loading, no error, stage 0 |
| AnalyzePage.AnalyzeView.SetCatalogue | frontend/src/pages/AnalyzePage.jsx:153 | only the catalogue changes |
| AnalyzePage.AnalyzeView.SelectMake | frontend/src/pages/AnalyzePage.jsx:261 | choosing a make clears the model and year, so the form is not ready |
| AnalyzePage.AnalyzeView.SelectModel | frontend/src/pages/AnalyzePage.jsx:268 | choosing a model clears the year, so the form is not ready |
| AnalyzePage.AnalyzeView.SelectYear | frontend/src/pages/AnalyzePage.jsx:275 | only the year changes |
| AnalyzePage.AnalyzeView.PrefillFromUrl | frontend/src/pages/AnalyzePage.jsx:156-163 | make, model and year are filled only when all three are non-empty, the year converted by `+` |
| AnalyzePage.AnalyzeView.Analyze | frontend/src/pages/AnalyzePage.jsx:176-190 | an incomplete form changes nothing; otherwise the stage is min(ticks, 5), loading ends, and the result or the error text is set with the other cleared |
| MarketPage.HeatScore | frontend/src/pages/MarketPage.jsx:114 | the score lies in [0, 100], is 50 without a change, and is the rounded 50 + 5·change when that lies in range |
| MarketPage.HeatScoreMonotone | frontend/src/pages/MarketPage.jsx:114 | a larger change never lowers the score |
| MarketPage.Classify | frontend/src/pages/MarketPage.jsx:115-119 | Hot if and only if the score is above 65, Cool if and only if it is below 35, Balanced otherwise |
| MarketPage.HeatThresholds | frontend/src/pages/MarketPage.jsx:114-116 | hot if and only if the change is at least 3.1%, cool if and only if it is strictly below -3.1%, balanced without data |
| MarketPage.SeasonColour | frontend/src/pages/MarketPage.jsx:32-38 | the midpoint colour when min = max; blue at the minimum, red at the maximum; every channel within the ramp between |
| MarketPage.SeasonColourMonotone | frontend/src/pages/MarketPage.jsx:32-38 | a higher price is never bluer: red grows, green and blue shrink |
| MarketPage.SeasonExtent | frontend/src/pages/MarketPage.jsx:112-113 | 0 and 1 without seasonality data, otherwise the true minimum and maximum of the prices |
| MarketPage.BarsOnRamp | frontend/src/pages/MarketPage.jsx:32-38 | every bar's colour lies on the ramp, between the cheapest month's and the dearest month's |
| MarketPage.BadgeLabel | frontend/src/pages/MarketPage.jsx:40-54 | no badge without a method; the table label for a known method; the method's own name otherwise |
| MarketPage.BadgeKnownIffRanked | frontend/src/pages/MarketPage.jsx:42-49 | the badge table names exactly the methods the forecast agent gives their own confidence |
| MarketPage.HasSeedData | frontend/src/pages/MarketPage.jsx:120 | true if and only if some top-buy row has a truthy seed flag |
| MarketPage.MarketView.constructor | frontend/src/pages/MarketPage.jsx:57-60 | no data, loading, no error, not seeding |
| MarketPage.MarketView.LoadMarket | frontend/src/pages/MarketPage.jsx:63-72 | loading ends; success replaces the data and clears the error; failure keeps the data and sets the error text (error first, then detail) |
| MarketPage.MarketView.HandleReseed | frontend/src/pages/MarketPage.jsx:76-86 | the page reloads only after a successful seed, and the seeding flag is down afterwards either way |

## Left out

- Floating point: every number is an exact real. Python's half-even rounding and `Math.round` are modelled on reals, not on binary doubles, so representation effects such as `round(2.675, 2)` are not captured.
- Integer widths: Python integers are unbounded, and the JavaScript numbers the pages compare stay far below 2^53.
- Lower-casing is ASCII only. Python's `.lower()` also maps non-ASCII capitals.
- The string sort orders by code point. JavaScript compares UTF-16 code units, which differ only above U+FFFF.
- `int()` of a string accepts surrounding whitespace, an optional sign, and ASCII digits with single underscores between them. Non-ASCII digits, which Python also accepts, are not modelled.
- JsValues.ToNumber: `+s` is modelled for "" and ASCII digit runs only. Signs, decimals, whitespace, exponents and hex prefixes give NaN here.
- Message texts and number formatting (`f"{x:,.0f}"`, `toFixed`, `toLocaleString`) are kept as opaque text fragments, so no property is stated about the rendered digits.
- `str(b)` of the language model's bullets is taken as given.
- The external calls are inputs to the model and are not modelled. These are:
  - the price-history and market-context reads;
  - `run_forecast`, `run_price_prediction` and `run_llm_price_analysis`;
  - the ethics agent, which is not part of this model;
  - the HTTP requests of both pages.
- Null values in the external results are not modelled. `Option` stands for an absent key, not for a key present with the value `None`. In the source such a `None` either raises in `float()` (backend/agents/forecast_agent.py:39-64) or is returned by `.get` instead of the default: a `method` of `None` gives base confidence 65 where an absent one gives 68 (backend/agents/forecast_agent.py:84-85), and the data agent passes a `None` context field through unchanged (backend/agents/data_agent.py:46-48).
- Request parameters are scalars. `Validation.Value` has no list or object case. A list or object given as `year` or `mileage` makes `int()` raise `TypeError`, which backend/utils/validation.py:21-35 reports as the integer error; that path is not modelled.
- The condition and region fields only feed those external calls, so they do not appear in the agent models.
- The text of the four override entries (summaries, notes, descriptions) is held by `Orchestrator.OverrideProse`, keyed by the same normalised key. The numeric and label fields are in `DemoOverrides`.
- RiskAgent.BandContainsProjection: the band is stated against the projection rounded to 2 places. Low ≤ high is stated for a non-negative projection only; a negative projection flips the band.
- AnalyzePage.SortByImpact: states ordering and permutation, not stability. Stability decides the order of equal impacts only.
- AnalyzePage.ShapChartData: a NaN impact, which would make the comparator inconsistent, is not modelled.
- MarketPage.BadgeLabel: object-prototype keys such as "constructor" in the badge lookup are not modelled.
- MarketPage.SeasonExtent: an empty seasonality list gives `Infinity`/`-Infinity` in the source, and is modelled as a distinct `Unbounded` extent.
- Asynchrony is not modelled:
  - The progress timer becomes the number of ticks before the request settles (`AnalyzePage.AnalyzeView.Analyze`).
  - React's batched state updates are applied in order.
  - `handleReseed` awaits `loadMarket`, which returns no promise. The model states the state after the reload has settled.
  - `console.error` is not modelled.
- Rendering is not modelled: the JSX, the rgb() string of a colour, AnimatedNumber, icons and CSS classes.
