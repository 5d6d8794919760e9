# Kuchenbestellung: a verified model of the cake-ordering simulator

The simulator has a player order cakes for a bakery, one day at a time, against a
synthetic demand. This project models its logic in Dafny:

- **Synthetic day generator** (`SyntheticData`, in `synthetic.dfy`):
  - the holiday label of a date (`get_holiday`);
  - the weather step (`get_weather`);
  - the sales rule with its weekday, weather, holiday and event factors (`get_sales`);
  - the loop that builds the three-year history (`generate_synthetic_data`);
  - the pending record for tomorrow (`generate_tomorrow`).
- **Forecasting** (`Forecasting`, in `forecast.dfy`):
  - the same-weekday heuristic;
  - the integer weekday feature;
  - the lazily trained, cached KNN and XGBoost models, with the regressors left abstract;
  - the dispatcher from a localized model name to a strategy.
- **Localization** (`Localization`, in `localization.dfy`): the two-level translation table, with its fallback to the key.
- **The session** (`Session`, in `session.dfy`):
  - the state the interface keeps;
  - the "end day" transition: leftover and missed sales, history append, budget, a new tomorrow, prediction reset;
  - the "AI help" button;
  - the feedback classification of the closed day.
- **Dates** (`Dates`, in `dates.dfy`): calendar dates as day numbers, with the weekday and month the source reads from them.

All randomness is explicit. Every simulated day consumes one `DayDraws` record:
- the temperature change;
- the condition draw;
- the event draw and event index;
- the noise factor;
- the warm-up order offset.

Each of these carries the range numpy guarantees as a precondition. The holiday calendar is a map from date to holiday name. The seasonal baseline temperature is a 12-entry table. With these inputs every rule is a deterministic function, and the imperative parts are methods proved equal to those functions:
- `GetWeather` updates the probability vector in place;
- `GetSales` multiplies the running figure step by step;
- the history `while` loop;
- the `Forecaster` cache;
- the `Session` class.

## Model

| member | source | states |
|---|---|---|
| `Dates.Weekday` | foodwaste_demo_ai.py:42 | the weekday number of a date lies in 0..6 (Monday = 0) |
| `Dates.DayName` | foodwaste_demo_syntheticdata.py:87 | the `%A` name of a date is one of the seven English names, the one at its weekday number |
| `Dates.SameWeekdayEveryWeek` | foodwaste_demo_ai.py:63-64 | a date any whole number of weeks later has the same weekday name, so the weekday filter is periodic |
| `Dates.Month` | foodwaste_demo_syntheticdata.py:35 | the month of any date lies in 1..12, so the baseline lookup is always in range |
| `Dates.YearDay` | foodwaste_demo_syntheticdata.py:35 | the day of the year found for a date lies inside the year found |
| `Dates.YearStart` | foodwaste_demo_syntheticdata.py:35 | definition: the day number of January 1 of a year; characterised by `Dates.YearStartStep` |
| `Dates.YearStartStep` | foodwaste_demo_syntheticdata.py:35 | consecutive New Year's days lie exactly one year length apart |
| `Dates.YearDayDecomposes` | foodwaste_demo_syntheticdata.py:35 | the year and day of the year found for a date add back up to that date, for every date |
| `Dates.MonthOfDate` | foodwaste_demo_syntheticdata.py:35 | every date is a day inside one year, and its month is the one whose day range in that year (leap years included) contains it |
| `Dates.CalendarAnchors` | foodwaste_demo_syntheticdata.py:35 | fixed dates have their true weekday and month: 1970-01-01 a Thursday in January, 1970-01-05 a Monday, 1970-03-01 a Sunday in March, the leap day 1972-02-29 in February |
| `Localization.Localize` | foodwaste_demo_strings.py:35-112 | the lookup yields either the key itself or the stored text of that key in that language |
| `Localization.StoredTranslation` | foodwaste_demo_strings.py:36-112 | a key and language present in the table yield the stored translation |
| `Localization.FallbackToKey` | foodwaste_demo_strings.py:112 | an unknown key, or a known key in an unknown language, is returned unchanged |
| `Localization.EnglishWeekdayNames` | foodwaste_demo_strings.py:78-84 | each English weekday name maps to the German name under "Deutsch" and to itself under "English" |
| `Localization.GermanWeekdayNames` | foodwaste_demo_strings.py:85-91 | each German weekday name maps to itself under "Deutsch" and to the English name under "English" |
| `Localization.WeekdayLocalizationIdempotent` | foodwaste_demo_strings.py:78-91 | localizing a weekday name twice into one language equals localizing it once |
| `Localization.ModelNamesDistinct` | foodwaste_demo_strings.py:63-65 | in every language the three model names are pairwise different |
| `SyntheticData.ConditionIndex` | foodwaste_demo_syntheticdata.py:34 | every condition has a position 0..3 in the probability vectors, and that position holds it |
| `SyntheticData.LeftoverAndMissedExclusive` | foodwaste_demo_syntheticdata.py:176-177 | leftover and missed of a resolved day are non-negative, never both positive, and the cakes sold are min(order, sales) |
| `SyntheticData.ContainsAt` | foodwaste_demo_syntheticdata.py:113 | a substring at any position makes Python's `in` test true |
| `SyntheticData.DayType` | foodwaste_demo_syntheticdata.py:11-24 | a date's own holiday name wins; otherwise a named holiday the day before gives "day after" it; otherwise one the day after gives "day before" it; otherwise "normal" |
| `SyntheticData.HolidayKeepsItsName` | foodwaste_demo_syntheticdata.py:18-19 | a holiday is labelled with its own name whatever its neighbours are |
| `SyntheticData.DayAfterTakesPriority` | foodwaste_demo_syntheticdata.py:19-21 | an ordinary day after a holiday is "day after" it, even when the next day is a holiday too |
| `SyntheticData.DayBeforeHoliday` | foodwaste_demo_syntheticdata.py:22-23 | an ordinary day before a holiday, with no holiday the day before, is "day before" it |
| `SyntheticData.NoHolidayNearby` | foodwaste_demo_syntheticdata.py:18-24 | a date with no holiday on it or next to it is "normal" |
| `SyntheticData.ClosingDays` | foodwaste_demo_syntheticdata.py:112-120 | a holiday whose name has neither "before" nor "after" closes the store; a non-holiday never does |
| `SyntheticData.Scale` | foodwaste_demo_syntheticdata.py:64 | normalising keeps the length of the vector |
| `SyntheticData.SumScale` | foodwaste_demo_syntheticdata.py:63-64 | dividing every entry by t divides the sum by t |
| `SyntheticData.NormalizedSumsToOne` | foodwaste_demo_syntheticdata.py:60-64 | a vector divided by its positive total sums to one |
| `SyntheticData.TransitionProbabilities` | foodwaste_demo_syntheticdata.py:52-58 | each of the three persistence vectors is a probability distribution in which snow is possible but not certain |
| `SyntheticData.WithoutSnow` | foodwaste_demo_syntheticdata.py:60-64 | zeroing snow and renormalising gives a distribution with no snow, in which every other condition keeps its share relative to the rest, p[i] / (1 - p[snow]) |
| `SyntheticData.WeatherProbabilities` | foodwaste_demo_syntheticdata.py:52-72 | the condition vector is always a distribution: the fixed first-day vector without history; with history the previous day's weather's persistence vector, with snow removed and the rest renormalised in warm months above 2 degrees |
| `SyntheticData.Pick` | foodwaste_demo_syntheticdata.py:66 | the inverse-CDF choice picks the index whose cumulative interval [Sum(p[..i]), Sum(p[..i+1])) holds the draw, never an entry of probability zero, and runs past the end only for a draw not below the total |
| `SyntheticData.DrawCondition` | foodwaste_demo_syntheticdata.py:66 | the drawn condition never has probability zero |
| `SyntheticData.BaseTemperature` | foodwaste_demo_syntheticdata.py:38 | definition: the baseline entry of the date's month; characterised by `SyntheticData.NextTemperature` and `SyntheticData.RulesGivePlausibleWeather` |
| `SyntheticData.NextTemperature` | foodwaste_demo_syntheticdata.py:47-71 | with history the temperature is the previous one plus the change, clamped to the nearer bound of the band of 10 degrees around the baseline; without history it is the baseline plus the offset |
| `SyntheticData.GetWeather` | foodwaste_demo_syntheticdata.py:26-74 | the step-by-step weather equals the closed-form functions; the first day lies in [base-5, base+4]; there is no snow in warm months above 2 degrees |
| `SyntheticData.Recent` | foodwaste_demo_syntheticdata.py:93-94 | the recent days are the last min(7, n) rows of the history |
| `SyntheticData.RainyDays` | foodwaste_demo_syntheticdata.py:102 | the count of rainy recent days is at most the number of recent days |
| `SyntheticData.WeekdayFactor` | foodwaste_demo_syntheticdata.py:86-90 | the weekday factor is 1.5 exactly on Saturdays and Sundays, and 1.0 otherwise |
| `SyntheticData.WeatherAdjusted` | foodwaste_demo_syntheticdata.py:98-110 | snow costs 30% (20% after a recent average of -2 degrees or colder), rain 5% after more than three rainy recent days and 15% otherwise, sun adds 10% unless the day is over 5 degrees warmer than the recent average (then -10%), partly cloudy leaves demand as it is; so the factor lies in [0.7, 1.1] |
| `SyntheticData.HolidayAdjusted` | foodwaste_demo_syntheticdata.py:112-118 | a day before a holiday sells 20% more (3.6 times as much before New Year's Day), otherwise a day after one 10% more, otherwise demand is unchanged; so the factor lies in [1, 3.6] |
| `SyntheticData.ShorterHasNoPart` | foodwaste_demo_syntheticdata.py:115 | `in` never finds a part longer than the text |
| `SyntheticData.NewYearBoostNeedsEnglishName` | foodwaste_demo_syntheticdata.py:113-116 | the day before a holiday named "New Year's Day" sells 3.6 times the demand, the day before one named "Neujahr" only 1.2 times |
| `SyntheticData.UnforeseenEvents` | foodwaste_demo_syntheticdata.py:124-133 | there are eight events, each with a multiplier in [0.7, 1.3] |
| `SyntheticData.EventLabelsNonEmpty` | foodwaste_demo_syntheticdata.py:124-133 | no event label is empty in any language |
| `SyntheticData.FirstEventLabelsNonEmpty` | foodwaste_demo_strings.py:95-98 | the first four event keys localize to non-empty text in every language |
| `SyntheticData.LastEventLabelsNonEmpty` | foodwaste_demo_strings.py:99-102 | the last four event keys localize to non-empty text in every language |
| `SyntheticData.EventLabel` | foodwaste_demo_syntheticdata.py:123-136 | the day's event label is non-empty exactly when the event draw is below 0.03 |
| `SyntheticData.EventAdjusted` | foodwaste_demo_syntheticdata.py:135-137 | an event scales demand by a factor in [0.7, 1.3], and without an event demand is unchanged |
| `SyntheticData.EventStep` | foodwaste_demo_syntheticdata.py:136-137 | multiplying by the chosen event's multiplier is the event step |
| `SyntheticData.AverageTemperature` | foodwaste_demo_syntheticdata.py:96 | definition: the mean recent temperature, or the day's own without history; characterised by `SyntheticData.WeatherAdjusted` |
| `SyntheticData.IsClosed` | foodwaste_demo_syntheticdata.py:119-120 | definition: a holiday that is neither a day before nor a day after; characterised by `SyntheticData.Sales` |
| `SyntheticData.ExpectedSales` | foodwaste_demo_syntheticdata.py:86-137 | demand before noise lies between 245 and 3861 cakes |
| `SyntheticData.WithNoise` | foodwaste_demo_syntheticdata.py:140 | the sales are the noisy demand truncated to a whole number (the largest integer not above it), and so lie between 232 and 4054 |
| `SyntheticData.Sales` | foodwaste_demo_syntheticdata.py:76-142 | sales are never negative; a closing day gives exactly (0, ""); otherwise sales are in [232, 4054], and the event label is the drawn event's exactly when the draw is below 0.03 |
| `SyntheticData.GetSales` | foodwaste_demo_syntheticdata.py:76-142 | the step-by-step computation yields the sales and event of the closed form |
| `SyntheticData.Resolve` | foodwaste_demo_syntheticdata.py:173-182 | resolving a pending day with an order gives a record with that order, consistent leftover and missed, and the rest of the day unchanged |
| `SyntheticData.ResolveByFields` | foodwaste_demo_syntheticdata.py:176-182 | the appended row, field by field, is the pending day resolved with its order |
| `SyntheticData.ResolvedRecordsAreResolutions` | foodwaste_demo_syntheticdata.py:176-177 | every record with consistent leftover and missed is its pending day resolved with its order |
| `SyntheticData.DayOf` | foodwaste_demo_syntheticdata.py:161-169 | the day computed for a date carries that date |
| `SyntheticData.DayRow` | foodwaste_demo_syntheticdata.py:161-182 | the row for a date carries that date and consistent leftover and missed |
| `SyntheticData.TomorrowOf` | foodwaste_demo_syntheticdata.py:190-206 | tomorrow is dated one day after the last row of the history |
| `SyntheticData.DayOfProperties` | foodwaste_demo_syntheticdata.py:161-169 | every computed day has the localized weekday name and calendar day type of its date and non-negative sales; closing days have no sales and no event; after the first day the weather is plausible |
| `SyntheticData.WarmUpOrder` | foodwaste_demo_syntheticdata.py:173 | definition: the sales of seven rows back, or the day's sales plus the drawn change in the first eight rows; characterised by `SyntheticData.DayRowProperties` |
| `SyntheticData.DayRowProperties` | foodwaste_demo_syntheticdata.py:171-177 | a row is its day resolved with the order from 7 rows back, or sales plus an offset in [-3, 2] in the first eight rows |
| `SyntheticData.History` | foodwaste_demo_syntheticdata.py:158-185 | the history of n days has n rows |
| `SyntheticData.RowOnIsDayRow` | foodwaste_demo_syntheticdata.py:158-182 | row i of the history is the row the loop appends after the i rows before it |
| `SyntheticData.ExtendDatedRows` | foodwaste_demo_syntheticdata.py:180-185 | appending the next day's resolved row keeps the rows dated one day apart from the start |
| `SyntheticData.ExtendTypedRows` | foodwaste_demo_syntheticdata.py:163 | appending a row with its calendar day type keeps every row correctly typed |
| `SyntheticData.ExtendWarmUpOrders` | foodwaste_demo_syntheticdata.py:173 | appending a row ordered by the warm-up rule keeps the ordering rule for all rows |
| `SyntheticData.ExtendPlausibleWeather` | foodwaste_demo_syntheticdata.py:166 | appending a row with plausible weather keeps the weather plausible for all rows |
| `SyntheticData.DatedRowsAreConsecutive` | foodwaste_demo_syntheticdata.py:158-185 | rows dated one day apart from the start are consecutive calendar days |
| `SyntheticData.NextRowObeysRules` | foodwaste_demo_syntheticdata.py:161-182 | the next row, against the rows before it, has the next date, its day type, the warm-up order and plausible weather |
| `SyntheticData.ResolvedDayObeysRules` | foodwaste_demo_syntheticdata.py:161-182 | a day with a computed day's properties, resolved with the warm-up order, meets every per-row rule against the rows before it |
| `SyntheticData.RowOnObeysRules` | foodwaste_demo_syntheticdata.py:158-182 | every row of the history obeys those rules against its predecessors |
| `SyntheticData.RulesGiveDatedRows` | foodwaste_demo_syntheticdata.py:158-185 | rows obeying the rules run one day apart from the start |
| `SyntheticData.RulesGiveTypedRows` | foodwaste_demo_syntheticdata.py:163-169 | rows obeying the rules carry their day type, and closing days sell nothing |
| `SyntheticData.RulesGiveWarmUpOrders` | foodwaste_demo_syntheticdata.py:173 | rows obeying the rules order last week's sales after the eighth row |
| `SyntheticData.RulesGivePlausibleWeather` | foodwaste_demo_syntheticdata.py:166 | rows obeying the rules stay within 10 degrees of the baseline, with no summer snow |
| `SyntheticData.HistoryObeysRules` | foodwaste_demo_syntheticdata.py:158-185 | every row the loop appends obeys the rules against the rows before it |
| `SyntheticData.HistoryProperties` | foodwaste_demo_syntheticdata.py:158-185 | the generated history is well formed and has one row per consecutive calendar day |
| `SyntheticData.DayOfTheSteps` | foodwaste_demo_syntheticdata.py:161-169 | the day the loop body assembles from its steps is the computed day |
| `SyntheticData.ComputeDay` | foodwaste_demo_syntheticdata.py:161-169 | weather, holiday and sales called in the loop's order give the computed day |
| `SyntheticData.NextRow` | foodwaste_demo_syntheticdata.py:171-182 | the computed day, resolved with the warm-up order, is the history's next row |
| `SyntheticData.GenerateDay` | foodwaste_demo_syntheticdata.py:159-185 | one pass of the loop body appends exactly the next row of the history |
| `SyntheticData.GenerateSyntheticData` | foodwaste_demo_syntheticdata.py:144-188 | the while loop builds exactly the history from start to end inclusive |
| `SyntheticData.GenerateTomorrow` | foodwaste_demo_syntheticdata.py:190-206 | the pending record is the computed day after the history's last |
| `Forecasting.SameWeekday` | foodwaste_demo_ai.py:64 | the filter keeps exactly the rows with the given weekday label, each as often as in the data |
| `Forecasting.Insert` | foodwaste_demo_ai.py:67 | insertion keeps the rows sorted by date and adds exactly the one row |
| `Forecasting.SortByDate` | foodwaste_demo_ai.py:67 | sorting gives a date-ordered permutation of the rows |
| `Forecasting.SortKeepsRows` | foodwaste_demo_ai.py:67 | a row is in the sorted rows exactly when it is in the input |
| `Forecasting.SortedCut` | foodwaste_demo_ai.py:67 | in sorted rows everything before a cut is no later than everything after it |
| `Forecasting.Latest` | foodwaste_demo_ai.py:67 | `tail(k)` is the last min(k, n) rows, still sorted, all from the input |
| `Forecasting.MeanSales` | foodwaste_demo_ai.py:70 | the mean exists exactly for non-empty rows (NaN otherwise), and times the count it is the sales total |
| `Forecasting.HeuristicLabel` | foodwaste_demo_ai.py:63 | definition: tomorrow's weekday label in German; characterised by `Forecasting.HeuristicMatchesGermanNames` |
| `Forecasting.ReferenceDays` | foodwaste_demo_ai.py:64-67 | definition: the last four date-sorted rows with that label; characterised by `Forecasting.HeuristicTakesLatest` |
| `Forecasting.Heuristic` | foodwaste_demo_ai.py:49-79 | the forecast is the mean sales of at most four date-sorted reference days, all from the history with tomorrow's German weekday label, explained by "modelInfoHeuristic" |
| `Forecasting.HeuristicTakesLatest` | foodwaste_demo_ai.py:62-67 | the reference days are min(4, matching) of the matching rows, and every matching row left out is no later than each reference day |
| `Forecasting.MeanWithinBounds` | foodwaste_demo_ai.py:70 | a mean lies between the lowest and highest sales it averages |
| `Forecasting.HeuristicWithinReferenceSales` | foodwaste_demo_ai.py:62-70 | a heuristic forecast lies within the range of the history's sales |
| `Forecasting.HeuristicReadsOnlyWeekday` | foodwaste_demo_ai.py:63 | two tomorrows with the same weekday label get the same forecast, whatever their sales, weather or date |
| `Forecasting.HeuristicMatchesGermanNames` | foodwaste_demo_ai.py:63-64 | an English or German weekday label is compared as the German name, so only German-labelled rows match |
| `Forecasting.WeekdayFeature` | foodwaste_demo_ai.py:42 | the weekday feature lies in 0..6 and is the position of the date's English weekday name |
| `Forecasting.WeekdayFeatureWeekly` | foodwaste_demo_ai.py:42 | the weekday feature repeats every seven days |
| `Forecasting.LabelAgreesWithFeature` | foodwaste_demo_ai.py:63 | a row labelled in either language translates to the German name at its weekday feature |
| `Forecasting.TomorrowFeatures` | foodwaste_demo_ai.py:117-123 | tomorrow's features are those of any history row that has the same day data |
| `Forecasting.TrainingSet` | foodwaste_demo_ai.py:89-92 | there is one training pair per history row, and pair i holds row i's features (as a pending day) and its sales |
| `Forecasting.RowFeatures` | foodwaste_demo_ai.py:37-43 | definition: a row's five features; characterised by `Forecasting.TomorrowFeatures` and `Forecasting.TrainingSet` |
| `Forecasting.WeatherClasses` | foodwaste_demo_ai.py:38 | definition: the weather conditions present in the rows; characterised by `Forecasting.Forecaster.FitEncoders` |
| `Forecasting.DayTypeClasses` | foodwaste_demo_ai.py:39 | definition: the day types present in the rows; characterised by `Forecasting.Forecaster.FitEncoders` |
| `Forecasting.RowsAt` | foodwaste_demo_ai.py:133 | `iloc` succeeds exactly when every position is in range, and then gives the row at each position |
| `Forecasting.RowsAtGrownHistory` | foodwaste_demo_ai.py:130-133 | neighbour positions from a model trained on a shorter history pick the same rows from the grown history |
| `Forecasting.LearnedOutcome` | foodwaste_demo_ai.py:117-141 | a learned forecast fails exactly on an unseen category or an out-of-range neighbour; otherwise it carries the predicted value, the model info and the neighbours' rows or none |
| `Forecasting.Forecaster.constructor` | foodwaste_demo_ai.py:11-15 | at import no model is cached and the encoders know no classes |
| `Forecasting.Forecaster.FitEncoders` | foodwaste_demo_ai.py:37-39 | both encoders learn exactly the classes present in the rows, and the model caches are kept |
| `Forecasting.Forecaster.TrainKnn` | foodwaste_demo_ai.py:83-95 | the KNN cache holds the model fitted on the history's training set, the XGBoost cache is kept |
| `Forecasting.Forecaster.TrainXgb` | foodwaste_demo_ai.py:145-157 | the XGBoost cache holds the model fitted on the history's training set, the KNN cache is kept |
| `Forecasting.Forecaster.KnnPrediction` | foodwaste_demo_ai.py:97-141 | a cached model is reused with the encoders unchanged, a missing one is trained first; the forecast and the neighbours' rows come from the cached model fed tomorrow's features encoded by the encoders as they are now |
| `Forecasting.Forecaster.XgbPrediction` | foodwaste_demo_ai.py:159-195 | a cached model is reused with the encoders unchanged, a missing one is trained first; the forecast comes from the cached model fed tomorrow's features encoded by the current encoders, and carries "modelInfoXGB" and no reference days |
| `Forecasting.Forecaster.PredictWith` | foodwaste_demo_ai.py:199-208 | the heuristic, KNN or XGBoost outcome for the matching localized name; the heuristic and any other name (bare zero) leave the forecaster unchanged; a learned strategy reuses its cached model and the encoders as they are, or, with no cached model, fits the model on this history's training set and refits both encoders on it; the other cache is kept |
| `Forecasting.Forecaster.XgbThenKnn` | foodwaste_demo_ai.py:38-39 | with a KNN model cached and none for XGBoost, the first XGBoost forecast refits the shared encoders on the current history, and the next KNN forecast feeds the older cached KNN model codes from those refitted encoders |
| `Forecasting.Forecaster.Encodable` | foodwaste_demo_ai.py:120-122 | definition: tomorrow's weather and day type are known to the encoders; characterised by `Forecasting.LearnedOutcome` |
| `Forecasting.StrategyFor` | foodwaste_demo_ai.py:199-208 | each localized model name selects its own strategy, in both directions, and any other name none |
| `Forecasting.DefaultModelIsHeuristic` | foodwaste_demo.py:34-35 | the default model name selects the heuristic |
| `Session.Profit` | foodwaste_demo.py:245-248 | definition: revenue of the cakes sold minus the cost of the order; characterised by `Session.ProfitOfOrder` and `Session.BestOrderIsDemand` |
| `Session.ProfitOfOrder` | foodwaste_demo.py:245-248 | the day's budget change is 3 min(order, sales) - 2 order |
| `Session.BestOrderIsDemand` | foodwaste_demo.py:245-248 | ordering exactly the demand earns one euro per cake, and any other order earns strictly less |
| `Session.Classify` | foodwaste_demo.py:330-339 | each of the five feedback boxes is shown exactly when its threshold test is the first that fires |
| `Session.FeedbackFollowsOrder` | foodwaste_demo.py:330-339 | "too many" only follows an order above the sales, "too few" one below, and an order within 5% of the sales is well done |
| `Session.FeedbackIsTranslated` | foodwaste_demo.py:330-339 | the key of every feedback box has a stored text in German and in English |
| `Session.TruncateTowardZero` | foodwaste_demo.py:263 | `int(x)` is the whole number next to x toward zero |
| `Session.StoredPrediction` | foodwaste_demo.py:262-264 | a prediction is stored exactly when the outcome is a forecast with a number, and then truncated |
| `Session.HeuristicStoresPlausibleOrder` | foodwaste_demo.py:262-263 | a stored heuristic prediction lies between 0 and the largest sales in the history |
| `Session.GeneratedHistoryFits` | foodwaste_demo.py:54-59 | a generated history of at least one day is a valid history dated from its start |
| `Session.TomorrowFits` | foodwaste_demo.py:62-63 | the generated tomorrow is the pending day after a valid history |
| `Session.NextPendingDay` | foodwaste_demo.py:251 | regenerating tomorrow after a valid history gives the computed next day, pending after the history |
| `Session.ClosingKeepsHistoryValid` | foodwaste_demo.py:236-242 | a valid history extended by its pending day, resolved with any order, stays valid |
| `Session.Session.constructor` | foodwaste_demo.py:19-63 | the start state: the generated history in German, its tomorrow, budget 2000, prediction 0, no explanation, no summary |
| `Session.Session.SelectLanguage` | foodwaste_demo.py:74 | choosing a language changes only the language |
| `Session.Session.EndDay` | foodwaste_demo.py:229-257 | the history grows by the resolved day; the budget changes by the day's profit; tomorrow is regenerated from the grown history; the summary is recorded; the prediction is reset; the session stays valid |
| `Session.Session.CloseDay` | foodwaste_demo.py:231-248 | the resolved day is appended, with the budget and summary updated, and the history stays valid |
| `Session.Session.StartNextDay` | foodwaste_demo.py:251-256 | the next day becomes tomorrow, the prediction is reset, nothing else changes, and the session stays valid |
| `Session.Session.RequestPrediction` | foodwaste_demo.py:261-265 | the outcome is the selected strategy's, with the same effect on the forecaster as `Forecasting.Forecaster.PredictWith` (unchanged for the heuristic and unknown names, trained and encoders refitted only when the learned model is missing); a numeric forecast is stored truncated with its explanation, otherwise the stored forecast is kept; history, tomorrow and budget never change |
| `Session.Session.KeepPrediction` | foodwaste_demo.py:263-264 | a numeric outcome replaces the stored prediction (truncated) and explanation, any other outcome keeps them; nothing else changes |
| `Session.Session.LastFeedback` | foodwaste_demo.py:329-339 | there is feedback exactly when a day has been closed, and it is the classification of that day's result |

## Left out

- The Streamlit page is left out as presentation: layout, sidebar toggles, charts, the history table, info texts, the explanation tile and `st.rerun`.
- Holiday data of the `holidays` library (Germany, Berlin) is foreign data. The calendar is a parameter, and the "New Year's Day" boost fires only if the calendar uses that English name (`NewYearBoostNeedsEnglishName`). Which name the library gives January 1 depends on its language setting, which is not part of this model; if it is the German "Neujahr", the boost never fires.
- numpy's generator and seed 42 are left out. Every draw is a `DayDraws` parameter restricted to the range numpy guarantees, so the concrete sequence the seed yields is not reproduced.
- The seasonal baseline `int(10 + 10 sin(...))` is a 12-entry table parameter. Floating-point rounding of the sales factors is not modelled: the multipliers are exact reals.
- The KNN and XGBoost regressors, `LabelEncoder`'s integer codes and the sine weekday feature are library internals. A fitted model is an abstract value from a `fit` parameter, and an encoder is the set of classes it was fitted on. Prediction and neighbour lookup are function parameters that receive the model, the encoders' classes at prediction time and tomorrow's raw features. So a cached model can be fed codes from encoders refitted since its training, as `XgbThenKnn` shows; the concrete code shift this causes is not modelled.
- pandas plumbing is modelled as sequences of records:
  - DataFrame construction and `concat`;
  - `to_dict`;
  - the frame index;
  - `train_xgb_model` adding encoded columns to the caller's frame in place.
- Python's `datetime` is modelled as day numbers counted from 1970-01-01.
- `sort_values(by="date")` is not guaranteed stable. `SortByDate` keeps rows with equal dates in input order, which matters only if two rows shared a date (a generated history has none).
- Forecasting.Forecaster.KnnPrediction: never yields `Failed` for a KNN model fitted on fewer than four rows. There scikit-learn's neighbour search, and with it the prediction, raises; the `predict` and `neighbours` parameters are total, so this failure is not modelled. A history the interface generates has three years of rows.
- The translation table holds only the entries the logic relies on:
  - the weekday names;
  - the model names;
  - the event labels;
  - the feedback texts.
  
  The other interface strings are out of the model. That the feedback texts are non-empty is not proved.
- The model selectbox is a parameter of `RequestPrediction`. Its coupling to the language radio across reruns is left out.
- The warm-up order `sales + randint(-3, 3)` can be negative on a closing day among the first eight. This is modelled as written, without a non-negativity claim.
- Session.Session.EndDay: the ordered amount is required to be non-negative, as the number input's minimum of 0 guarantees. Orders from other sources are not modelled.
- The unpacking of the dispatcher's bare `0` raises, and so does `int` of a NaN mean. These are modelled as "nothing stored", and the error page itself is out of the model.
