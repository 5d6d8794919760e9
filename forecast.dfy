/**
 * The forecasting strategies behind the "AI help" button: the weekday
 * heuristic, the two learned regressors with their lazily trained module-level
 * cache, and the dispatcher that picks a strategy by its localized name.
 *
 * The regressors themselves (k nearest neighbours and gradient boosting) are
 * library code; here a regressor is whatever `fit` returns, and its
 * predictions and neighbour positions are given functions of the fitted model,
 * the classes the shared label encoders hold at prediction time (which fix
 * the integer codes tomorrow's weather and day type get) and tomorrow's
 * features.  A cached model may thus be fed codes from encoders refitted,
 * by the other strategy's training, after it was itself trained.
 */
module Forecasting {

  import opened Wrappers
  import opened Dates
  import opened Localization
  import opened SyntheticData

  // ---------------------------------------------------------------- results

  /** What a forecast shows besides its number: the text key describing the model and, where it has them, the reference days. */
  datatype Explanation = Explanation(modelInfo: string, referenceDays: Option<seq<Record>>)

  /** Why a learned strategy raised instead of forecasting. */
  datatype Failure =
    | UnseenCategory       // the label encoders were never fitted on tomorrow's weather or day type
    | NeighbourOutOfRange  // a neighbour position lies beyond the rows handed in

  /**
   * What asking for a forecast yields: a value and its explanation (a value
   * of None is the NaN mean of no rows), the dispatcher's bare `0` for an
   * unknown model name, or a raised error.
   */
  datatype Outcome =
    | Forecast(value: Option<real>, explanation: Explanation)
    | Zero
    | Failed(failure: Failure)

  // ---------------------------------------------------------------- heuristic

  /** How many of the latest same-weekday rows the heuristic averages. */
  const HeuristicDays: nat := 4

  /** The rows whose weekday label is `name` (the boolean mask on `dayofweek`). */
  function SameWeekday(data: seq<Record>, name: string): (r: seq<Record>)
    ensures forall x :: multiset(r)[x] == if x.dayOfWeek == name then multiset(data)[x] else 0
    ensures forall x :: x in r ==> x in data && x.dayOfWeek == name
  {
    if |data| == 0 then []
    else
      assert data == [data[0]] + data[1..];
      (if data[0].dayOfWeek == name then [data[0]] else []) + SameWeekday(data[1..], name)
  }

  predicate SortedByDate(s: seq<Record>) {
    forall i, j :: 0 <= i < j < |s| ==> s[i].date <= s[j].date
  }

  /** `x` placed into the date-sorted `s` before the first row that is not earlier. */
  function Insert(x: Record, s: seq<Record>): (r: seq<Record>)
    requires SortedByDate(s)
    ensures |r| == |s| + 1 && (r[0] == x || (|s| > 0 && r[0] == s[0]))
    ensures SortedByDate(r) && multiset(r) == multiset(s) + multiset{x}
  {
    if |s| == 0 then [x]
    else if x.date <= s[0].date then [x] + s
    else
      assert s == [s[0]] + s[1..];
      [s[0]] + Insert(x, s[1..])
  }

  /** `sort_values(by="date")`: the rows in ascending date order. */
  function SortByDate(s: seq<Record>): (r: seq<Record>)
    ensures SortedByDate(r) && multiset(r) == multiset(s)
  {
    if |s| == 0 then []
    else
      assert s == [s[0]] + s[1..];
      Insert(s[0], SortByDate(s[1..]))
  }

  /** Sorting neither adds nor drops a row. */
  lemma SortKeepsRows(s: seq<Record>)
    ensures forall x :: x in SortByDate(s) <==> x in s
  {
    var r := SortByDate(s);
    assert forall x :: x in r <==> x in multiset(r);
    assert forall x :: x in s <==> x in multiset(s);
  }

  /** In a date-sorted sequence every row before a cut is no later than every row after it. */
  lemma SortedCut(s: seq<Record>, cut: int)
    requires SortedByDate(s) && 0 <= cut <= |s|
    ensures forall x, y :: x in s[..cut] && y in s[cut..] ==> x.date <= y.date
  {
    forall x, y | x in s[..cut] && y in s[cut..] ensures x.date <= y.date {
      var i :| 0 <= i < cut && s[i] == x;
      var j :| cut <= j < |s| && s[j] == y;
    }
  }

  /** `tail(k)`: the last `k` rows, or all of them when there are fewer. */
  function Latest(s: seq<Record>, k: nat): (r: seq<Record>)
    ensures |r| == Min(k, |s|) && r == s[|s| - |r|..]
    ensures SortedByDate(s) ==> SortedByDate(r)
    ensures forall x :: x in r ==> x in s
  {
    s[|s| - Min(k, |s|)..]
  }

  function SalesTotal(s: seq<Record>): int {
    if |s| == 0 then 0 else SalesTotal(s[..|s| - 1]) + s[|s| - 1].sales
  }

  /** The mean of the rows' sales; pandas' mean of no rows is NaN, here None. */
  function MeanSales(s: seq<Record>): (m: Option<real>)
    ensures m.Some? <==> |s| > 0
    ensures m.Some? ==> m.value * |s| as real == SalesTotal(s) as real
  {
    if |s| == 0 then None else Some(SalesTotal(s) as real / |s| as real)
  }

  /** The label the heuristic compares with: tomorrow's weekday name translated to German. */
  function HeuristicLabel(tomorrow: Tomorrow): string {
    Localize(tomorrow.dayOfWeek, "Deutsch")
  }

  /** The heuristic's reference days: the latest rows, by date, with tomorrow's German weekday label. */
  function ReferenceDays(data: seq<Record>, tomorrow: Tomorrow): seq<Record> {
    Latest(SortByDate(SameWeekday(data, HeuristicLabel(tomorrow))), HeuristicDays)
  }

  /**
   * `get_heuristic_prediction`: the mean sales of the reference days,
   * explained by "modelInfoHeuristic" and the reference days themselves.
   */
  function Heuristic(data: seq<Record>, tomorrow: Tomorrow): (o: Outcome)
    ensures o.Forecast? && o.explanation.modelInfo == "modelInfoHeuristic"
    ensures o.explanation.referenceDays.Some?
    ensures var days := o.explanation.referenceDays.value;
      && |days| <= HeuristicDays
      && SortedByDate(days)
      && (forall x :: x in days ==> x in data && x.dayOfWeek == HeuristicLabel(tomorrow))
      && o.value == MeanSales(days)
  {
    var days := ReferenceDays(data, tomorrow);
    SortKeepsRows(SameWeekday(data, HeuristicLabel(tomorrow)));
    Forecast(MeanSales(days), Explanation("modelInfoHeuristic", Some(days)))
  }

  /**
   * The reference days are the latest matching rows: as many as four of them
   * or all there are, and every matching row left out is no later than each
   * reference day.
   */
  lemma {:induction false} HeuristicTakesLatest(data: seq<Record>, tomorrow: Tomorrow)
    ensures var matching := SameWeekday(data, HeuristicLabel(tomorrow));
            var days := ReferenceDays(data, tomorrow);
      && |days| == Min(HeuristicDays, |matching|)
      && multiset(days) <= multiset(matching)
      && forall x: Record, y: Record :: x in multiset(matching) - multiset(days) && y in days ==> x.date <= y.date
  {
    var matching := SameWeekday(data, HeuristicLabel(tomorrow));
    var sorted := SortByDate(matching);
    var days := ReferenceDays(data, tomorrow);
    var cut := |sorted| - |days|;
    assert sorted == sorted[..cut] + days;
    assert multiset(matching) == multiset(sorted[..cut]) + multiset(days);
    SortedCut(sorted, cut);
    assert days == sorted[cut..];
  }

  /** The sales total of rows whose sales lie in [low, high] lies between the row count times each bound. */
  lemma {:induction false} SalesTotalBounds(s: seq<Record>, low: int, high: int)
    requires forall x :: x in s ==> low <= x.sales <= high
    ensures |s| * low <= SalesTotal(s) <= |s| * high
  {
    if |s| > 0 {
      assert forall x :: x in s[..|s| - 1] ==> x in s;
      SalesTotalBounds(s[..|s| - 1], low, high);
      assert s[|s| - 1] in s;
    }
  }

  /** The mean lies between the smallest and the largest sales figure of the rows it averages. */
  lemma MeanWithinBounds(s: seq<Record>, low: int, high: int)
    requires forall x :: x in s ==> low <= x.sales <= high
    ensures MeanSales(s).Some? ==> low as real <= MeanSales(s).value <= high as real
  {
    if |s| > 0 {
      SalesTotalBounds(s, low, high);
      var n := |s| as real;
      var mean := MeanSales(s).value;
      DivideBounds(mean, n, low as real, high as real);
    }
  }

  /** Bounds on a product with a positive factor carry over to the other factor. */
  lemma DivideBounds(x: real, n: real, low: real, high: real)
    requires n > 0.0 && n * low <= x * n <= n * high
    ensures low <= x <= high
  {
    assert (x - low) * n == x * n - n * low;
    assert (high - x) * n == n * high - x * n;
  }

  /** A heuristic forecast lies within the range of the sales in the history it averages. */
  lemma HeuristicWithinReferenceSales(data: seq<Record>, tomorrow: Tomorrow, low: int, high: int)
    requires forall x :: x in data ==> low <= x.sales <= high
    ensures var o := Heuristic(data, tomorrow);
            o.value.Some? ==> low as real <= o.value.value <= high as real
  {
    MeanWithinBounds(Heuristic(data, tomorrow).explanation.referenceDays.value, low, high);
  }

  /** The heuristic reads tomorrow's weekday label and nothing else of tomorrow: not its sales, weather or date. */
  lemma HeuristicReadsOnlyWeekday(data: seq<Record>, t1: Tomorrow, t2: Tomorrow)
    requires t1.dayOfWeek == t2.dayOfWeek
    ensures Heuristic(data, t1) == Heuristic(data, t2)
  {
  }

  /**
   * Whether tomorrow is labelled in English or in German, the heuristic
   * compares with the German name of its weekday, so rows labelled with an
   * English weekday name are never reference days.
   */
  lemma HeuristicMatchesGermanNames(data: seq<Record>, tomorrow: Tomorrow, w: int)
    requires 0 <= w < 7
    requires tomorrow.dayOfWeek == EnglishDayNames[w] || tomorrow.dayOfWeek == GermanDayNames[w]
    ensures HeuristicLabel(tomorrow) == GermanDayNames[w]
    ensures forall x :: x in ReferenceDays(data, tomorrow) ==> x.dayOfWeek !in EnglishDayNames
  {
    EnglishWeekdayNames(w);
    GermanWeekdayNames(w);
    assert GermanDayNames[w] !in EnglishDayNames;
    var sorted := SortByDate(SameWeekday(data, HeuristicLabel(tomorrow)));
    forall x | x in ReferenceDays(data, tomorrow) ensures x.dayOfWeek == GermanDayNames[w] {
      assert x in sorted;
      assert multiset(sorted)[x] > 0;
    }
  }

  // ---------------------------------------------------------------- features

  /** The weekday feature `dayofweek_num`: pandas' weekday number of the date, Monday = 0, the position of its English name. */
  function WeekdayFeature(d: Date): (n: nat)
    ensures n < 7 && EnglishDayNames[n] == DayName(d)
  {
    Weekday(d)
  }

  /** The weekday feature repeats every seven days. */
  lemma {:induction false} WeekdayFeatureWeekly(d: Date, weeks: int)
    ensures WeekdayFeature(d + 7 * weeks) == WeekdayFeature(d)
  {
    assert (d + 7 * weeks + 3) % 7 == (d + 3) % 7;
  }

  /**
   * The heuristic and the learned models agree on a row's weekday: a row
   * labelled in either language carries, translated to German, the name of
   * the weekday its feature numbers.
   */
  lemma LabelAgreesWithFeature(d: Date, lang: string)
    requires lang == "Deutsch" || lang == "English"
    ensures Localize(Localize(DayName(d), lang), "Deutsch") == GermanDayNames[WeekdayFeature(d)]
  {
    var w := WeekdayFeature(d);
    EnglishWeekdayNames(w);
    GermanWeekdayNames(w);
  }

  /**
   * The inputs of the learned models before the categorical columns are
   * encoded: the weekday number, the weather, the temperature and the day type.
   */
  datatype Features = Features(weekday: nat, weather: Weather, temperature: int, dayType: string)

  /** A history row's features (`preprocess_data`). */
  function RowFeatures(r: Record): Features {
    Features(WeekdayFeature(r.date), r.weather, r.temperature, r.dayType)
  }

  /** Tomorrow's features (`tomorrow_processed`), computed by the same rule as the rows'. */
  function TomorrowFeatures(t: Tomorrow): (f: Features)
    ensures forall r :: Pending(r) == t ==> f == RowFeatures(r)
  {
    Features(WeekdayFeature(t.date), t.weather, t.temperature, t.dayType)
  }

  /** The training pairs: each row's features with its sales. */
  function TrainingSet(data: seq<Record>): (pairs: seq<(Features, int)>)
    ensures |pairs| == |data|
    ensures forall i :: 0 <= i < |data| ==> pairs[i] == (TomorrowFeatures(Pending(data[i])), data[i].sales)
  {
    seq(|data|, i requires 0 <= i < |data| => (RowFeatures(data[i]), data[i].sales))
  }

  /** The classes a label encoder learns from a column: the values present. */
  function WeatherClasses(data: seq<Record>): set<Weather> {
    set r | r in data :: r.weather
  }

  function DayTypeClasses(data: seq<Record>): set<string> {
    set r | r in data :: r.dayType
  }

  /** The rows at the given positions (`iloc`), or None when a position lies beyond the rows. */
  function RowsAt(data: seq<Record>, positions: seq<nat>): (rows: Option<seq<Record>>)
    ensures rows.Some? <==> forall i :: 0 <= i < |positions| ==> positions[i] < |data|
    ensures rows.Some? ==> (|rows.value| == |positions|
      && forall i :: 0 <= i < |positions| ==> rows.value[i] == data[positions[i]])
  {
    if forall i :: 0 <= i < |positions| ==> positions[i] < |data| then
      Some(seq(|positions|, i requires 0 <= i < |positions| => data[positions[i]]))
    else None
  }

  /**
   * Neighbour positions found in the rows a cached model was trained on still
   * name the same rows after the history has grown by appending.
   */
  lemma RowsAtGrownHistory(trained: seq<Record>, data: seq<Record>, positions: seq<nat>)
    requires trained <= data
    requires forall i :: 0 <= i < |positions| ==> positions[i] < |trained|
    ensures RowsAt(data, positions) == RowsAt(trained, positions)
  {
    var a := RowsAt(data, positions).value;
    var b := RowsAt(trained, positions).value;
    assert a == b;
  }

  // ---------------------------------------------------------------- learned models

  /**
   * A learned strategy's answer from a fitted model: an error when the
   * encoders were not fitted on tomorrow's weather or day type, otherwise the
   * model's prediction, explained by `info` and, when `positions` is given,
   * the rows at those positions (an error if one lies beyond the rows).
   */
  function LearnedOutcome(encodable: bool, data: seq<Record>, value: real, info: string,
                          positions: Option<seq<nat>>): (o: Outcome)
    ensures o.Failed? <==> !encodable || (positions.Some? && RowsAt(data, positions.value).None?)
    ensures o.Forecast? ==> o.value == Some(value) && o.explanation.modelInfo == info
    ensures o.Forecast? && positions.None? ==> o.explanation.referenceDays == None
    ensures o.Forecast? && positions.Some? ==> o.explanation.referenceDays == RowsAt(data, positions.value)
  {
    if !encodable then Failed(UnseenCategory)
    else if positions.None? then Forecast(Some(value), Explanation(info, None))
    else match RowsAt(data, positions.value)
      case None => Failed(NeighbourOutOfRange)
      case Some(rows) => Forecast(Some(value), Explanation(info, Some(rows)))
  }

  /**
   * The module-level state of the learned strategies: the cached KNN and
   * XGBoost models, None until first used, and the classes the two shared
   * label encoders were last fitted on.  `M` is the fitted regressor.
   */
  class Forecaster<M> {
    var knnModel: Option<M>
    var xgbModel: Option<M>
    var weatherClasses: set<Weather>
    var dayTypeClasses: set<string>

    /** The state at import: no model trained, the encoders not fitted. */
    constructor()
      ensures knnModel == None && xgbModel == None
      ensures weatherClasses == {} && dayTypeClasses == {}
    {
      knnModel := None;
      xgbModel := None;
      weatherClasses := {};
      dayTypeClasses := {};
    }

    /** Whether the encoders can transform tomorrow's weather and day type. */
    predicate Encodable(t: Tomorrow)
      reads this
    {
      t.weather in weatherClasses && t.dayType in dayTypeClasses
    }

    /** `preprocess_data`'s encoder fitting: both encoders learn the classes present in the rows. */
    method FitEncoders(data: seq<Record>)
      modifies this
      ensures weatherClasses == WeatherClasses(data) && dayTypeClasses == DayTypeClasses(data)
      ensures knnModel == old(knnModel) && xgbModel == old(xgbModel)
    {
      weatherClasses := WeatherClasses(data);
      dayTypeClasses := DayTypeClasses(data);
    }

    /** `train_knn_model`: fits the encoders and stores a freshly fitted KNN model. */
    method TrainKnn(data: seq<Record>, fit: seq<(Features, int)> -> M)
      modifies this
      ensures knnModel == Some(fit(TrainingSet(data))) && xgbModel == old(xgbModel)
      ensures weatherClasses == WeatherClasses(data) && dayTypeClasses == DayTypeClasses(data)
    {
      FitEncoders(data);
      knnModel := Some(fit(TrainingSet(data)));
    }

    /** `train_xgb_model`: fits the encoders and stores a freshly fitted XGBoost model. */
    method TrainXgb(data: seq<Record>, fit: seq<(Features, int)> -> M)
      modifies this
      ensures xgbModel == Some(fit(TrainingSet(data))) && knnModel == old(knnModel)
      ensures weatherClasses == WeatherClasses(data) && dayTypeClasses == DayTypeClasses(data)
    {
      FitEncoders(data);
      xgbModel := Some(fit(TrainingSet(data)));
    }

    /**
     * `get_knn_prediction`: trains the KNN model only when none is cached,
     * then predicts and looks up the neighbours' rows.  A cached model and
     * the encoders are left as they are; the XGBoost cache is untouched.
     */
    method KnnPrediction(data: seq<Record>, t: Tomorrow, fit: seq<(Features, int)> -> M,
                         predict: (M, set<Weather>, set<string>, Features) -> real,
                         neighbours: (M, set<Weather>, set<string>, Features) -> seq<nat>)
      returns (o: Outcome)
      modifies this
      ensures old(knnModel).Some? ==> (knnModel == old(knnModel)
        && weatherClasses == old(weatherClasses) && dayTypeClasses == old(dayTypeClasses))
      ensures old(knnModel).None? ==> (knnModel == Some(fit(TrainingSet(data)))
        && weatherClasses == WeatherClasses(data) && dayTypeClasses == DayTypeClasses(data))
      ensures xgbModel == old(xgbModel) && knnModel.Some?
      ensures o == LearnedOutcome(Encodable(t), data,
                                  predict(knnModel.value, weatherClasses, dayTypeClasses, TomorrowFeatures(t)),
                                  "modelInfoKNN",
                                  Some(neighbours(knnModel.value, weatherClasses, dayTypeClasses, TomorrowFeatures(t))))
    {
      if knnModel == None {
        TrainKnn(data, fit);
      }
      var model := knnModel.value;
      var features := TomorrowFeatures(t);
      if !Encodable(t) {
        return Failed(UnseenCategory);
      }
      var value := predict(model, weatherClasses, dayTypeClasses, features);
      var rows := RowsAt(data, neighbours(model, weatherClasses, dayTypeClasses, features));
      if rows.None? {
        return Failed(NeighbourOutOfRange);
      }
      o := Forecast(Some(value), Explanation("modelInfoKNN", rows));
    }

    /**
     * `get_xgb_prediction`: trains the XGBoost model only when none is
     * cached, then predicts; its explanation names the model and has no
     * reference days.  The KNN cache is untouched.
     */
    method XgbPrediction(data: seq<Record>, t: Tomorrow, fit: seq<(Features, int)> -> M,
                         predict: (M, set<Weather>, set<string>, Features) -> real)
      returns (o: Outcome)
      modifies this
      ensures old(xgbModel).Some? ==> (xgbModel == old(xgbModel)
        && weatherClasses == old(weatherClasses) && dayTypeClasses == old(dayTypeClasses))
      ensures old(xgbModel).None? ==> (xgbModel == Some(fit(TrainingSet(data)))
        && weatherClasses == WeatherClasses(data) && dayTypeClasses == DayTypeClasses(data))
      ensures knnModel == old(knnModel) && xgbModel.Some?
      ensures o == LearnedOutcome(Encodable(t), data,
                                  predict(xgbModel.value, weatherClasses, dayTypeClasses, TomorrowFeatures(t)),
                                  "modelInfoXGB", None)
    {
      if xgbModel == None {
        TrainXgb(data, fit);
      }
      var model := xgbModel.value;
      if !Encodable(t) {
        return Failed(UnseenCategory);
      }
      var value := predict(model, weatherClasses, dayTypeClasses, TomorrowFeatures(t));
      o := Forecast(Some(value), Explanation("modelInfoXGB", None));
    }

    /**
     * `predict_tomorrow_sales_with`: the strategy whose localized name the
     * model name equals, or the bare zero for any other name.
     */
    method PredictWith(data: seq<Record>, t: Tomorrow, model: string, lang: string,
                       fitKnn: seq<(Features, int)> -> M,
                       predictKnn: (M, set<Weather>, set<string>, Features) -> real,
                       neighbours: (M, set<Weather>, set<string>, Features) -> seq<nat>,
                       fitXgb: seq<(Features, int)> -> M,
                       predictXgb: (M, set<Weather>, set<string>, Features) -> real)
      returns (o: Outcome)
      modifies this
      ensures StrategyFor(model, lang) == Some(HeuristicStrategy) ==> o == Heuristic(data, t) && unchanged(this)
      ensures StrategyFor(model, lang) == None ==> o == Zero && unchanged(this)
      ensures StrategyFor(model, lang) == Some(KnnStrategy) ==>
        && xgbModel == old(xgbModel) && knnModel.Some?
        && (old(knnModel).Some? ==>
              knnModel == old(knnModel) && weatherClasses == old(weatherClasses) && dayTypeClasses == old(dayTypeClasses))
        && (old(knnModel).None? ==>
              knnModel == Some(fitKnn(TrainingSet(data))) && weatherClasses == WeatherClasses(data)
              && dayTypeClasses == DayTypeClasses(data))
        && o == LearnedOutcome(Encodable(t), data,
                               predictKnn(knnModel.value, weatherClasses, dayTypeClasses, TomorrowFeatures(t)),
                               "modelInfoKNN",
                               Some(neighbours(knnModel.value, weatherClasses, dayTypeClasses, TomorrowFeatures(t))))
      ensures StrategyFor(model, lang) == Some(XgbStrategy) ==>
        && knnModel == old(knnModel) && xgbModel.Some?
        && (old(xgbModel).Some? ==>
              xgbModel == old(xgbModel) && weatherClasses == old(weatherClasses) && dayTypeClasses == old(dayTypeClasses))
        && (old(xgbModel).None? ==>
              xgbModel == Some(fitXgb(TrainingSet(data))) && weatherClasses == WeatherClasses(data)
              && dayTypeClasses == DayTypeClasses(data))
        && o == LearnedOutcome(Encodable(t), data,
                               predictXgb(xgbModel.value, weatherClasses, dayTypeClasses, TomorrowFeatures(t)),
                               "modelInfoXGB", None)
    {
      if model == Localize("modelHeu", lang) {
        o := Heuristic(data, t);
      } else if model == Localize("modelKNN", lang) {
        o := KnnPrediction(data, t, fitKnn, predictKnn, neighbours);
      } else if model == Localize("modelXGB", lang) {
        o := XgbPrediction(data, t, fitXgb, predictXgb);
      } else {
        o := Zero;
      }
    }

    /**
     * The encoders are shared: with a KNN model cached and no XGBoost model
     * yet, a first XGBoost forecast refits both encoders on the current
     * history, and the following KNN forecast feeds the older cached model
     * the codes of those refitted encoders, whatever it was trained with.
     */
    method XgbThenKnn(data: seq<Record>, t: Tomorrow,
                      fitKnn: seq<(Features, int)> -> M,
                      predictKnn: (M, set<Weather>, set<string>, Features) -> real,
                      neighbours: (M, set<Weather>, set<string>, Features) -> seq<nat>,
                      fitXgb: seq<(Features, int)> -> M,
                      predictXgb: (M, set<Weather>, set<string>, Features) -> real)
      returns (first: Outcome, second: Outcome)
      requires knnModel.Some? && xgbModel.None?
      modifies this
      ensures knnModel == old(knnModel) && xgbModel == Some(fitXgb(TrainingSet(data)))
      ensures weatherClasses == WeatherClasses(data) && dayTypeClasses == DayTypeClasses(data)
      ensures first == LearnedOutcome(Encodable(t), data,
                                      predictXgb(xgbModel.value, WeatherClasses(data), DayTypeClasses(data),
                                                 TomorrowFeatures(t)),
                                      "modelInfoXGB", None)
      ensures second == LearnedOutcome(Encodable(t), data,
                                       predictKnn(old(knnModel).value, WeatherClasses(data), DayTypeClasses(data),
                                                  TomorrowFeatures(t)),
                                       "modelInfoKNN",
                                       Some(neighbours(old(knnModel).value, WeatherClasses(data),
                                                       DayTypeClasses(data), TomorrowFeatures(t))))
    {
      first := XgbPrediction(data, t, fitXgb, predictXgb);
      second := KnnPrediction(data, t, fitKnn, predictKnn, neighbours);
    }
  }

  // ---------------------------------------------------------------- dispatch

  datatype Strategy = HeuristicStrategy | KnnStrategy | XgbStrategy

  /**
   * The strategy a model name selects in `lang`: each of the three localized
   * model names selects its own strategy, and any other name none.
   */
  function StrategyFor(model: string, lang: string): (s: Option<Strategy>)
    ensures s == Some(HeuristicStrategy) <==> model == Localize("modelHeu", lang)
    ensures s == Some(KnnStrategy) <==> model == Localize("modelKNN", lang)
    ensures s == Some(XgbStrategy) <==> model == Localize("modelXGB", lang)
  {
    ModelNamesDistinct(lang);
    if model == Localize("modelHeu", lang) then Some(HeuristicStrategy)
    else if model == Localize("modelKNN", lang) then Some(KnnStrategy)
    else if model == Localize("modelXGB", lang) then Some(XgbStrategy)
    else None
  }

  /** The model the session starts with, the localized heuristic name, selects the heuristic. */
  lemma DefaultModelIsHeuristic(lang: string)
    ensures StrategyFor(Localize("modelHeu", lang), lang) == Some(HeuristicStrategy)
  {
  }
}
