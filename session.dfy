/**
 * The ordering game's session: the history table, tomorrow's pending day,
 * the budget and the stored forecast, with the end-of-day transition, the
 * forecast request and the feedback on the closed day.
 */
module Session {

  import opened Wrappers
  import opened Dates
  import opened Localization
  import opened SyntheticData
  import opened Forecasting

  // ---------------------------------------------------------------- money

  /** The budget a session starts with, in euros. */
  const InitialBudget: int := 2000

  /** What a cake costs when ordered and brings when sold, in euros. */
  const CakeCost: int := 2
  const CakePrice: int := 3

  /** The day's result: the price of every cake sold (ordered and not left over) less the cost of every cake ordered. */
  function Profit(order: int, leftover: int): int {
    CakePrice * (order - leftover) - CakeCost * order
  }

  /** Only the cakes both ordered and demanded are sold, so the day's result is 3 min(order, sales) - 2 order. */
  lemma ProfitOfOrder(order: int, sales: int)
    ensures Profit(order, Max(order - sales, 0)) == 3 * Min(order, sales) - 2 * order
  {
  }

  /** No order earns more than ordering exactly the demand, which earns one euro per cake sold. */
  lemma {:induction false} BestOrderIsDemand(order: int, sales: int)
    requires order >= 0 && sales >= 0
    ensures Profit(sales, 0) == sales
    ensures Profit(order, Max(order - sales, 0)) <= Profit(sales, 0)
    ensures order != sales ==> Profit(order, Max(order - sales, 0)) < Profit(sales, 0)
  {
    ProfitOfOrder(order, sales);
  }

  // ---------------------------------------------------------------- feedback

  datatype Severity = ErrorBox | WarningBox | SuccessBox

  /** The feedback box: its colour and the text key it shows. */
  datatype Feedback = Feedback(severity: Severity, key: string)

  /**
   * The feedback on a closed day, the first rule that fires: more than 10%
   * of the sales left over, more than 5% left over, more than 10% missed,
   * more than 5% missed, else well done.  The thresholds divide as reals.
   */
  function Classify(sales: int, leftover: int, missed: int): (f: Feedback)
    ensures f == Feedback(ErrorBox, "feedbackTooMany") <==> 10 * leftover > sales
    ensures f == Feedback(WarningBox, "feedbackTooMany") <==> 10 * leftover <= sales && 20 * leftover > sales
    ensures f == Feedback(ErrorBox, "feedbackTooFew") <==>
      10 * leftover <= sales && 20 * leftover <= sales && 10 * missed > sales
    ensures f == Feedback(WarningBox, "feedbackTooFew") <==>
      10 * leftover <= sales && 20 * leftover <= sales && 10 * missed <= sales && 20 * missed > sales
    ensures f == Feedback(SuccessBox, "feedbackJustRight") <==>
      10 * leftover <= sales && 20 * leftover <= sales && 10 * missed <= sales && 20 * missed <= sales
  {
    if leftover as real > sales as real / 10.0 then Feedback(ErrorBox, "feedbackTooMany")
    else if leftover as real > sales as real / 20.0 then Feedback(WarningBox, "feedbackTooMany")
    else if missed as real > sales as real / 10.0 then Feedback(ErrorBox, "feedbackTooFew")
    else if missed as real > sales as real / 20.0 then Feedback(WarningBox, "feedbackTooFew")
    else Feedback(SuccessBox, "feedbackJustRight")
  }

  /**
   * On a day resolved with an order, "too many" follows only an order above
   * the sales and "too few" only one below; an order within 5% of the sales
   * is well done.
   */
  lemma FeedbackFollowsOrder(order: int, sales: int)
    requires order >= 0 && sales >= 0
    ensures var f := Classify(sales, Max(order - sales, 0), Max(sales - order, 0));
      && (f.key == "feedbackTooMany" ==> order > sales)
      && (f.key == "feedbackTooFew" ==> order < sales)
      && (20 * (order - sales) <= sales && 20 * (sales - order) <= sales ==> f == Feedback(SuccessBox, "feedbackJustRight"))
  {
  }

  /** Every feedback box shows a text the table translates into both languages. */
  lemma FeedbackIsTranslated(sales: int, leftover: int, missed: int)
    ensures var texts := Entry(Classify(sales, leftover, missed).key);
            texts.Some? && texts.value.In("Deutsch").Some? && texts.value.In("English").Some?
  {
  }

  // ---------------------------------------------------------------- stored forecast

  /** `int(x)`: the real truncated toward zero. */
  function TruncateTowardZero(x: real): (n: int)
    ensures x >= 0.0 ==> n as real <= x < n as real + 1.0
    ensures x < 0.0 ==> n as real - 1.0 < x <= n as real
  {
    if x >= 0.0 then x.Floor else -((-x).Floor)
  }

  /**
   * What the session stores from a forecast: its value truncated to a whole
   * number.  Nothing is stored when the unpacking or the conversion raises:
   * the dispatcher's bare zero, a NaN mean or a raised error.
   */
  function StoredPrediction(o: Outcome): (p: Option<int>)
    ensures p.Some? <==> o.Forecast? && o.value.Some?
    ensures p.Some? ==> p.value == TruncateTowardZero(o.value.value)
  {
    if o.Forecast? && o.value.Some? then Some(TruncateTowardZero(o.value.value)) else None
  }

  /**
   * A heuristic forecast over a history whose sales lie in [0, high] is
   * stored as an order between 0 and `high`.
   */
  lemma HeuristicStoresPlausibleOrder(data: seq<Record>, t: Tomorrow, high: int)
    requires forall x :: x in data ==> 0 <= x.sales <= high
    ensures var p := StoredPrediction(Heuristic(data, t));
            p.Some? ==> 0 <= p.value <= high
  {
    HeuristicWithinReferenceSales(data, t, 0, high);
  }

  // ---------------------------------------------------------------- the session

  /** The history holds one resolved row per day from its first, each with its calendar day type. */
  predicate ValidHistory(h: seq<Record>, calendar: Calendar, baseline: seq<int>) {
    && |baseline| == 12 && |h| > 0
    && DatedRows(h, h[0].date) && TypedRows(h, calendar)
  }

  /** `t` is the day after the history, with its calendar day type and sales that are not negative. */
  predicate PendingAfter(t: Tomorrow, h: seq<Record>, calendar: Calendar) {
    && |h| > 0 && t.date == h[0].date + |h|
    && t.sales >= 0 && t.dayType == DayType(calendar, t.date)
    && (IsClosed(t.dayType) ==> t.sales == 0 && t.unexpected == "")
  }

  /** A generated history of at least one day is valid, dated from its start. */
  lemma GeneratedHistoryFits(start: Date, count: nat, lang: string, calendar: Calendar,
                             baseline: seq<int>, draws: seq<DayDraws>)
    requires |baseline| == 12 && 0 < count <= |draws| && ValidDrawSequence(draws)
    ensures var h := History(start, count, lang, calendar, baseline, draws);
            ValidHistory(h, calendar, baseline) && h[0].date == start
  {
    HistoryProperties(start, count, lang, calendar, baseline, draws);
  }

  /** The tomorrow record `generate_tomorrow` makes after a valid history is the pending next day. */
  lemma TomorrowFits(history: seq<Record>, lang: string, calendar: Calendar, baseline: seq<int>, draws: DayDraws)
    requires ValidHistory(history, calendar, baseline) && ValidDraws(draws, true)
    ensures PendingAfter(TomorrowOf(history, lang, calendar, baseline, draws), history, calendar)
  {
    assert history[|history| - 1].date == history[0].date + |history| - 1;
    DayOfProperties(history[|history| - 1].date + 1, history, lang, calendar, baseline, draws);
  }

  /** `generate_tomorrow` after a valid history: the pending next day. */
  method NextPendingDay(history: seq<Record>, lang: string, calendar: Calendar, baseline: seq<int>, draws: DayDraws)
    returns (t: Tomorrow)
    requires ValidHistory(history, calendar, baseline) && ValidDraws(draws, true)
    ensures t == TomorrowOf(history, lang, calendar, baseline, draws)
    ensures PendingAfter(t, history, calendar)
  {
    t := GenerateTomorrow(history, lang, calendar, baseline, draws);
    TomorrowFits(history, lang, calendar, baseline, draws);
  }

  /** A valid history extended by its pending day, resolved with any order, is valid. */
  lemma ClosingKeepsHistoryValid(h: seq<Record>, t: Tomorrow, order: int, calendar: Calendar, baseline: seq<int>)
    requires ValidHistory(h, calendar, baseline) && PendingAfter(t, h, calendar)
    ensures ValidHistory(h + [Resolve(t, order)], calendar, baseline)
  {
    var row := Resolve(t, order);
    ExtendDatedRows(h, row, h[0].date);
    ExtendTypedRows(h, row, calendar);
    assert (h + [row])[0] == h[0];
  }

  /** What the summary tile shows of the day just closed. */
  datatype Summary = Summary(sales: int, leftover: int, missed: int, unexpected: string)

  /** The state the interface keeps between reruns. */
  class Session {
    var history: seq<Record>
    var tomorrow: Tomorrow
    var budget: int
    var orderPrediction: int
    var explanation: Option<Explanation>
    var summary: Option<Summary>
    var language: string
    const calendar: Calendar
    const baseline: seq<int>

    /** The session invariant: a valid history and tomorrow pending after it. */
    predicate Valid()
      reads this
    {
      ValidHistory(history, calendar, baseline) && PendingAfter(tomorrow, history, calendar)
    }

    /**
     * A new session: a history generated from `start` to `end` and tomorrow
     * after it, both in the default language, the initial budget, no
     * forecast and no summary.
     */
    constructor(start: Date, end: Date, calendar: Calendar, baseline: seq<int>,
                draws: seq<DayDraws>, tomorrowDraws: DayDraws)
      requires start <= end && |baseline| == 12 && ValidDrawSequence(draws) && ValidDraws(tomorrowDraws, true)
      requires |draws| == end - start + 1
      ensures history == History(start, |draws|, DefaultLanguage, calendar, baseline, draws)
      ensures tomorrow == TomorrowOf(history, DefaultLanguage, calendar, baseline, tomorrowDraws)
      ensures budget == InitialBudget && orderPrediction == 0 && explanation == None && summary == None
      ensures language == DefaultLanguage && this.calendar == calendar && this.baseline == baseline
      ensures Valid()
    {
      var data := GenerateSyntheticData(start, end, DefaultLanguage, calendar, baseline, draws);
      GeneratedHistoryFits(start, |draws|, DefaultLanguage, calendar, baseline, draws);
      this.calendar := calendar;
      this.baseline := baseline;
      language := DefaultLanguage;
      history := data;
      budget := InitialBudget;
      summary := None;
      new;
      var next := NextPendingDay(history, language, calendar, baseline, tomorrowDraws);
      StartNextDay(next);
    }

    /** The language radio: later days are labelled and localized in `lang`. */
    method SelectLanguage(lang: string)
      requires lang == "Deutsch" || lang == "English"
      modifies this
      ensures language == lang
      ensures history == old(history) && tomorrow == old(tomorrow) && budget == old(budget)
      ensures orderPrediction == old(orderPrediction) && explanation == old(explanation) && summary == old(summary)
    {
      language := lang;
    }

    /**
     * The "end day" button: tomorrow, resolved with the ordered cakes, joins
     * the history; the budget changes by the day's profit; a new tomorrow
     * follows the extended history; the forecast is cleared.
     */
    method EndDay(ordered: int, draws: DayDraws)
      requires Valid() && ordered >= 0 && ValidDraws(draws, true)
      modifies this
      ensures history == old(history) + [Resolve(old(tomorrow), ordered)]
      ensures budget == old(budget) + Profit(ordered, Max(ordered - old(tomorrow).sales, 0))
      ensures tomorrow == TomorrowOf(history, language, calendar, baseline, draws)
      ensures summary == Some(Summary(old(tomorrow).sales, Max(ordered - old(tomorrow).sales, 0),
                                      Max(old(tomorrow).sales - ordered, 0), old(tomorrow).unexpected))
      ensures orderPrediction == 0 && explanation == None && language == old(language)
      ensures Valid()
    {
      CloseDay(ordered);
      var next := NextPendingDay(history, language, calendar, baseline, draws);
      StartNextDay(next);
    }

    /** The first half of "end day": the day is resolved into the history, the budget and the summary. */
    method CloseDay(ordered: int)
      requires Valid() && ordered >= 0
      modifies this
      ensures history == old(history) + [Resolve(old(tomorrow), ordered)]
      ensures budget == old(budget) + Profit(ordered, Max(ordered - old(tomorrow).sales, 0))
      ensures summary == Some(Summary(old(tomorrow).sales, Max(ordered - old(tomorrow).sales, 0),
                                      Max(old(tomorrow).sales - ordered, 0), old(tomorrow).unexpected))
      ensures tomorrow == old(tomorrow) && language == old(language)
      ensures orderPrediction == old(orderPrediction) && explanation == old(explanation)
      ensures ValidHistory(history, calendar, baseline)
    {
      var actualSales := tomorrow.sales;
      var leftover := Max(ordered - actualSales, 0);
      var missed := Max(actualSales - ordered, 0);
      var unexpectedEvent := tomorrow.unexpected;

      var currentDay := Record(tomorrow.date, tomorrow.dayOfWeek, ordered, actualSales, leftover, missed,
                               tomorrow.weather, tomorrow.temperature, tomorrow.dayType, unexpectedEvent);
      ResolveByFields(tomorrow, ordered, leftover, missed);
      ClosingKeepsHistoryValid(history, tomorrow, ordered, calendar, baseline);
      history := history + [currentDay];

      var costOfOrder := ordered * CakeCost;
      var cakesSold := ordered - leftover;
      var revenueFromSales := cakesSold * CakePrice;
      budget := budget + revenueFromSales - costOfOrder;
      summary := Some(Summary(actualSales, leftover, missed, unexpectedEvent));
    }

    /** The second half of "end day": the day after the history becomes tomorrow, and the forecast is cleared. */
    method StartNextDay(next: Tomorrow)
      requires ValidHistory(history, calendar, baseline) && PendingAfter(next, history, calendar)
      modifies this
      ensures tomorrow == next && orderPrediction == 0 && explanation == None
      ensures history == old(history) && language == old(language)
      ensures budget == old(budget) && summary == old(summary)
      ensures Valid()
    {
      tomorrow := next;
      orderPrediction := 0;
      explanation := None;
    }

    /**
     * The "AI help" button: asks the selected model for a forecast and, when
     * it yields a number, stores it truncated to a whole order with its
     * explanation; otherwise the stored forecast stays as it was.
     */
    method RequestPrediction<M>(forecaster: Forecaster<M>, model: string,
                                fitKnn: seq<(Features, int)> -> M,
                                predictKnn: (M, set<Weather>, set<string>, Features) -> real,
                                neighbours: (M, set<Weather>, set<string>, Features) -> seq<nat>,
                                fitXgb: seq<(Features, int)> -> M,
                                predictXgb: (M, set<Weather>, set<string>, Features) -> real)
      returns (o: Outcome)
      modifies this, forecaster
      ensures StrategyFor(model, language) == Some(HeuristicStrategy) ==> o == Heuristic(history, tomorrow)
      ensures StrategyFor(model, language) == None ==> o == Zero
      ensures StrategyFor(model, language) in {Some(HeuristicStrategy), None} ==> unchanged(forecaster)
      ensures StrategyFor(model, language) == Some(KnnStrategy) ==>
        && forecaster.xgbModel == old(forecaster.xgbModel) && forecaster.knnModel.Some?
        && (old(forecaster.knnModel).Some? ==>
              && forecaster.knnModel == old(forecaster.knnModel)
              && forecaster.weatherClasses == old(forecaster.weatherClasses)
              && forecaster.dayTypeClasses == old(forecaster.dayTypeClasses))
        && (old(forecaster.knnModel).None? ==>
              && forecaster.knnModel == Some(fitKnn(TrainingSet(history)))
              && forecaster.weatherClasses == WeatherClasses(history)
              && forecaster.dayTypeClasses == DayTypeClasses(history))
        && o == LearnedOutcome(forecaster.Encodable(tomorrow), history,
                               predictKnn(forecaster.knnModel.value, forecaster.weatherClasses, forecaster.dayTypeClasses,
                                          TomorrowFeatures(tomorrow)), "modelInfoKNN",
                               Some(neighbours(forecaster.knnModel.value, forecaster.weatherClasses, forecaster.dayTypeClasses,
                                          TomorrowFeatures(tomorrow))))
      ensures StrategyFor(model, language) == Some(XgbStrategy) ==>
        && forecaster.knnModel == old(forecaster.knnModel) && forecaster.xgbModel.Some?
        && (old(forecaster.xgbModel).Some? ==>
              && forecaster.xgbModel == old(forecaster.xgbModel)
              && forecaster.weatherClasses == old(forecaster.weatherClasses)
              && forecaster.dayTypeClasses == old(forecaster.dayTypeClasses))
        && (old(forecaster.xgbModel).None? ==>
              && forecaster.xgbModel == Some(fitXgb(TrainingSet(history)))
              && forecaster.weatherClasses == WeatherClasses(history)
              && forecaster.dayTypeClasses == DayTypeClasses(history))
        && o == LearnedOutcome(forecaster.Encodable(tomorrow), history,
                               predictXgb(forecaster.xgbModel.value, forecaster.weatherClasses, forecaster.dayTypeClasses,
                                          TomorrowFeatures(tomorrow)), "modelInfoXGB", None)
      ensures StoredPrediction(o).Some? ==>
        orderPrediction == StoredPrediction(o).value && explanation == Some(o.explanation)
      ensures StoredPrediction(o).None? ==>
        orderPrediction == old(orderPrediction) && explanation == old(explanation)
      ensures history == old(history) && tomorrow == old(tomorrow) && budget == old(budget)
      ensures summary == old(summary) && language == old(language)
    {
      o := forecaster.PredictWith(history, tomorrow, model, language, fitKnn, predictKnn, neighbours,
                                  fitXgb, predictXgb);
      KeepPrediction(o);
    }

    /** Stores a forecast that yields a number, truncated, with its explanation; any other outcome keeps the old one. */
    method KeepPrediction(o: Outcome)
      modifies this
      ensures StoredPrediction(o).Some? ==>
        orderPrediction == StoredPrediction(o).value && explanation == Some(o.explanation)
      ensures StoredPrediction(o).None? ==>
        orderPrediction == old(orderPrediction) && explanation == old(explanation)
      ensures history == old(history) && tomorrow == old(tomorrow) && budget == old(budget)
      ensures summary == old(summary) && language == old(language)
    {
      var stored := StoredPrediction(o);
      if stored.Some? {
        orderPrediction := stored.value;
        explanation := Some(o.explanation);
      }
    }

    /** The feedback box on the last closed day, if a day has been closed. */
    function LastFeedback(): (f: Option<Feedback>)
      reads this
      ensures f.Some? <==> summary.Some?
      ensures f.Some? ==> f.value == Classify(summary.value.sales, summary.value.leftover, summary.value.missed)
    {
      match summary
      case None => None
      case Some(s) => Some(Classify(s.sales, s.leftover, s.missed))
    }
  }
}
