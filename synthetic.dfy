/**
 * The synthetic day generator: holiday classification, the weather step,
 * the sales rule, the history loop and the tomorrow record.
 *
 * Every random number a day consumes is an explicit input (DayDraws) with
 * the range its generator guarantees; the holiday calendar is a map and the
 * seasonal baseline temperature a twelve-entry table.  With those inputs each
 * rule is a deterministic function.
 */
module SyntheticData {

  import opened Wrappers
  import opened Dates
  import opened Localization

  // ---------------------------------------------------------------- data

  datatype Weather = Sun | Rain | Snow | PartlyCloudy

  /** The conditions in the order the probability vectors list them. */
  const Conditions: seq<Weather> := [Sun, Rain, Snow, PartlyCloudy]

  /** The position of a condition in the probability vectors. */
  function ConditionIndex(w: Weather): (i: nat)
    ensures i < 4 && Conditions[i] == w
  {
    match w
    case Sun => 0
    case Rain => 1
    case Snow => 2
    case PartlyCloudy => 3
  }

  /** One resolved day of the history (a row of the data table). */
  datatype Record = Record(
    date: Date,
    dayOfWeek: string,
    order: int,
    sales: int,
    leftover: int,
    missed: int,
    weather: Weather,
    temperature: int,
    dayType: string,
    unexpected: string)

  /** The pending day: everything of a record except the order and what follows from it. */
  datatype Tomorrow = Tomorrow(
    date: Date,
    dayOfWeek: string,
    sales: int,
    weather: Weather,
    temperature: int,
    dayType: string,
    unexpected: string)

  /** Holiday names by date; dates that are not holidays are absent. */
  type Calendar = map<Date, string>

  /** The random numbers one simulated day consumes. */
  datatype DayDraws = DayDraws(
    temperatureChange: int,  // randint(-5, 6) after the first day, randint(-5, 5) on it
    conditionDraw: real,     // the uniform number behind the weighted choice of a condition
    eventDraw: real,         // rand(), an event happens below 0.03
    eventIndex: int,         // randint(8), which event
    noise: real,             // uniform(0.95, 1.05)
    orderChange: int)        // randint(-3, 3), the warm-up order offset

  /** The ranges the random generator guarantees; the first day draws its temperature offset from [-5, 4]. */
  predicate ValidDraws(d: DayDraws, hasHistory: bool) {
    && (if hasHistory then -5 <= d.temperatureChange <= 5 else -5 <= d.temperatureChange <= 4)
    && 0.0 <= d.conditionDraw < 1.0
    && 0.0 <= d.eventDraw < 1.0
    && 0 <= d.eventIndex < 8
    && 0.95 <= d.noise < 1.05
    && -3 <= d.orderChange <= 2
  }

  function Max(a: int, b: int): int { if a >= b then a else b }

  function Min(a: int, b: int): int { if a <= b then a else b }

  /** Leftover and missed of a resolved day follow from its order and its sales. */
  predicate Resolved(r: Record) {
    r.leftover == Max(r.order - r.sales, 0) && r.missed == Max(r.sales - r.order, 0)
  }

  lemma LeftoverAndMissedExclusive(r: Record)
    requires Resolved(r)
    ensures r.leftover >= 0 && r.missed >= 0
    ensures !(r.leftover > 0 && r.missed > 0)
    ensures r.order - r.leftover == Min(r.order, r.sales)
  {
  }

  /** One row per calendar day: the dates run on from the first one day at a time. */
  predicate Consecutive(h: seq<Record>) {
    forall i :: 0 <= i < |h| ==> h[i].date == h[0].date + i
  }

  // ---------------------------------------------------------------- holidays

  /** Python's `part in s` on strings: `part` occurs somewhere in `s`. */
  predicate Contains(s: string, part: string)
    decreases |s|
  {
    part <= s || (|s| > 0 && Contains(s[1..], part))
  }

  lemma {:induction false} ContainsAt(s: string, part: string, i: nat)
    requires i <= |s| && part <= s[i..]
    ensures Contains(s, part)
    decreases i
  {
    if i > 0 {
      assert s[1..][i - 1..] == s[i..];
      ContainsAt(s[1..], part, i - 1);
    }
  }

  /** The calendar gives `d` no holiday of its own: the lookup falls back to "normal". */
  predicate NoHolidayOn(calendar: Calendar, d: Date) {
    d !in calendar || calendar[d] == "normal"
  }

  /** A neighbour that counts as a holiday: present with a non-empty name. */
  predicate NamedHoliday(calendar: Calendar, d: Date) {
    d in calendar && calendar[d] != ""
  }

  /**
   * `get_holiday`: the holiday's name on a holiday; otherwise "day after X"
   * when the previous day is holiday X, else "day before X" when the next day
   * is holiday X, else "normal".  A missing or empty name counts as no holiday
   * for the neighbours, as the truthiness test of the source has it.
   */
  function DayType(calendar: Calendar, d: Date): (r: string)
    ensures !NoHolidayOn(calendar, d) ==> r == calendar[d]
    ensures NoHolidayOn(calendar, d) && NamedHoliday(calendar, d - 1)
            ==> r == "day after " + calendar[d - 1]
    ensures NoHolidayOn(calendar, d) && !NamedHoliday(calendar, d - 1) && NamedHoliday(calendar, d + 1)
            ==> r == "day before " + calendar[d + 1]
    ensures NoHolidayOn(calendar, d) && !NamedHoliday(calendar, d - 1) && !NamedHoliday(calendar, d + 1)
            ==> r == "normal"
  {
    var own := if d in calendar then calendar[d] else "normal";
    if own != "normal" then own
    else if d - 1 in calendar && calendar[d - 1] != "" then "day after " + calendar[d - 1]
    else if d + 1 in calendar && calendar[d + 1] != "" then "day before " + calendar[d + 1]
    else own
  }

  /** A holiday is labelled with its own name, whatever its neighbours are. */
  lemma HolidayKeepsItsName(calendar: Calendar, d: Date)
    requires d in calendar && calendar[d] != "normal"
    ensures DayType(calendar, d) == calendar[d]
  {
  }

  /**
   * An ordinary day after a holiday is "day after" it, whether or not the
   * next day is a holiday too: the earlier holiday wins.
   */
  lemma DayAfterTakesPriority(calendar: Calendar, d: Date)
    requires d !in calendar
    requires d - 1 in calendar && calendar[d - 1] != ""
    ensures DayType(calendar, d) == "day after " + calendar[d - 1]
  {
  }

  /** An ordinary day before a holiday, with none the day before, is "day before" it. */
  lemma DayBeforeHoliday(calendar: Calendar, d: Date)
    requires d !in calendar && d - 1 !in calendar
    requires d + 1 in calendar && calendar[d + 1] != ""
    ensures DayType(calendar, d) == "day before " + calendar[d + 1]
  {
  }

  /** A date with no holiday on it or next to it is "normal"; an empty calendar makes every date normal. */
  lemma NoHolidayNearby(calendar: Calendar, d: Date)
    requires d !in calendar && d - 1 !in calendar && d + 1 !in calendar
    ensures DayType(calendar, d) == "normal"
  {
  }

  /** A holiday that does not look like "before"/"after"/"normal" is a closing day. */
  predicate IsClosed(dayType: string) {
    dayType != "normal" && !Contains(dayType, "before") && !Contains(dayType, "after")
  }

  /**
   * The days around a holiday are never closing days, and a holiday whose
   * name mentions neither "before" nor "after" closes the store.
   */
  lemma {:induction false} ClosingDays(calendar: Calendar, d: Date)
    ensures d in calendar && calendar[d] != "normal"
              && !Contains(calendar[d], "before") && !Contains(calendar[d], "after")
            ==> IsClosed(DayType(calendar, d))
    ensures (d !in calendar || calendar[d] == "normal") ==> !IsClosed(DayType(calendar, d))
  {
    var t := DayType(calendar, d);
    if (d !in calendar || calendar[d] == "normal") && t != "normal" {
      if d - 1 in calendar && calendar[d - 1] != "" {
        assert t == "day after " + calendar[d - 1];
        ContainsAt(t, "after", 4);
      } else {
        assert t == "day before " + calendar[d + 1];
        ContainsAt(t, "before", 4);
      }
    }
  }

  // ---------------------------------------------------------------- weather

  /** `base_temperature` of a date: the entry of its month in the baseline table. */
  function BaseTemperature(baseline: seq<int>, d: Date): int
    requires |baseline| == 12
  {
    baseline[Month(d) - 1]
  }

  /** May to September, the months without snow. */
  predicate IsWarmMonth(month: int) {
    5 <= month <= 9
  }

  function Sum(p: seq<real>): real {
    if |p| == 0 then 0.0 else p[0] + Sum(p[1..])
  }

  /** Every element divided by `t` (the normalising list comprehension). */
  function Scale(p: seq<real>, t: real): (r: seq<real>)
    requires t != 0.0
    ensures |r| == |p|
  {
    seq(|p|, i requires 0 <= i < |p| => p[i] / t)
  }

  lemma {:induction false} SumScale(p: seq<real>, t: real)
    requires t != 0.0
    ensures Sum(Scale(p, t)) == Sum(p) / t
  {
    if |p| > 0 {
      assert Scale(p, t)[1..] == Scale(p[1..], t);
      SumScale(p[1..], t);
    }
  }

  /** Dividing a vector of positive total by its total gives a probability vector. */
  lemma NormalizedSumsToOne(p: seq<real>)
    requires Sum(p) > 0.0
    ensures Sum(Scale(p, Sum(p))) == 1.0
  {
    SumScale(p, Sum(p));
    assert Sum(p) / Sum(p) == 1.0;
  }

  lemma SumOfFour(p: seq<real>)
    requires |p| == 4
    ensures Sum(p) == p[0] + p[1] + p[2] + p[3]
  {
    var t1 := p[1..];
    var t2 := t1[1..];
    var t3 := t2[1..];
    assert t3[1..] == [];
    assert Sum(t3) == p[3];
    assert Sum(t2) == p[2] + p[3];
    assert Sum(t1) == p[1] + p[2] + p[3];
  }

  predicate IsDistribution(p: seq<real>) {
    |p| == 4 && Sum(p) == 1.0 && forall i :: 0 <= i < 4 ==> p[i] >= 0.0
  }

  /** The condition probabilities of the first day, with no history to follow. */
  const FirstDayProbabilities: seq<real> := [0.6, 0.2, 0.1, 0.1]

  /** The condition probabilities after a day of the given weather: snow and rain persist. */
  function TransitionProbabilities(previous: Weather): (p: seq<real>)
    ensures IsDistribution(p) && 0.0 < p[2] < 1.0
  {
    if previous == Snow then [0.1, 0.1, 0.4, 0.4]
    else if previous == Rain then [0.2, 0.4, 0.1, 0.3]
    else [0.5, 0.2, 0.1, 0.2]
  }

  /** Snow's share set to zero and the other three renormalised to sum to one. */
  function WithoutSnow(p: seq<real>): (q: seq<real>)
    requires IsDistribution(p) && p[2] < 1.0
    ensures IsDistribution(q) && q[2] == 0.0
    ensures forall i :: 0 <= i < 4 && i != 2 ==> q[i] == p[i] / (1.0 - p[2])
  {
    var zeroed := p[2 := 0.0];
    SumOfFour(p);
    SumOfFour(zeroed);
    NormalizedSumsToOne(zeroed);
    Scale(zeroed, Sum(zeroed))
  }

  /**
   * The probabilities a day's condition is drawn from: the first-day vector
   * without history; otherwise the previous day's transition vector, without
   * snow in a warm month when the day is warmer than 2 degrees.
   */
  function WeatherProbabilities(history: seq<Record>, month: int, temperature: int): (p: seq<real>)
    ensures IsDistribution(p)
    ensures |history| == 0 ==> p == FirstDayProbabilities
    ensures |history| > 0 && IsWarmMonth(month) && temperature > 2 ==> p[2] == 0.0
    ensures |history| > 0 && !(IsWarmMonth(month) && temperature > 2)
            ==> p == TransitionProbabilities(history[|history| - 1].weather)
    ensures |history| > 0 && IsWarmMonth(month) && temperature > 2
            ==> p == WithoutSnow(TransitionProbabilities(history[|history| - 1].weather))
  {
    if |history| == 0 then FirstDayProbabilities
    else
      var p := TransitionProbabilities(history[|history| - 1].weather);
      if IsWarmMonth(month) && temperature > 2 then WithoutSnow(p) else p
  }

  /**
   * The weighted choice: the first index whose cumulative probability exceeds
   * the uniform draw `u` (a search for `u` among the cumulative sums).
   */
  function Pick(p: seq<real>, u: real): (i: nat)
    requires 0.0 <= u
    ensures i <= |p|
    ensures i < |p| ==> p[i] > 0.0
    ensures u < Sum(p) ==> i < |p|
    ensures i < |p| ==> Sum(p[..i]) <= u < Sum(p[..i + 1])
    ensures i == |p| ==> Sum(p) <= u
  {
    if |p| == 0 then 0
    else if u < p[0] then
      assert p[..1][1..] == [];
      0
    else
      var j := Pick(p[1..], u - p[0]);
      assert j < |p| - 1 ==> p[..j + 1][1..] == p[1..][..j] && p[..j + 2][1..] == p[1..][..j + 1];
      1 + j
  }

  /** The condition drawn from a distribution: never one whose probability is zero. */
  function DrawCondition(p: seq<real>, u: real): (w: Weather)
    requires IsDistribution(p) && 0.0 <= u < 1.0
    ensures p[ConditionIndex(w)] > 0.0
  {
    Conditions[Pick(p, u)]
  }

  /**
   * The day's temperature: with history, the previous temperature plus the
   * change, bounded to ten degrees around the baseline; without, the baseline
   * plus the change.
   */
  function NextTemperature(history: seq<Record>, base: int, change: int): (t: int)
    ensures |history| > 0 ==> base - 10 <= t <= base + 10
    ensures |history| > 0 && base - 10 <= history[|history| - 1].temperature + change <= base + 10
            ==> t == history[|history| - 1].temperature + change
    ensures |history| == 0 ==> t == base + change
    ensures |history| > 0 && history[|history| - 1].temperature + change > base + 10 ==> t == base + 10
    ensures |history| > 0 && history[|history| - 1].temperature + change < base - 10 ==> t == base - 10
  {
    if |history| == 0 then base + change
    else Max(Min(history[|history| - 1].temperature + change, base + 10), base - 10)
  }

  /** `get_weather`: the day's temperature and condition, following the Python step by step. */
  method GetWeather(date: Date, history: seq<Record>, baseline: seq<int>, draws: DayDraws)
    returns (temperature: int, weather: Weather)
    requires |baseline| == 12 && ValidDraws(draws, |history| > 0)
    ensures temperature == NextTemperature(history, BaseTemperature(baseline, date), draws.temperatureChange)
    ensures weather == DrawCondition(WeatherProbabilities(history, Month(date), temperature), draws.conditionDraw)
    ensures |history| == 0 ==> BaseTemperature(baseline, date) - 5 <= temperature <= BaseTemperature(baseline, date) + 4
    ensures |history| > 0 && IsWarmMonth(Month(date)) && temperature > 2 ==> weather != Snow
  {
    var month := Month(date);
    var base := BaseTemperature(baseline, date);
    if |history| > 0 {
      var previous := history[|history| - 1];
      temperature := previous.temperature + draws.temperatureChange;
      temperature := Max(Min(temperature, base + 10), base - 10);
      var probs := TransitionProbabilities(previous.weather);
      if IsWarmMonth(month) && temperature > 2 {
        probs := probs[2 := 0.0];
        SumOfFour(probs);
        var total := Sum(probs);
        NormalizedSumsToOne(probs);
        probs := Scale(probs, total);
      }
      assert probs == WeatherProbabilities(history, month, temperature);
      weather := Conditions[Pick(probs, draws.conditionDraw)];
    } else {
      temperature := base + draws.temperatureChange;
      weather := Conditions[Pick(FirstDayProbabilities, draws.conditionDraw)];
    }
  }

  // ---------------------------------------------------------------- sales

  /** The last seven days of history, or all of it when shorter. */
  function Recent(history: seq<Record>): (r: seq<Record>)
    ensures |r| == Min(|history|, 7) && r == history[|history| - |r|..]
  {
    if |history| >= 7 then history[|history| - 7..] else history
  }

  function TemperatureSum(days: seq<Record>): int {
    if |days| == 0 then 0 else days[0].temperature + TemperatureSum(days[1..])
  }

  function RainyDays(days: seq<Record>): (n: nat)
    ensures n <= |days|
  {
    if |days| == 0 then 0 else (if days[0].weather == Rain then 1 else 0) + RainyDays(days[1..])
  }

  /** Mean temperature of the recent days, or the day's own temperature when there are none. */
  function AverageTemperature(recent: seq<Record>, temperature: int): real {
    if |recent| == 0 then temperature as real else TemperatureSum(recent) as real / |recent| as real
  }

  /** Half as much again on Saturdays and Sundays. */
  function WeekdayFactor(d: Date): (f: real)
    ensures f == 1.0 || f == 1.5
    ensures f == 1.5 <==> IsWeekend(d)
  {
    if IsWeekend(d) then 1.5 else 1.0
  }

  /** The running figure `b` after the weather step: how the day's weather, against the recent days, moves demand. */
  function WeatherAdjusted(b: real, recent: seq<Record>, temperature: int, weather: Weather): (r: real)
    requires b >= 0.0
    ensures 0.7 * b <= r <= 1.1 * b
    ensures weather == Snow ==> r == (if AverageTemperature(recent, temperature) > -2.0 then 0.7 else 0.8) * b
    ensures weather == Rain ==> r == (if RainyDays(recent) > 3 then 0.95 else 0.85) * b
    ensures weather == Sun ==> r == (if temperature as real > AverageTemperature(recent, temperature) + 5.0 then 0.9 else 1.1) * b
    ensures weather == PartlyCloudy ==> r == b
  {
    var average := AverageTemperature(recent, temperature);
    match weather
    case Snow => if average > -2.0 then b * 0.7 else b * 0.8
    case Rain => if RainyDays(recent) > 3 then b * 0.95 else b * 0.85
    case Sun => if temperature as real > average + 5.0 then b * 0.9 else b * 1.1
    case PartlyCloudy => b
  }

  /**
   * The running figure `b` after the holiday step: a fifth more before a
   * holiday, three times that before New Year's Day, a tenth more after one.
   * Closing days never reach this step.
   */
  function HolidayAdjusted(b: real, dayType: string): (r: real)
    requires b >= 0.0
    ensures b <= r <= 3.6 * b
    ensures Contains(dayType, "before") ==> r == (if Contains(dayType, "New Year's Day") then 3.6 else 1.2) * b
    ensures !Contains(dayType, "before") && Contains(dayType, "after") ==> r == 1.1 * b
    ensures !Contains(dayType, "before") && !Contains(dayType, "after") ==> r == b
  {
    if Contains(dayType, "before") then (if Contains(dayType, "New Year's Day") then b * 1.2 * 3.0 else b * 1.2)
    else if Contains(dayType, "after") then b * 1.1
    else b
  }

  /** No text contains a part longer than itself. */
  lemma {:induction false} ShorterHasNoPart(s: string, part: string)
    requires |s| < |part|
    ensures !Contains(s, part)
    decreases |s|
  {
    if |s| > 0 {
      ShorterHasNoPart(s[1..], part);
    }
  }

  /**
   * The extra boost before New Year's Day depends on the calendar's own
   * name for January 1: the English name "New Year's Day" enables it, while
   * the German "Neujahr" leaves the day before it at the plain 20% more.
   */
  lemma NewYearBoostNeedsEnglishName(calendar: Calendar, d: Date, b: real)
    requires b >= 0.0 && d !in calendar && d - 1 !in calendar && d + 1 in calendar
    ensures calendar[d + 1] == "New Year's Day" ==> HolidayAdjusted(b, DayType(calendar, d)) == 3.6 * b
    ensures calendar[d + 1] == "Neujahr" ==> HolidayAdjusted(b, DayType(calendar, d)) == 1.2 * b
  {
    var name := calendar[d + 1];
    if name == "New Year's Day" || name == "Neujahr" {
      var s := "day before " + name;
      assert DayType(calendar, d) == s;
      ContainsAt(s, "before", 4);
      if name == "New Year's Day" {
        ContainsAt(s, "New Year's Day", 11);
      } else {
        var part := "New Year's Day";
        ShorterHasNoPart(s[5..], part);
        // No suffix of "day before Neujahr" starting before position 5 begins with "New".
        assert s[4..][1..] == s[5..] && s[4] != 'N';
        assert !Contains(s[4..], part);
        assert s[3..][1..] == s[4..] && s[3] != 'N';
        assert !Contains(s[3..], part);
        assert s[2..][1..] == s[3..] && s[2] != 'N';
        assert !Contains(s[2..], part);
        assert s[1..][1..] == s[2..] && s[1] != 'N';
        assert !Contains(s[1..], part);
        assert s[0] != 'N';
        assert !Contains(s, part);
      }
    }
  }

  /** The translation keys of the eight unforeseen events. */
  const EventKeys: seq<string> :=
    ["unexpEventConstruction", "unexpEventDemo", "unexpEventFlea", "unexpEventOffer",
     "unexpEventStrike", "unexpEventSportsGood", "unexpEventSportsBad", "unexpEventBirthday"]

  /** How each event scales the day's demand. */
  const EventMultipliers: seq<real> := [0.85, 1.2, 1.3, 0.8, 0.7, 1.15, 0.75, 1.15]

  /** The eight unforeseen events with their localized labels and their demand multipliers. */
  function UnforeseenEvents(lang: string): (events: seq<(string, real)>)
    ensures |events| == 8
    ensures forall i :: 0 <= i < 8 ==> 0.7 <= events[i].1 <= 1.3
  {
    seq(8, i requires 0 <= i < 8 => (Localize(EventKeys[i], lang), EventMultipliers[i]))
  }

  /** No event label is empty, whatever the language. */
  lemma EventLabelsNonEmpty(lang: string, i: int)
    requires 0 <= i < 8
    ensures UnforeseenEvents(lang)[i].0 != ""
  {
    assert UnforeseenEvents(lang)[i].0 == Localize(EventKeys[i], lang);
    if i < 4 {
      FirstEventLabelsNonEmpty(lang, i);
    } else {
      LastEventLabelsNonEmpty(lang, i);
    }
  }

  lemma FirstEventLabelsNonEmpty(lang: string, i: int)
    requires 0 <= i < 4
    ensures Localize(EventKeys[i], lang) != ""
  {
    if i == 0 {
      assert Localize("unexpEventConstruction", lang) != "";
    } else if i == 1 {
      assert Localize("unexpEventDemo", lang) != "";
    } else if i == 2 {
      assert Localize("unexpEventFlea", lang) != "";
    } else {
      assert Localize("unexpEventOffer", lang) != "";
    }
  }

  lemma LastEventLabelsNonEmpty(lang: string, i: int)
    requires 4 <= i < 8
    ensures Localize(EventKeys[i], lang) != ""
  {
    if i == 4 {
      assert Localize("unexpEventStrike", lang) != "";
    } else if i == 5 {
      assert Localize("unexpEventSportsGood", lang) != "";
    } else if i == 6 {
      assert Localize("unexpEventSportsBad", lang) != "";
    } else {
      assert Localize("unexpEventBirthday", lang) != "";
    }
  }

  /** The label of the day's event, empty unless the draw is below 0.03. */
  function EventLabel(lang: string, draws: DayDraws): (text: string)
    requires 0 <= draws.eventIndex < 8
    ensures text != "" <==> draws.eventDraw < 0.03
  {
    if draws.eventDraw < 0.03 then
      EventLabelsNonEmpty(lang, draws.eventIndex);
      UnforeseenEvents(lang)[draws.eventIndex].0
    else ""
  }

  /** Bounds of a product of two non-negative quantities from bounds of each. */
  lemma ProductBounds(a: real, b: real, aLow: real, aHigh: real, bLow: real, bHigh: real)
    requires 0.0 <= aLow <= a <= aHigh && 0.0 <= bLow <= b <= bHigh
    ensures aLow * bLow <= a * b <= aHigh * bHigh
  {
    assert a * b - aLow * bLow == a * (b - bLow) + bLow * (a - aLow);
    assert aHigh * bHigh - a * b == aHigh * (bHigh - b) + b * (aHigh - a);
  }

  /** The running figure `b` after the event step: scaled by the event's multiplier when an event happens. */
  function EventAdjusted(b: real, lang: string, draws: DayDraws): (r: real)
    requires b >= 0.0 && 0 <= draws.eventIndex < 8
    ensures 0.7 * b <= r <= 1.3 * b
    ensures draws.eventDraw >= 0.03 ==> r == b
  {
    if draws.eventDraw < 0.03 then
      var m := EventMultipliers[draws.eventIndex];
      ProductBounds(b, m, b, b, 0.7, 1.3);
      b * m
    else b
  }

  /** The demand before noise: 500 cakes scaled by the weekday, weather, holiday and event factors. */
  function ExpectedSales(date: Date, recent: seq<Record>, temperature: int, weather: Weather,
                         dayType: string, lang: string, draws: DayDraws): (e: real)
    requires 0 <= draws.eventIndex < 8
    ensures 245.0 <= e <= 3861.0
  {
    var b := HolidayAdjusted(WeatherAdjusted(500.0 * WeekdayFactor(date), recent, temperature, weather), dayType);
    EventAdjusted(b, lang, draws)
  }

  /** The noisy demand truncated to whole cakes, as `int(base_sales * uniform(0.95, 1.05))`. */
  function WithNoise(expected: real, noise: real): (n: int)
    requires 245.0 <= expected <= 3861.0 && 0.95 <= noise < 1.05
    ensures 232 <= n <= 4054
    ensures n as real <= expected * noise < n as real + 1.0
  {
    ProductBounds(expected, noise, 245.0, 3861.0, 0.95, 1.05);
    assert expected * noise < 4055.0;
    (expected * noise).Floor
  }

  /**
   * The day's sales and event label: the expected demand times the noise,
   * truncated to a whole number, between 232 and 4054 cakes on an open day;
   * no sales and no event on a closing day.
   */
  function Sales(date: Date, history: seq<Record>, temperature: int, weather: Weather,
                 dayType: string, lang: string, draws: DayDraws): (r: (int, string))
    requires 0 <= draws.eventIndex < 8 && 0.95 <= draws.noise < 1.05
    ensures r.0 >= 0
    ensures IsClosed(dayType) ==> r == (0, "")
    ensures !IsClosed(dayType) ==> 232 <= r.0 <= 4054
    ensures !IsClosed(dayType) ==> (r.1 != "" <==> draws.eventDraw < 0.03)
    ensures !IsClosed(dayType) && draws.eventDraw < 0.03 ==> r.1 == UnforeseenEvents(lang)[draws.eventIndex].0
  {
    if IsClosed(dayType) then (0, "")
    else
      var expected := ExpectedSales(date, Recent(history), temperature, weather, dayType, lang, draws);
      (WithNoise(expected, draws.noise), EventLabel(lang, draws))
  }

  /** Multiplying by the chosen event's multiplier is the event step. */
  lemma EventStep(scaled: real, b: real, modifier: real, lang: string, draws: DayDraws)
    requires b >= 0.0 && 0 <= draws.eventIndex < 8 && draws.eventDraw < 0.03
    requires modifier == UnforeseenEvents(lang)[draws.eventIndex].1 && scaled == b * modifier
    ensures scaled == EventAdjusted(b, lang, draws)
  {
    assert modifier == EventMultipliers[draws.eventIndex];
  }

  /** `get_sales`, following the Python step by step: the running figure is multiplied factor by factor. */
  method GetSales(date: Date, history: seq<Record>, temperature: int, weather: Weather,
                  dayType: string, lang: string, draws: DayDraws)
    returns (sales: int, event: string)
    requires 0 <= draws.eventIndex < 8 && 0.95 <= draws.noise < 1.05
    ensures (sales, event) == Sales(date, history, temperature, weather, dayType, lang, draws)
  {
    var baseSales := 500.0 * (if DayName(date) in ["Saturday", "Sunday"] then 1.5 else 1.0);
    var recent := if |history| >= 7 then history[|history| - 7..] else history;
    ghost var weekday := baseSales;
    assert weekday == 500.0 * WeekdayFactor(date);
    var averageTemperature := AverageTemperature(recent, temperature);
    if weather == Snow {
      if averageTemperature > -2.0 {
        baseSales := baseSales * 0.7;
      } else {
        baseSales := baseSales * 0.8;
      }
    } else if weather == Rain {
      if RainyDays(recent) > 3 {
        baseSales := baseSales * 0.95;
      } else {
        baseSales := baseSales * 0.85;
      }
    } else if weather == Sun {
      if temperature as real > averageTemperature + 5.0 {
        baseSales := baseSales * 0.9;
      } else {
        baseSales := baseSales * 1.1;
      }
    }
    assert baseSales == WeatherAdjusted(weekday, recent, temperature, weather);
    ghost var afterWeather := baseSales;
    if Contains(dayType, "before") {
      baseSales := baseSales * 1.2;
      if Contains(dayType, "New Year's Day") {
        baseSales := baseSales * 3.0;
      }
    } else if Contains(dayType, "after") {
      baseSales := baseSales * 1.1;
    } else if dayType != "normal" {
      return 0, "";
    }
    assert baseSales == HolidayAdjusted(afterWeather, dayType);
    ghost var afterHoliday := baseSales;
    event := "";
    if draws.eventDraw < 0.03 {
      var modifier;
      event, modifier := UnforeseenEvents(lang)[draws.eventIndex].0, UnforeseenEvents(lang)[draws.eventIndex].1;
      baseSales := baseSales * modifier;
      EventStep(baseSales, afterHoliday, modifier, lang, draws);
    } else {
      assert baseSales == EventAdjusted(afterHoliday, lang, draws);
    }
    assert recent == Recent(history);
    assert baseSales == ExpectedSales(date, recent, temperature, weather, dayType, lang, draws);
    sales := WithNoise(baseSales, draws.noise);
  }

  // ---------------------------------------------------------------- days

  /** The warm-up order: the sales of seven rows back once more than seven rows exist, else the sales plus an offset. */
  function WarmUpOrder(data: seq<Record>, sales: int, change: int): int {
    if |data| > 7 then data[|data| - 7].sales else sales + change
  }

  /** A record without its order, leftover and missed sales: the day as it was before the order. */
  function Pending(r: Record): Tomorrow {
    Tomorrow(r.date, r.dayOfWeek, r.sales, r.weather, r.temperature, r.dayType, r.unexpected)
  }

  /** A pending day resolved with an order: the record with that order whose leftover and missed sales follow from it. */
  function Resolve(t: Tomorrow, order: int): (r: Record)
    ensures Resolved(r) && r.order == order && Pending(r) == t
  {
    Record(t.date, t.dayOfWeek, order, t.sales, Max(order - t.sales, 0), Max(t.sales - order, 0),
           t.weather, t.temperature, t.dayType, t.unexpected)
  }

  /** Resolving a day fills in the order and the leftover and missed sales it implies, and keeps the rest. */
  lemma ResolveByFields(t: Tomorrow, order: int, leftover: int, missed: int)
    requires leftover == Max(order - t.sales, 0) && missed == Max(t.sales - order, 0)
    ensures Resolve(t, order) == Record(t.date, t.dayOfWeek, order, t.sales, leftover, missed,
                                        t.weather, t.temperature, t.dayType, t.unexpected)
  {
  }

  /** Resolving is the only way to a resolved record: any such record is its pending day resolved with its order. */
  lemma ResolvedRecordsAreResolutions(r: Record)
    requires Resolved(r)
    ensures Resolve(Pending(r), r.order) == r
  {
  }

  /**
   * The day computed for `date` after the rows `history`, everything but the
   * order: its localized weekday name, day type, weather and sales.  This is
   * the day `generate_tomorrow` returns and the first half of each step of
   * the history loop.
   */
  function DayOf(date: Date, history: seq<Record>, lang: string, calendar: Calendar,
                 baseline: seq<int>, draws: DayDraws): (t: Tomorrow)
    requires |baseline| == 12 && ValidDraws(draws, |history| > 0)
    ensures t.date == date
  {
    var dayType := DayType(calendar, date);
    var temperature := NextTemperature(history, BaseTemperature(baseline, date), draws.temperatureChange);
    var weather := DrawCondition(WeatherProbabilities(history, Month(date), temperature), draws.conditionDraw);
    var (sales, unexpected) := Sales(date, history, temperature, weather, dayType, lang, draws);
    Tomorrow(date, Localize(DayName(date), lang), sales, weather, temperature, dayType, unexpected)
  }

  /** The row the history loop appends for `date` after the rows `data`: the day resolved with its warm-up order. */
  function DayRow(date: Date, data: seq<Record>, lang: string, calendar: Calendar,
                  baseline: seq<int>, draws: DayDraws): (r: Record)
    requires |baseline| == 12 && ValidDraws(draws, |data| > 0)
    ensures r.date == date && Resolved(r)
  {
    var t := DayOf(date, data, lang, calendar, baseline, draws);
    Resolve(t, WarmUpOrder(data, t.sales, draws.orderChange))
  }

  /** The pending record `generate_tomorrow` makes for the day after the history's last. */
  function TomorrowOf(history: seq<Record>, lang: string, calendar: Calendar,
                      baseline: seq<int>, draws: DayDraws): (t: Tomorrow)
    requires |history| > 0 && |baseline| == 12 && ValidDraws(draws, true)
    ensures t.date == history[|history| - 1].date + 1
  {
    DayOf(history[|history| - 1].date + 1, history, lang, calendar, baseline, draws)
  }

  /** The properties every computed day has, whatever the draws. */
  lemma {:induction false} DayOfProperties(date: Date, history: seq<Record>, lang: string, calendar: Calendar,
                                           baseline: seq<int>, draws: DayDraws)
    requires |baseline| == 12 && ValidDraws(draws, |history| > 0)
    ensures var t := DayOf(date, history, lang, calendar, baseline, draws);
      && t.date == date && t.dayOfWeek == Localize(DayName(date), lang)
      && t.dayType == DayType(calendar, date)
      && t.sales >= 0
      && (IsClosed(t.dayType) ==> t.sales == 0 && t.unexpected == "")
      && (|history| > 0 ==> BaseTemperature(baseline, date) - 10 <= t.temperature <= BaseTemperature(baseline, date) + 10)
      && (|history| > 0 && IsWarmMonth(Month(date)) && t.temperature > 2 ==> t.weather != Snow)
  {
    var t := DayOf(date, history, lang, calendar, baseline, draws);
    var p := WeatherProbabilities(history, Month(date), t.temperature);
    assert t.weather == DrawCondition(p, draws.conditionDraw);
    if |history| > 0 && IsWarmMonth(Month(date)) && t.temperature > 2 {
      assert p[2] == 0.0;
    }
  }

  /** The properties every generated row has, whatever the draws. */
  lemma DayRowProperties(date: Date, data: seq<Record>, lang: string, calendar: Calendar,
                         baseline: seq<int>, draws: DayDraws)
    requires |baseline| == 12 && ValidDraws(draws, |data| > 0)
    ensures var r := DayRow(date, data, lang, calendar, baseline, draws);
      && Pending(r) == DayOf(date, data, lang, calendar, baseline, draws)
      && (|data| > 7 ==> r.order == data[|data| - 7].sales)
      && (|data| <= 7 ==> r.sales - 3 <= r.order <= r.sales + 2)
  {
  }

  // ---------------------------------------------------------------- history

  /** Draws for a run of days: the first day has no history, every later day has. */
  predicate ValidDrawSequence(draws: seq<DayDraws>) {
    forall i :: 0 <= i < |draws| ==> ValidDraws(draws[i], i > 0)
  }

  /** The first `count` rows the history loop builds from `start` on: each row is built from the rows before it. */
  function History(start: Date, count: nat, lang: string, calendar: Calendar,
                   baseline: seq<int>, draws: seq<DayDraws>): (h: seq<Record>)
    requires |baseline| == 12 && count <= |draws| && ValidDrawSequence(draws)
    ensures |h| == count
    decreases count, 0
  {
    if count == 0 then []
    else History(start, count - 1, lang, calendar, baseline, draws) + [RowOn(start, count - 1, lang, calendar, baseline, draws)]
  }

  /** Row `i` of the history: day `i` resolved with its warm-up order. */
  function RowOn(start: Date, i: nat, lang: string, calendar: Calendar,
                 baseline: seq<int>, draws: seq<DayDraws>): (r: Record)
    requires |baseline| == 12 && i < |draws| && ValidDrawSequence(draws)
    decreases i, 2
  {
    var t := PendingOn(start, i, lang, calendar, baseline, draws);
    Resolve(t, WarmUpOrder(History(start, i, lang, calendar, baseline, draws), t.sales, draws[i].orderChange))
  }

  /** Day `i` of the history before its order: the day computed from the `i` rows before it. */
  function PendingOn(start: Date, i: nat, lang: string, calendar: Calendar,
                     baseline: seq<int>, draws: seq<DayDraws>): (t: Tomorrow)
    requires |baseline| == 12 && i < |draws| && ValidDrawSequence(draws)
    decreases i, 1
  {
    DayOf(start + i, History(start, i, lang, calendar, baseline, draws), lang, calendar, baseline, draws[i])
  }

  /** Row `i` of the history is the row the loop appends after the `i` rows before it. */
  lemma RowOnIsDayRow(start: Date, i: nat, lang: string, calendar: Calendar,
                      baseline: seq<int>, draws: seq<DayDraws>)
    requires |baseline| == 12 && i < |draws| && ValidDrawSequence(draws)
    ensures RowOn(start, i, lang, calendar, baseline, draws)
            == DayRow(start + i, History(start, i, lang, calendar, baseline, draws), lang, calendar, baseline, draws[i])
  {
  }

  /** No snow on a day in May to September that is warmer than two degrees. */
  predicate NoSummerSnow(r: Record) {
    IsWarmMonth(Month(r.date)) && r.temperature > 2 ==> r.weather != Snow
  }

  /** One row per day from `start` on, each with consistent leftover and missed sales. */
  predicate DatedRows(h: seq<Record>, start: Date) {
    forall i :: 0 <= i < |h| ==> h[i].date == start + i && Resolved(h[i]) && h[i].sales >= 0
  }

  /** Every row carries its calendar day type, and closing days sell nothing and have no event. */
  predicate TypedRows(h: seq<Record>, calendar: Calendar) {
    && (forall i :: 0 <= i < |h| ==> h[i].dayType == DayType(calendar, h[i].date))
    && (forall i :: 0 <= i < |h| && IsClosed(h[i].dayType) ==> h[i].sales == 0 && h[i].unexpected == "")
  }

  /** The first eight orders lie within the warm-up offset of the sales; later ones repeat the sales a week back. */
  predicate WarmUpOrders(h: seq<Record>) {
    && (forall i, j :: 0 < i < |h| && 0 <= j < |h| && j == i + 7 ==> h[j].order == h[i].sales)
    && (forall i :: 0 <= i <= 7 && i < |h| ==> h[i].sales - 3 <= h[i].order <= h[i].sales + 2)
  }

  /** After the first day temperatures stay within ten degrees of the baseline and there is no summer snow. */
  predicate PlausibleWeather(h: seq<Record>, baseline: seq<int>)
    requires |baseline| == 12
  {
    && (forall i :: 0 < i < |h| ==>
          BaseTemperature(baseline, h[i].date) - 10 <= h[i].temperature <= BaseTemperature(baseline, h[i].date) + 10)
    && (forall i :: 0 < i < |h| ==> NoSummerSnow(h[i]))
  }

  /** The invariants of the data table. */
  predicate WellFormedHistory(h: seq<Record>, start: Date, calendar: Calendar, baseline: seq<int>)
    requires |baseline| == 12
  {
    DatedRows(h, start) && TypedRows(h, calendar) && WarmUpOrders(h) && PlausibleWeather(h, baseline)
  }

  lemma ExtendDatedRows(prior: seq<Record>, row: Record, start: Date)
    requires DatedRows(prior, start)
    requires row.date == start + |prior| && Resolved(row) && row.sales >= 0
    ensures DatedRows(prior + [row], start)
  {
    var h := prior + [row];
    assert forall i :: 0 <= i < |prior| ==> h[i] == prior[i];
  }

  lemma ExtendTypedRows(prior: seq<Record>, row: Record, calendar: Calendar)
    requires TypedRows(prior, calendar)
    requires row.dayType == DayType(calendar, row.date)
    requires IsClosed(row.dayType) ==> row.sales == 0 && row.unexpected == ""
    ensures TypedRows(prior + [row], calendar)
  {
    var h := prior + [row];
    assert forall i :: 0 <= i < |prior| ==> h[i] == prior[i];
  }

  lemma ExtendWarmUpOrders(prior: seq<Record>, row: Record)
    requires WarmUpOrders(prior)
    requires |prior| > 7 ==> row.order == prior[|prior| - 7].sales
    requires |prior| <= 7 ==> row.sales - 3 <= row.order <= row.sales + 2
    ensures WarmUpOrders(prior + [row])
  {
    var h := prior + [row];
    assert forall i :: 0 <= i < |prior| ==> h[i] == prior[i];
    forall i, j | 0 < i < |h| && 0 <= j < |h| && j == i + 7
      ensures h[j].order == h[i].sales
    {
      if j == |prior| {
        assert h[i] == prior[|prior| - 7];
      } else {
        assert h[j] == prior[j] && h[i] == prior[i];
      }
    }
  }

  lemma ExtendPlausibleWeather(prior: seq<Record>, row: Record, baseline: seq<int>)
    requires |baseline| == 12 && PlausibleWeather(prior, baseline)
    requires |prior| > 0 ==>
      BaseTemperature(baseline, row.date) - 10 <= row.temperature <= BaseTemperature(baseline, row.date) + 10
    requires |prior| > 0 ==> NoSummerSnow(row)
    ensures PlausibleWeather(prior + [row], baseline)
  {
    var h := prior + [row];
    assert forall i :: 0 <= i < |prior| ==> h[i] == prior[i];
  }

  /** Rows dated one day apart from `start` on are consecutive days. */
  lemma DatedRowsAreConsecutive(h: seq<Record>, start: Date)
    requires DatedRows(h, start)
    ensures Consecutive(h)
  {
    forall i | 0 <= i < |h|
      ensures h[i].date == h[0].date + i
    {
      assert h[i].date == start + i && h[0].date == start;
    }
  }

  /** The rules the next row obeys against the rows before it, as `DayRowProperties` states them. */
  predicate ObeysRules(prior: seq<Record>, row: Record, start: Date, calendar: Calendar, baseline: seq<int>)
    requires |baseline| == 12
  {
    && row.date == start + |prior| && Resolved(row) && row.sales >= 0
    && row.dayType == DayType(calendar, row.date)
    && (IsClosed(row.dayType) ==> row.sales == 0 && row.unexpected == "")
    && (|prior| > 7 ==> row.order == prior[|prior| - 7].sales)
    && (|prior| <= 7 ==> row.sales - 3 <= row.order <= row.sales + 2)
    && (|prior| > 0 ==>
          BaseTemperature(baseline, row.date) - 10 <= row.temperature <= BaseTemperature(baseline, row.date) + 10)
    && (|prior| > 0 ==> NoSummerSnow(row))
  }

  /** The day's row obeys the rules against the rows before it. */
  lemma NextRowObeysRules(prior: seq<Record>, start: Date, lang: string, calendar: Calendar,
                          baseline: seq<int>, draws: DayDraws)
    requires |baseline| == 12 && ValidDraws(draws, |prior| > 0)
    ensures ObeysRules(prior, DayRow(start + |prior|, prior, lang, calendar, baseline, draws), start, calendar, baseline)
  {
    var date := start + |prior|;
    DayOfProperties(date, prior, lang, calendar, baseline, draws);
    DayRowProperties(date, prior, lang, calendar, baseline, draws);
    ResolvedDayObeysRules(prior, DayOf(date, prior, lang, calendar, baseline, draws),
                          DayRow(date, prior, lang, calendar, baseline, draws), start, calendar, baseline);
  }

  /** A row resolved from a day with the properties of a computed day, ordered by the warm-up rule, obeys the rules. */
  lemma ResolvedDayObeysRules(prior: seq<Record>, t: Tomorrow, row: Record, start: Date, calendar: Calendar,
                              baseline: seq<int>)
    requires |baseline| == 12 && Pending(row) == t && Resolved(row)
    requires t.date == start + |prior| && t.dayType == DayType(calendar, t.date) && t.sales >= 0
    requires IsClosed(t.dayType) ==> t.sales == 0 && t.unexpected == ""
    requires |prior| > 0 ==> BaseTemperature(baseline, t.date) - 10 <= t.temperature <= BaseTemperature(baseline, t.date) + 10
    requires |prior| > 0 && IsWarmMonth(Month(t.date)) && t.temperature > 2 ==> t.weather != Snow
    requires |prior| > 7 ==> row.order == prior[|prior| - 7].sales
    requires |prior| <= 7 ==> row.sales - 3 <= row.order <= row.sales + 2
    ensures ObeysRules(prior, row, start, calendar, baseline)
  {
    assert row.date == t.date && row.dayType == t.dayType && row.sales == t.sales;
    assert row.unexpected == t.unexpected && row.temperature == t.temperature && row.weather == t.weather;
  }

  /** Row `i` of the history obeys the rules against the `i` rows before it. */
  lemma RowOnObeysRules(start: Date, i: nat, lang: string, calendar: Calendar,
                        baseline: seq<int>, draws: seq<DayDraws>)
    requires |baseline| == 12 && i < |draws| && ValidDrawSequence(draws)
    ensures ObeysRules(History(start, i, lang, calendar, baseline, draws),
                       RowOn(start, i, lang, calendar, baseline, draws), start, calendar, baseline)
  {
    RowOnIsDayRow(start, i, lang, calendar, baseline, draws);
    NextRowObeysRules(History(start, i, lang, calendar, baseline, draws), start, lang, calendar, baseline, draws[i]);
  }

  /** Each row obeys the rules against the rows before it. */
  predicate AllRowsObeyRules(h: seq<Record>, start: Date, calendar: Calendar, baseline: seq<int>)
    requires |baseline| == 12
    decreases |h|
  {
    |h| == 0
    || (AllRowsObeyRules(h[..|h| - 1], start, calendar, baseline)
        && ObeysRules(h[..|h| - 1], h[|h| - 1], start, calendar, baseline))
  }

  /** Rows that each obey the rules against their predecessors are dated from `start` on and resolved. */
  lemma {:induction false} RulesGiveDatedRows(h: seq<Record>, start: Date, calendar: Calendar, baseline: seq<int>)
    requires |baseline| == 12 && AllRowsObeyRules(h, start, calendar, baseline)
    ensures DatedRows(h, start)
    decreases |h|
  {
    if |h| > 0 {
      var prior := h[..|h| - 1];
      RulesGiveDatedRows(prior, start, calendar, baseline);
      assert h == prior + [h[|h| - 1]];
      ExtendDatedRows(prior, h[|h| - 1], start);
    }
  }

  /** Rows that each obey the rules against their predecessors carry their day types. */
  lemma {:induction false} RulesGiveTypedRows(h: seq<Record>, start: Date, calendar: Calendar, baseline: seq<int>)
    requires |baseline| == 12 && AllRowsObeyRules(h, start, calendar, baseline)
    ensures TypedRows(h, calendar)
    decreases |h|
  {
    if |h| > 0 {
      var prior := h[..|h| - 1];
      RulesGiveTypedRows(prior, start, calendar, baseline);
      assert h == prior + [h[|h| - 1]];
      ExtendTypedRows(prior, h[|h| - 1], calendar);
    }
  }

  /** Rows that each obey the rules against their predecessors follow the warm-up ordering rule. */
  lemma {:induction false} RulesGiveWarmUpOrders(h: seq<Record>, start: Date, calendar: Calendar, baseline: seq<int>)
    requires |baseline| == 12 && AllRowsObeyRules(h, start, calendar, baseline)
    ensures WarmUpOrders(h)
    decreases |h|
  {
    if |h| > 0 {
      var prior := h[..|h| - 1];
      RulesGiveWarmUpOrders(prior, start, calendar, baseline);
      assert h == prior + [h[|h| - 1]];
      ExtendWarmUpOrders(prior, h[|h| - 1]);
    }
  }

  /** Rows that each obey the rules against their predecessors have plausible weather. */
  lemma {:induction false} RulesGivePlausibleWeather(h: seq<Record>, start: Date, calendar: Calendar, baseline: seq<int>)
    requires |baseline| == 12 && AllRowsObeyRules(h, start, calendar, baseline)
    ensures PlausibleWeather(h, baseline)
    decreases |h|
  {
    if |h| > 0 {
      var prior := h[..|h| - 1];
      RulesGivePlausibleWeather(prior, start, calendar, baseline);
      assert h == prior + [h[|h| - 1]];
      ExtendPlausibleWeather(prior, h[|h| - 1], baseline);
    }
  }

  /** Every row the history loop appends obeys the rules against the rows before it. */
  lemma {:induction false} HistoryObeysRules(start: Date, count: nat, lang: string, calendar: Calendar,
                                             baseline: seq<int>, draws: seq<DayDraws>)
    requires |baseline| == 12 && count <= |draws| && ValidDrawSequence(draws)
    ensures AllRowsObeyRules(History(start, count, lang, calendar, baseline, draws), start, calendar, baseline)
    decreases count
  {
    if count > 0 {
      var h := History(start, count, lang, calendar, baseline, draws);
      var prior := History(start, count - 1, lang, calendar, baseline, draws);
      HistoryObeysRules(start, count - 1, lang, calendar, baseline, draws);
      RowOnObeysRules(start, count - 1, lang, calendar, baseline, draws);
      assert h[..|h| - 1] == prior;
    }
  }

  /** Every generated history is well formed, so its days are consecutive. */
  lemma HistoryProperties(start: Date, count: nat, lang: string, calendar: Calendar,
                          baseline: seq<int>, draws: seq<DayDraws>)
    requires |baseline| == 12 && count <= |draws| && ValidDrawSequence(draws)
    ensures WellFormedHistory(History(start, count, lang, calendar, baseline, draws), start, calendar, baseline)
    ensures Consecutive(History(start, count, lang, calendar, baseline, draws))
  {
    var h := History(start, count, lang, calendar, baseline, draws);
    HistoryObeysRules(start, count, lang, calendar, baseline, draws);
    RulesGiveDatedRows(h, start, calendar, baseline);
    RulesGiveTypedRows(h, start, calendar, baseline);
    RulesGiveWarmUpOrders(h, start, calendar, baseline);
    RulesGivePlausibleWeather(h, start, calendar, baseline);
    DatedRowsAreConsecutive(h, start);
  }

  /** The day the steps of the loop body and of `generate_tomorrow` assemble is the computed day. */
  lemma DayOfTheSteps(date: Date, history: seq<Record>, lang: string, calendar: Calendar, baseline: seq<int>,
                      draws: DayDraws, temperature: int, weather: Weather, sales: int, unexpected: string)
    requires |baseline| == 12 && ValidDraws(draws, |history| > 0)
    requires temperature == NextTemperature(history, BaseTemperature(baseline, date), draws.temperatureChange)
    requires weather == DrawCondition(WeatherProbabilities(history, Month(date), temperature), draws.conditionDraw)
    requires (sales, unexpected) == Sales(date, history, temperature, weather, DayType(calendar, date), lang, draws)
    ensures DayOf(date, history, lang, calendar, baseline, draws)
            == Tomorrow(date, Localize(DayName(date), lang), sales, weather, temperature, DayType(calendar, date), unexpected)
  {
  }

  /**
   * The steps the history loop and `generate_tomorrow` share: the localized
   * weekday name, the day type, the weather and the sales of `date` after
   * the rows `history`.
   */
  method ComputeDay(date: Date, history: seq<Record>, lang: string, calendar: Calendar,
                    baseline: seq<int>, draws: DayDraws)
    returns (t: Tomorrow)
    requires |baseline| == 12 && ValidDraws(draws, |history| > 0)
    ensures t == DayOf(date, history, lang, calendar, baseline, draws)
  {
    var dayOfWeek := Localize(DayName(date), lang);
    var dayType := DayType(calendar, date);
    var temperature, weather := GetWeather(date, history, baseline, draws);
    var sales, unexpected := GetSales(date, history, temperature, weather, dayType, lang, draws);
    t := Tomorrow(date, dayOfWeek, sales, weather, temperature, dayType, unexpected);
    DayOfTheSteps(date, history, lang, calendar, baseline, draws, temperature, weather, sales, unexpected);
  }

  /** The computed day after the history so far, resolved with its warm-up order, is the history's next row. */
  lemma NextRow(start: Date, data: seq<Record>, lang: string, calendar: Calendar,
                baseline: seq<int>, draws: seq<DayDraws>, day: Tomorrow, order: int)
    requires |baseline| == 12 && |data| < |draws| && ValidDrawSequence(draws)
    requires data == History(start, |data|, lang, calendar, baseline, draws)
    requires day == DayOf(start + |data|, data, lang, calendar, baseline, draws[|data|])
    requires order == WarmUpOrder(data, day.sales, draws[|data|].orderChange)
    ensures Resolve(day, order) == RowOn(start, |data|, lang, calendar, baseline, draws)
  {
    assert day == PendingOn(start, |data|, lang, calendar, baseline, draws);
  }

  /** The body of the history loop: the next row after the rows `data` built so far. */
  method GenerateDay(start: Date, data: seq<Record>, lang: string, calendar: Calendar,
                     baseline: seq<int>, draws: seq<DayDraws>)
    returns (row: Record)
    requires |baseline| == 12 && |data| < |draws| && ValidDrawSequence(draws)
    requires data == History(start, |data|, lang, calendar, baseline, draws)
    ensures row == RowOn(start, |data|, lang, calendar, baseline, draws)
  {
    var day := ComputeDay(start + |data|, data, lang, calendar, baseline, draws[|data|]);
    var order;
    if |data| > 7 {
      order := data[|data| - 7].sales;
    } else {
      order := day.sales + draws[|data|].orderChange;
    }
    var leftover := Max(order - day.sales, 0);
    var missed := Max(day.sales - order, 0);
    row := Record(day.date, day.dayOfWeek, order, day.sales, leftover, missed,
                  day.weather, day.temperature, day.dayType, day.unexpected);
    ResolveByFields(day, order, leftover, missed);
    NextRow(start, data, lang, calendar, baseline, draws, day, order);
  }

  /**
   * `generate_synthetic_data`: one row per calendar day from `start` to `end`
   * inclusive, each built from the rows before it.
   */
  method GenerateSyntheticData(start: Date, end: Date, lang: string, calendar: Calendar,
                               baseline: seq<int>, draws: seq<DayDraws>)
    returns (data: seq<Record>)
    requires |baseline| == 12 && ValidDrawSequence(draws)
    requires |draws| == if start <= end then end - start + 1 else 0
    ensures data == History(start, |draws|, lang, calendar, baseline, draws)
  {
    data := [];
    var current := start;
    while current <= end
      invariant |data| == current - start
      invariant |data| <= |draws|
      invariant data == History(start, |data|, lang, calendar, baseline, draws)
    {
      var row := GenerateDay(start, data, lang, calendar, baseline, draws);
      data := data + [row];
      current := current + 1;
    }
  }

  /** `generate_tomorrow`: the day after the history's last, with no order yet. */
  method GenerateTomorrow(history: seq<Record>, lang: string, calendar: Calendar,
                          baseline: seq<int>, draws: DayDraws)
    returns (t: Tomorrow)
    requires |history| > 0 && |baseline| == 12 && ValidDraws(draws, true)
    ensures t == TomorrowOf(history, lang, calendar, baseline, draws)
  {
    t := ComputeDay(history[|history| - 1].date + 1, history, lang, calendar, baseline, draws);
  }
}
