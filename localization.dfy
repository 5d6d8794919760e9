/**
 * The two-level translation table of the simulator and its lookup, which
 * falls back to the key itself.  Only the entries the simulation logic
 * relies on are listed: weekday names (both languages map to both), the
 * forecasting model names, the unexpected events and the feedback texts.
 */
module Localization {

  import opened Dates
  import opened Wrappers

  /** The language a lookup uses when none is given. */
  const DefaultLanguage: string := "Deutsch"

  const GermanDayNames: seq<string> :=
    ["Montag", "Dienstag", "Mittwoch", "Donnerstag", "Freitag", "Samstag", "Sonntag"]

  /** The inner level of the table: a text in each of the two languages. */
  datatype Texts = Texts(german: string, english: string) {
    /** The stored text for a language, if the language is one of the two. */
    function In(lang: string): Option<string> {
      if lang == "Deutsch" then Some(german)
      else if lang == "English" then Some(english)
      else None
    }
  }

  /** The translations of one text key. */
  function Entry(key: string): Option<Texts> {
    match key
    case "unexpEventConstruction" => Some(Texts("Baustelle vorm Eingang", "Construction site in front of store"))
    case "unexpEventDemo" => Some(Texts("Demonstration für Kuchenfreunde in der Nähe", "Cake Lovers demonstration nearby"))
    case "unexpEventFlea" => Some(Texts("Flohmarkt in der Straße", "Fleamarket on same street"))
    case "unexpEventOffer" => Some(Texts("Sonderangebot der Konkurrenz", "Special offer at a competitor's store"))
    case "unexpEventStrike" => Some(Texts("Streik im öffentlichen Nahverkehr", "Public transportation strike"))
    case "unexpEventSportsGood" => Some(Texts("Lokalmannschaft gewinnt Spiel", "Local team wins match"))
    case "unexpEventSportsBad" => Some(Texts("Lokalmannschaft verliert Spiel", "Local team loses match"))
    case "unexpEventBirthday" => Some(Texts("Großbestellung für Geburtstagsparty", "Special order for a birthday"))
    case "modelHeu" => Some(Texts("Heuristik", "heuristic"))
    case "modelKNN" => Some(Texts("KNN", "KNN"))
    case "modelXGB" => Some(Texts("XGBoost", "XGBoost"))
    case "Monday" => Some(Texts("Montag", "Monday"))
    case "Tuesday" => Some(Texts("Dienstag", "Tuesday"))
    case "Wednesday" => Some(Texts("Mittwoch", "Wednesday"))
    case "Thursday" => Some(Texts("Donnerstag", "Thursday"))
    case "Friday" => Some(Texts("Freitag", "Friday"))
    case "Saturday" => Some(Texts("Samstag", "Saturday"))
    case "Sunday" => Some(Texts("Sonntag", "Sunday"))
    case "Montag" => Some(Texts("Montag", "Monday"))
    case "Dienstag" => Some(Texts("Dienstag", "Tuesday"))
    case "Mittwoch" => Some(Texts("Mittwoch", "Wednesday"))
    case "Donnerstag" => Some(Texts("Donnerstag", "Thursday"))
    case "Freitag" => Some(Texts("Freitag", "Friday"))
    case "Samstag" => Some(Texts("Samstag", "Saturday"))
    case "Sonntag" => Some(Texts("Sonntag", "Sunday"))
    case "feedbackTooMany" => Some(Texts("Es sind viele Kuchen übrig geblieben. Verschwendung lässt sich reduzieren durch kleinere Bestellungen.", "You ordered too many cakes for today. Consider reducing your order tomorrow."))
    case "feedbackTooFew" => Some(Texts("Es waren zu wenig Kuchen da. KundInnen mussten ohne Kuchen nach Hause gehen.", "You ordered too few cakes for today. Customers left without a purchase."))
    case "feedbackJustRight" => Some(Texts("Gut gemacht! Bestellung und Bedarf waren annähernd gleich.", "Great job! Your order matched demand well."))
    case _ => None
  }

  /**
   * `get_localized_string`: the stored translation of `text` into `lang`,
   * or `text` itself when the key or the language is not in the table.
   */
  function Localize(text: string, lang: string): (r: string)
    ensures r == text || (Entry(text).Some? && Entry(text).value.In(lang) == Some(r))
  {
    match Entry(text)
    case Some(texts) => (match texts.In(lang) case Some(t) => t case None => text)
    case None => text
  }

  /** A key and language the table holds give the stored text. */
  lemma StoredTranslation(text: string, lang: string)
    requires Entry(text).Some? && Entry(text).value.In(lang).Some?
    ensures Localize(text, lang) == Entry(text).value.In(lang).value
  {
  }

  /** An unknown key, or a known key in an unknown language, comes back unchanged. */
  lemma FallbackToKey(text: string, lang: string)
    requires Entry(text).None? || Entry(text).value.In(lang).None?
    ensures Localize(text, lang) == text
  {
  }

  /** Under either language an English weekday name translates to that weekday's name in the language. */
  lemma EnglishWeekdayNames(w: int)
    requires 0 <= w < 7
    ensures Localize(EnglishDayNames[w], "Deutsch") == GermanDayNames[w]
    ensures Localize(EnglishDayNames[w], "English") == EnglishDayNames[w]
  {
    if w == 0 {
    } else if w == 1 {
    } else if w == 2 {
    } else if w == 3 {
    } else if w == 4 {
    } else if w == 5 {
    } else {
    }
  }

  /** Under either language a German weekday name translates to that weekday's name in the language. */
  lemma GermanWeekdayNames(w: int)
    requires 0 <= w < 7
    ensures Localize(GermanDayNames[w], "Deutsch") == GermanDayNames[w]
    ensures Localize(GermanDayNames[w], "English") == EnglishDayNames[w]
  {
    if w == 0 {
    } else if w == 1 {
    } else if w == 2 {
    } else if w == 3 {
    } else if w == 4 {
    } else if w == 5 {
    } else {
    }
  }

  /** A weekday name localized twice into one language reads as localized once. */
  lemma WeekdayLocalizationIdempotent(w: int, english: bool, lang: string)
    requires 0 <= w < 7
    ensures var name := if english then EnglishDayNames[w] else GermanDayNames[w];
            Localize(Localize(name, lang), lang) == Localize(name, lang)
  {
    EnglishWeekdayNames(w);
    GermanWeekdayNames(w);
    var name := if english then EnglishDayNames[w] else GermanDayNames[w];
  }

  /** In every language the three model names differ, so choosing a model by its name is unambiguous. */
  lemma ModelNamesDistinct(lang: string)
    ensures Localize("modelHeu", lang) != Localize("modelKNN", lang)
    ensures Localize("modelHeu", lang) != Localize("modelXGB", lang)
    ensures Localize("modelKNN", lang) != Localize("modelXGB", lang)
  {
  }
}
