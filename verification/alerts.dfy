/** Update alerts: the localized title, text and options of an update dialog,
    their decoding from a raw record, and the selection of the alert that best
    matches a locale. */
module Alerts {
  import opened Wrappers
  import opened Types
  import opened Options

  /** One localized update alert. */
  datatype UpdateAlert = UpdateAlert(
    languageCode: Option<string>,
    regionCode: Option<string>,
    title: string,
    text: string,
    options: seq<UpdateOption>)

  /** An alert as it appears in the raw configuration: every key may be absent. */
  datatype RawAlert = RawAlert(
    languageCode: Option<string>,
    regionCode: Option<string>,
    title: Option<string>,
    text: Option<string>,
    options: Option<seq<RawOption>>)

  /** The locale alerts are matched against; both codes may be unknown. */
  datatype Locale = Locale(languageCode: Option<string>, regionCode: Option<string>)

  /** Decodes one alert. `languageCode` and `regionCode` are optional; `title`,
      `text` and `options` are required and read in that order, so the first
      missing one is the key reported. */
  function DecodeAlert(raw: RawAlert): (r: Result<UpdateAlert, Fault>)
    ensures raw.title.None? ==> r == Failure(MissingKey("title"))
    ensures raw.title.Some? && raw.text.None? ==> r == Failure(MissingKey("text"))
    ensures raw.title.Some? && raw.text.Some? && raw.options.None? ==> r == Failure(MissingKey("options"))
    ensures raw.title.Some? && raw.text.Some? && raw.options.Some? && DecodeOptions(raw.options.value).Failure? ==>
      r == Failure(DecodeOptions(raw.options.value).error)
    ensures r.Failure? ==> !r.error.Library?
    ensures r.Success? <==>
      raw.title.Some? && raw.text.Some? && raw.options.Some? && DecodeOptions(raw.options.value).Success?
    ensures r.Success? ==>
      && r.value.languageCode == raw.languageCode
      && r.value.regionCode == raw.regionCode
      && r.value.title == raw.title.value
      && r.value.text == raw.text.value
      && DecodeOptions(raw.options.value) == Success(r.value.options)
  {
    if raw.title.None? then Failure(MissingKey("title"))
    else if raw.text.None? then Failure(MissingKey("text"))
    else if raw.options.None? then Failure(MissingKey("options"))
    else
      var options :- DecodeOptions(raw.options.value);
      assert DecodeOptions(raw.options.value).Success?;
      Success(UpdateAlert(raw.languageCode, raw.regionCode, raw.title.value, raw.text.value, options))
  }

  /** The language an alert must carry to match the locale; a locale without
      a language code is treated as English. */
  function TargetLanguage(locale: Locale): (lang: string)
    ensures locale.languageCode.Some? ==> lang == locale.languageCode.value
    ensures locale.languageCode.None? ==> lang == "en"
  {
    locale.languageCode.GetOr("en")
  }

  /** The alert is written in the locale's target language. */
  predicate LanguageMatch(alert: UpdateAlert, locale: Locale) {
    alert.languageCode == Some(TargetLanguage(locale))
  }

  /** The alert matches both the locale's language and its region; an alert
      without a region, or a locale without one, never matches exactly. */
  predicate ExactMatch(alert: UpdateAlert, locale: Locale) {
    && LanguageMatch(alert, locale)
    && alert.regionCode.Some?
    && locale.regionCode == alert.regionCode
  }

  /** Index `k` holds the last language match among the first `n` alerts. */
  ghost predicate IsLastLanguageMatch(alerts: seq<UpdateAlert>, locale: Locale, k: int, n: int) {
    && 0 <= k < n <= |alerts|
    && LanguageMatch(alerts[k], locale)
    && forall j | k < j < n :: !LanguageMatch(alerts[j], locale)
  }

  /** The first element of the collection, if any. */
  function First(alerts: seq<UpdateAlert>): (r: Option<UpdateAlert>)
    ensures r.None? <==> |alerts| == 0
    ensures r.Some? ==> r.value == alerts[0]
  {
    if |alerts| == 0 then None else Some(alerts[0])
  }

  /** The single pass of the selector, from index `i` on. `languageMatch` is
      the last language match seen before `i`, and no exact match occurs
      before `i`. An exact match ends the pass at once; otherwise the pass
      ends with the last language match, or with the first element. */
  function Scan(alerts: seq<UpdateAlert>, locale: Locale, i: nat, languageMatch: Option<UpdateAlert>)
    : (r: Option<UpdateAlert>)
    requires i <= |alerts|
    requires forall j | 0 <= j < i :: !ExactMatch(alerts[j], locale)
    requires languageMatch.None? ==> forall j | 0 <= j < i :: !LanguageMatch(alerts[j], locale)
    requires languageMatch.Some? ==>
      exists k :: IsLastLanguageMatch(alerts, locale, k, i) && alerts[k] == languageMatch.value
    ensures r.None? <==> |alerts| == 0
    ensures r.Some? ==> r.value in alerts
    ensures forall e | i <= e < |alerts| && ExactMatch(alerts[e], locale) ::
      (forall j | i <= j < e :: !ExactMatch(alerts[j], locale)) ==> r == Some(alerts[e])
    ensures (forall e | i <= e < |alerts| :: !ExactMatch(alerts[e], locale)) ==>
      forall k | IsLastLanguageMatch(alerts, locale, k, |alerts|) :: r == Some(alerts[k])
    ensures (forall e | 0 <= e < |alerts| :: !LanguageMatch(alerts[e], locale)) ==> r == First(alerts)
    decreases |alerts| - i
  {
    if i == |alerts| then
      if languageMatch.Some? then languageMatch else First(alerts)
    else if LanguageMatch(alerts[i], locale) then
      if alerts[i].regionCode.Some? && alerts[i].regionCode == locale.regionCode then
        Some(alerts[i])
      else
        assert IsLastLanguageMatch(alerts, locale, i, i + 1);
        Scan(alerts, locale, i + 1, Some(alerts[i]))
    else
      LastLanguageMatchExtends(alerts, locale, i, languageMatch);
      Scan(alerts, locale, i + 1, languageMatch)
  }

  /** A non-matching alert at index `i` keeps the last language match of the
      first `i` alerts the last one of the first `i + 1`. */
  lemma LastLanguageMatchExtends(alerts: seq<UpdateAlert>, locale: Locale, i: nat, languageMatch: Option<UpdateAlert>)
    requires i < |alerts| && !LanguageMatch(alerts[i], locale)
    requires languageMatch.Some? ==>
      exists k :: IsLastLanguageMatch(alerts, locale, k, i) && alerts[k] == languageMatch.value
    ensures languageMatch.Some? ==>
      exists k :: IsLastLanguageMatch(alerts, locale, k, i + 1) && alerts[k] == languageMatch.value
  {
    if languageMatch.Some? {
      var k :| IsLastLanguageMatch(alerts, locale, k, i) && alerts[k] == languageMatch.value;
      assert IsLastLanguageMatch(alerts, locale, k, i + 1);
    }
  }

  /** The alert of the collection that best matches the locale: the first
      alert matching language and region, else the last alert matching the
      language, else the first alert; `None` only for an empty collection. */
  function SelectAlert(alerts: seq<UpdateAlert>, locale: Locale): (r: Option<UpdateAlert>)
    ensures r.None? <==> |alerts| == 0
    ensures r.Some? ==> r.value in alerts
    ensures forall e | 0 <= e < |alerts| && ExactMatch(alerts[e], locale) ::
      (forall j | 0 <= j < e :: !ExactMatch(alerts[j], locale)) ==> r == Some(alerts[e])
    ensures (forall e | 0 <= e < |alerts| :: !ExactMatch(alerts[e], locale)) ==>
      forall k | IsLastLanguageMatch(alerts, locale, k, |alerts|) :: r == Some(alerts[k])
    ensures locale.regionCode.None? ==>
      forall k | IsLastLanguageMatch(alerts, locale, k, |alerts|) :: r == Some(alerts[k])
    ensures (forall e | 0 <= e < |alerts| :: !LanguageMatch(alerts[e], locale)) ==> r == First(alerts)
  {
    Scan(alerts, locale, 0, None)
  }

  /** The selection rules on small collections of German, German-for-Germany
      and English alerts. With a German locale for France both German alerts
      match the language, so the later of the two is chosen. */
  lemma SelectAlertExamples()
    ensures
      var de := UpdateAlert(Some("de"), None, "Update", "", []);
      var deDE := UpdateAlert(Some("de"), Some("DE"), "Aktualisierung", "", []);
      var en := UpdateAlert(Some("en"), None, "Update", "", []);
      && SelectAlert([de, deDE], Locale(Some("de"), Some("DE"))) == Some(deDE)
      && SelectAlert([de, deDE], Locale(Some("de"), Some("FR"))) == Some(deDE)
      && SelectAlert([deDE, de], Locale(Some("de"), Some("FR"))) == Some(de)
      && SelectAlert([de, deDE], Locale(Some("en"), Some("US"))) == Some(de)
      && SelectAlert([de, en], Locale(None, None)) == Some(en)
  {
    var de := UpdateAlert(Some("de"), None, "Update", "", []);
    var deDE := UpdateAlert(Some("de"), Some("DE"), "Aktualisierung", "", []);
    var en := UpdateAlert(Some("en"), None, "Update", "", []);
    assert IsLastLanguageMatch([de, deDE], Locale(Some("de"), Some("FR")), 1, 2);
    assert IsLastLanguageMatch([deDE, de], Locale(Some("de"), Some("FR")), 1, 2);
    assert IsLastLanguageMatch([de, en], Locale(None, None), 1, 2);
  }
}
