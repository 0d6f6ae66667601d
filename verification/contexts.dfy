/** The update context of a configuration: where and which version to update
    to, how urgently, and the localized alerts; decoded from a raw record and
    validated against the current locale. */
module Contexts {
  import opened Wrappers
  import opened Types
  import opened Options
  import opened Alerts

  /** A decoded update context. */
  datatype UpdateContext = UpdateContext(
    updateUrl: string,
    availableVersion: string,
    alertFrequency: AlertFrequency,
    updateType: UpdateType,
    localizedAlerts: Option<seq<UpdateAlert>>)

  /** An update context as it appears in the raw configuration, keyed by the
      raw key names (`url`, `frequency`, `availableVersion`, `type`,
      `localizedStrings`); every key may be absent, and an entry of the alert
      array may be null (`None`). */
  datatype RawContext = RawContext(
    url: Option<string>,
    frequency: Option<string>,
    availableVersion: Option<string>,
    updateType: Option<string>,
    localizedStrings: Option<seq<Option<RawAlert>>>)

  const NoAlertMessage := "Recommended and Mandatory updates require at least one update alert with options."
  const NoUpdateActionMessage := "Recommended and Mandatory updates require their update options to define an update action."

  /** Update types whose context must carry a usable alert. */
  predicate RequiresAlert(t: UpdateType) {
    t == Recommended || t == Mandatory
  }

  /** The invariant of a decoded context: a recommended or mandatory update
      has a non-empty alert list, and the alert selected for the locale offers
      an update action. */
  predicate AlertInvariant(ctx: UpdateContext, locale: Locale) {
    RequiresAlert(ctx.updateType) ==>
      && ctx.localizedAlerts.Some?
      && |ctx.localizedAlerts.value| > 0
      && HasUpdateAction(SelectAlert(ctx.localizedAlerts.value, locale).value.options)
  }

  /** Drops the `None` entries of a sequence and keeps the rest in order. */
  function CompactMap<T(!new)>(s: seq<Option<T>>): (r: seq<T>)
    ensures |r| <= |s|
    ensures forall x :: x in r <==> Some(x) in s
  {
    if |s| == 0 then []
    else if s[0].None? then CompactMap(s[1..])
    else [s[0].value] + CompactMap(s[1..])
  }

  /** Dropping `None` entries distributes over concatenation; together with
      its value on one-element sequences this pins down the order of the kept
      entries. */
  lemma {:induction false} CompactMapAppend<T(!new)>(a: seq<Option<T>>, b: seq<Option<T>>)
    ensures CompactMap(a + b) == CompactMap(a) + CompactMap(b)
    ensures CompactMap<T>([None]) == []
    ensures forall x: T :: CompactMap([Some(x)]) == [x]
  {
    if |a| > 0 {
      assert (a + b)[1..] == a[1..] + b;
      CompactMapAppend(a[1..], b);
    } else {
      assert a + b == b;
    }
  }

  /** Decodes the raw alert array element by element; a null entry stays
      `None`, and the first non-null entry that fails to decode makes the
      whole array fail with its error. */
  function DecodeAlertEntries(entries: seq<Option<RawAlert>>): (r: Result<seq<Option<UpdateAlert>>, Fault>)
    ensures r.Success? <==>
      forall i | 0 <= i < |entries| :: entries[i].Some? ==> DecodeAlert(entries[i].value).Success?
    ensures r.Success? ==> |r.value| == |entries|
    ensures r.Success? ==> forall i | 0 <= i < |entries| ::
      && (entries[i].None? <==> r.value[i].None?)
      && (entries[i].Some? ==> DecodeAlert(entries[i].value) == Success(r.value[i].value))
    ensures r.Failure? ==> exists i | 0 <= i < |entries| ::
      && entries[i].Some?
      && DecodeAlert(entries[i].value) == Failure(r.error)
      && forall j | 0 <= j < i :: entries[j].Some? ==> DecodeAlert(entries[j].value).Success?
  {
    if |entries| == 0 then Success([])
    else
      var head :- if entries[0].None? then Success(None)
                  else match DecodeAlert(entries[0].value)
                       case Success(a) => Success(Some(a))
                       case Failure(e) => Failure(e);
      var tail := DecodeAlertEntries(entries[1..]);
      assert forall j | 0 <= j < |entries| - 1 :: entries[1..][j] == entries[j + 1];
      if tail.Failure? then Failure(tail.error)
      else Success([head] + tail.value)
  }

  /** Reads a required string key. */
  function Required(value: Option<string>, key: string): (r: Result<string, Fault>)
    ensures value.None? <==> r == Failure(MissingKey(key))
    ensures value.Some? ==> r == Success(value.value)
  {
    if value.None? then Failure(MissingKey(key)) else Success(value.value)
  }

  /** Reads the optional `frequency` key: absent means `always`, and a string
      that names no frequency is rejected. */
  function DecodeFrequency(raw: Option<string>): (r: Result<AlertFrequency, Fault>)
    ensures raw.None? ==> r == Success(Always)
    ensures raw.Some? ==> (r.Success? <==> AlertFrequencyFromRaw(raw.value).Some?)
    ensures raw.Some? && r.Success? ==> AlertFrequencyRawValue(r.value) == raw.value
    ensures r.Failure? ==> r.error == Malformed("frequency")
  {
    match raw
    case None => Success(Always)
    case Some(s) =>
      match AlertFrequencyFromRaw(s)
      case Some(f) => Success(f)
      case None => Failure(Malformed("frequency"))
  }

  /** Reads the optional `type` key: absent means `ignore`, and a string that
      names no update type is rejected. */
  function DecodeUpdateType(raw: Option<string>): (r: Result<UpdateType, Fault>)
    ensures raw.None? ==> r == Success(Ignore)
    ensures raw.Some? ==> (r.Success? <==> UpdateTypeFromRaw(raw.value).Some?)
    ensures raw.Some? && r.Success? ==> UpdateTypeRawValue(r.value) == raw.value
    ensures r.Failure? ==> r.error == Malformed("type")
  {
    match raw
    case None => Success(Ignore)
    case Some(s) =>
      match UpdateTypeFromRaw(s)
      case Some(t) => Success(t)
      case None => Failure(Malformed("type"))
  }

  /** Reads the optional alert array and drops its null entries. */
  function DecodeAlerts(raw: Option<seq<Option<RawAlert>>>): (r: Result<Option<seq<UpdateAlert>>, Fault>)
    ensures raw.None? ==> r == Success(None)
    ensures raw.Some? && r.Success? ==>
      && DecodeAlertEntries(raw.value).Success?
      && r.value == Some(CompactMap(DecodeAlertEntries(raw.value).value))
    ensures raw.Some? ==> (r.Failure? <==> DecodeAlertEntries(raw.value).Failure?)
    ensures raw.Some? && r.Failure? ==> r.error == DecodeAlertEntries(raw.value).error
    ensures r.Failure? ==> !r.error.Library?
  {
    match raw
    case None => Success(None)
    case Some(entries) =>
      var decoded :- DecodeAlertEntries(entries);
      Success(Some(CompactMap(decoded)))
  }

  /** Reads every key of the context in the order the decoder does (`url`,
      `frequency`, `availableVersion`, `type`, `localizedStrings`), applying
      the defaults, without validating the alerts. */
  function DecodeFields(raw: RawContext): (r: Result<UpdateContext, Fault>)
    ensures raw.url.None? ==> r == Failure(MissingKey("url"))
    ensures raw.url.Some? && DecodeFrequency(raw.frequency).Failure? ==>
      r == Failure(DecodeFrequency(raw.frequency).error)
    ensures raw.url.Some? && DecodeFrequency(raw.frequency).Success? && raw.availableVersion.None? ==>
      r == Failure(MissingKey("availableVersion"))
    ensures raw.url.Some? && DecodeFrequency(raw.frequency).Success? && raw.availableVersion.Some? &&
            DecodeUpdateType(raw.updateType).Failure? ==>
      r == Failure(DecodeUpdateType(raw.updateType).error)
    ensures raw.url.Some? && DecodeFrequency(raw.frequency).Success? && raw.availableVersion.Some? &&
            DecodeUpdateType(raw.updateType).Success? && DecodeAlerts(raw.localizedStrings).Failure? ==>
      r == Failure(DecodeAlerts(raw.localizedStrings).error)
    ensures r.Failure? ==> !r.error.Library?
    ensures r.Success? <==>
      && raw.url.Some? && raw.availableVersion.Some?
      && DecodeFrequency(raw.frequency).Success?
      && DecodeUpdateType(raw.updateType).Success?
      && DecodeAlerts(raw.localizedStrings).Success?
    ensures r.Success? ==>
      && r.value.updateUrl == raw.url.value
      && r.value.availableVersion == raw.availableVersion.value
      && r.value.alertFrequency == DecodeFrequency(raw.frequency).value
      && r.value.updateType == DecodeUpdateType(raw.updateType).value
      && r.value.localizedAlerts == DecodeAlerts(raw.localizedStrings).value
  {
    var url :- Required(raw.url, "url");
    var frequency :- DecodeFrequency(raw.frequency);
    var version :- Required(raw.availableVersion, "availableVersion");
    var updateType :- DecodeUpdateType(raw.updateType);
    var alerts :- DecodeAlerts(raw.localizedStrings);
    Success(UpdateContext(url, version, frequency, updateType, alerts))
  }

  /** Decodes and validates an update context for the given locale. Decoding
      errors come first and are never validation errors; a recommended or
      mandatory update then fails validation when it has no alert, or when the
      alert selected for the locale has no update action. Other update types
      are not validated. */
  function DecodeContext(raw: RawContext, locale: Locale): (r: Result<UpdateContext, Fault>)
    ensures DecodeFields(raw).Failure? ==> r == DecodeFields(raw)
    ensures DecodeFields(raw).Success? ==>
      (r.Success? <==> AlertInvariant(DecodeFields(raw).value, locale))
    ensures r.Success? ==> r == DecodeFields(raw) && AlertInvariant(r.value, locale)
    ensures r.Failure? && r.error.Library? ==>
      && DecodeFields(raw).Success?
      && RequiresAlert(DecodeFields(raw).value.updateType)
      && r.error.error.Validation?
    ensures DecodeFields(raw).Success? && !RequiresAlert(DecodeFields(raw).value.updateType) ==>
      r.Success?
    ensures DecodeFields(raw).Success? && RequiresAlert(DecodeFields(raw).value.updateType) &&
            (DecodeFields(raw).value.localizedAlerts.None? || DecodeFields(raw).value.localizedAlerts == Some([])) ==>
      r == Failure(Library(Validation(NoAlertMessage)))
    ensures DecodeFields(raw).Success? && RequiresAlert(DecodeFields(raw).value.updateType) &&
            DecodeFields(raw).value.localizedAlerts.Some? && |DecodeFields(raw).value.localizedAlerts.value| > 0 &&
            !HasUpdateAction(SelectAlert(DecodeFields(raw).value.localizedAlerts.value, locale).value.options) ==>
      r == Failure(Library(Validation(NoUpdateActionMessage)))
  {
    var ctx :- DecodeFields(raw);
    if !RequiresAlert(ctx.updateType) then Success(ctx)
    else
      var selected := if ctx.localizedAlerts.None? then None else SelectAlert(ctx.localizedAlerts.value, locale);
      if selected.None? then Failure(Library(Validation(NoAlertMessage)))
      else if UpdateActionOption(selected.value.options).None? then Failure(Library(Validation(NoUpdateActionMessage)))
      else Success(ctx)
  }

  /** Decoding outcomes the library's own test cases describe: a missing
      `url` is a missing-key error, and a missing `type` means `ignore`. */
  lemma DecodeContextExamples()
    ensures
      var locale := Locale(Some("en"), Some("US"));
      && DecodeContext(RawContext(None, None, Some("1.2.3"), Some("ignore"), None), locale)
           == Failure(MissingKey("url"))
      && DecodeContext(RawContext(Some("http://nohost.com"), None, Some("1.2.3"), None, None), locale)
           == Success(UpdateContext("http://nohost.com", "1.2.3", Always, Ignore, None))
  {
  }

  /** A mandatory update without alerts fails validation; an alert without
      `options` fails the whole decoding with a missing-key error, not a
      validation error; an alert whose only option is not the update action
      fails validation. */
  lemma DecodeContextAlertExamples()
    ensures
      var locale := Locale(Some("en"), Some("US"));
      var noOptions := RawAlert(None, None, Some("title"), Some("text"), None);
      var noAction := RawAlert(None, None, Some("title"), Some("message"), Some([RawOption(Some("option_1"), None)]));
      && DecodeContext(RawContext(Some("http://nohost.com"), None, Some("1.2.3"), Some("mandatory"), None), locale)
           == Failure(Library(Validation(NoAlertMessage)))
      && DecodeContext(RawContext(Some("http://nohost.com"), None, Some("1.2.3"), Some("mandatory"),
                                  Some([Some(noOptions)])), locale)
           == Failure(MissingKey("options"))
      && DecodeContext(RawContext(Some("http://nohost.com"), None, Some("1.2.3"), Some("mandatory"),
                                  Some([Some(noAction)])), locale)
           == Failure(Library(Validation(NoUpdateActionMessage)))
  {
    var noAction := RawAlert(None, None, Some("title"), Some("message"), Some([RawOption(Some("option_1"), None)]));
    var decoded := DecodeAlert(noAction).value;
    assert CompactMap([Some(decoded)]) == [decoded];
  }

  /** Null entries of the alert array are dropped, and a recommended update
      whose remaining alert offers an update action decodes. */
  lemma DecodeContextNullEntriesExample()
    ensures
      var locale := Locale(Some("en"), Some("US"));
      var withAction := RawAlert(Some("en"), None, Some("title"), Some("text"),
                                 Some([RawOption(Some("ok"), None), RawOption(Some("update"), Some(true))]));
      var r := DecodeContext(RawContext(Some("http://nohost.com"), Some("once"), Some("1.2.3"), Some("recommended"),
                                        Some([None, Some(withAction), None])), locale);
      && r.Success?
      && r.value.localizedAlerts == Some([DecodeAlert(withAction).value])
  {
    var locale := Locale(Some("en"), Some("US"));
    var withAction := RawAlert(Some("en"), None, Some("title"), Some("text"),
                               Some([RawOption(Some("ok"), None), RawOption(Some("update"), Some(true))]));
    var decoded := DecodeAlert(withAction).value;
    assert decoded.options[1].isUpdateAction;
    var entries: seq<Option<UpdateAlert>> := [None, Some(decoded), None];
    assert entries[1..] == [Some(decoded), None] && entries[1..][1..] == [None];
    assert CompactMap(entries[1..][1..]) == [];
    assert CompactMap(entries) == [decoded];
    assert SelectAlert([decoded], locale) == Some(decoded);
  }
}
