/** The decisions of the default update handler, without the user interface:
    which alert to present for a resolved update type, and what tapping one of
    its actions does. */
module UpdateHandler {
  import opened Wrappers
  import opened Types
  import opened Options
  import opened Alerts
  import opened Contexts
  import opened Caching
  import Manager

  /** The two kinds of alert the handler presents. */
  datatype AlertKind = RecommendedAlert | MandatoryAlert

  /** What the handler does with an update. `Complete` calls the completion at
      once and presents nothing; `NoAlert` presents nothing and never calls
      the completion; `Present` shows an alert with one action per option. */
  datatype Decision =
    | Complete
    | NoAlert
    | Present(kind: AlertKind, title: string, text: string, actions: seq<UpdateOption>)

  /** What tapping an action does: the URL it opens, whether it records the
      update as discarded, and whether it calls the completion. */
  datatype Effect = Effect(openUrl: Option<string>, discard: bool, complete: bool)

  const DefaultTitle := "Update"
  const DefaultText := ""

  /** The alert selected for the locale among the context's alerts, if any. */
  function LocalizedAlert(context: UpdateContext, locale: Locale): (r: Option<UpdateAlert>)
    ensures r.Some? <==> context.localizedAlerts.Some? && |context.localizedAlerts.value| > 0
    ensures r.Some? ==> r.value in context.localizedAlerts.value
    ensures context.localizedAlerts.Some? ==> r == SelectAlert(context.localizedAlerts.value, locale)
  {
    match context.localizedAlerts
    case None => None
    case Some(alerts) => SelectAlert(alerts, locale)
  }

  /** The alert title, "Update" when no alert was selected. */
  function AlertTitle(alert: Option<UpdateAlert>): (r: string)
    ensures alert.None? ==> r == DefaultTitle
    ensures alert.Some? ==> r == alert.value.title
  {
    match alert
    case None => DefaultTitle
    case Some(a) => a.title
  }

  /** The alert text, empty when no alert was selected. */
  function AlertText(alert: Option<UpdateAlert>): (r: string)
    ensures alert.None? ==> r == DefaultText
    ensures alert.Some? ==> r == alert.value.text
  {
    match alert
    case None => DefaultText
    case Some(a) => a.text
  }

  /** A recommended update: nothing when the context has no alert; otherwise
      the selected alert with one action per option, in order. */
  function HandleRecommendedUpdate(context: UpdateContext, locale: Locale): (r: Decision)
    ensures r != Complete
    ensures r == NoAlert <==> context.localizedAlerts.None? || |context.localizedAlerts.value| == 0
    ensures r.Present? ==>
      && r.kind == RecommendedAlert
      && LocalizedAlert(context, locale).Some?
      && r.title == LocalizedAlert(context, locale).value.title
      && r.text == LocalizedAlert(context, locale).value.text
      && r.actions == LocalizedAlert(context, locale).value.options
  {
    if context.localizedAlerts.None? || |context.localizedAlerts.value| == 0 then NoAlert
    else
      var alert := LocalizedAlert(context, locale);
      var actions := if alert.Some? then alert.value.options else [];
      Present(RecommendedAlert, AlertTitle(alert), AlertText(alert), actions)
  }

  /** A mandatory update: the selected alert with its first update-action
      option as the only action; nothing when there is no such option. */
  function HandleMandatoryUpdate(context: UpdateContext, locale: Locale): (r: Decision)
    ensures r != Complete
    ensures r.Present? <==>
      LocalizedAlert(context, locale).Some? && UpdateActionOption(LocalizedAlert(context, locale).value.options).Some?
    ensures r.Present? ==>
      && LocalizedAlert(context, locale).Some?
      && r.kind == MandatoryAlert
      && r.title == LocalizedAlert(context, locale).value.title
      && r.text == LocalizedAlert(context, locale).value.text
      && |r.actions| == 1
      && Some(r.actions[0]) == UpdateActionOption(LocalizedAlert(context, locale).value.options)
  {
    var alert := LocalizedAlert(context, locale);
    var title := AlertTitle(alert);
    var text := AlertText(alert);
    var updateOption := if alert.Some? then UpdateActionOption(alert.value.options) else None;
    if updateOption.None? then NoAlert
    else Present(MandatoryAlert, title, text, [updateOption.value])
  }

  /** Dispatch on the resolved update type. */
  function UpdateAvailable(updateType: UpdateType, context: UpdateContext, locale: Locale): (r: Decision)
    ensures r == Complete <==> updateType == Ignore || updateType == Discarded
    ensures r.Present? && r.kind == RecommendedAlert ==> updateType == Recommended
    ensures r.Present? && r.kind == MandatoryAlert ==> updateType == Mandatory
    ensures updateType == Recommended ==> r == HandleRecommendedUpdate(context, locale)
    ensures updateType == Mandatory ==> r == HandleMandatoryUpdate(context, locale)
  {
    match updateType
    case Ignore => Complete
    case Discarded => Complete
    case Recommended => HandleRecommendedUpdate(context, locale)
    case Mandatory => HandleMandatoryUpdate(context, locale)
  }

  /** Tapping an action built from an option: the update action only opens
      the update URL; any other option discards the update when the context
      is a recommended, show-once update, and then calls the completion. */
  function Tap(context: UpdateContext, option: UpdateOption): (r: Effect)
    ensures option.isUpdateAction ==> r.openUrl == Some(context.updateUrl) && !r.discard && !r.complete
    ensures !option.isUpdateAction ==> r.openUrl.None? && r.complete
    ensures r.discard <==>
      !option.isUpdateAction && context.updateType == Recommended && context.alertFrequency == Once
  {
    if option.isUpdateAction then Effect(Some(context.updateUrl), false, false)
    else Effect(None, context.updateType == Recommended && context.alertFrequency == Once, true)
  }

  /** The cache after an effect: a discard is recorded through the manager. */
  function ApplyEffect(cache: ConfigurationCache, context: UpdateContext, effect: Effect): (r: ConfigurationCache)
    ensures r.lastLoadedConfiguration == cache.lastLoadedConfiguration
    ensures effect.discard ==> LastDiscardedVersion(r) == Some(context.availableVersion)
    ensures !effect.discard ==> r == cache
  {
    if effect.discard then Manager.DiscardRecommendedUpdate(cache, context) else cache
  }

  /** No action of a mandatory alert ever calls the completion or discards:
      its one action is an update action, which only opens the update URL. */
  lemma MandatoryActionsNeverComplete(context: UpdateContext, locale: Locale)
    ensures var decision := HandleMandatoryUpdate(context, locale);
      decision.Present? ==> forall action | action in decision.actions ::
        && action.isUpdateAction
        && Tap(context, action) == Effect(Some(context.updateUrl), false, false)
  {
  }

  /** A context that satisfies the decoder's alert invariant for the locale
      (as every successfully decoded one does) never leaves a recommended or
      mandatory update without an alert: the handler presents the selected
      alert, and it offers an update action. */
  lemma InvariantContextPresentsAlert(context: UpdateContext, locale: Locale)
    requires AlertInvariant(context, locale)
    ensures RequiresAlert(context.updateType) ==>
      var decision := UpdateAvailable(context.updateType, context, locale);
      && decision.Present?
      && UpdateActionOption(decision.actions).Some?
  {
  }

  /** Declining a recommended, show-once update suppresses it: after the
      discard is recorded, requesting the same payload resolves as discarded
      and the handler completes without presenting anything. */
  lemma DeclineThenRequestIsDiscarded(cache: ConfigurationCache, settings: Manager.Settings,
                                      deserializer: Bytes -> Result<Manager.Configuration, Fault>,
                                      describe: Error -> string, data: Bytes, option: UpdateOption, locale: Locale)
    requires deserializer(data).Success?
    requires deserializer(data).value.appUpdate.updateType == Recommended
    requires deserializer(data).value.appUpdate.alertFrequency == Once
    requires !option.isUpdateAction
    ensures
      var context := deserializer(data).value.appUpdate;
      var declined := ApplyEffect(cache, context, Tap(context, option));
      var step := Manager.Request(declined, settings, Manager.Fetched(data), deserializer, describe);
      && step.result.Success?
      && step.result.value.contextualUpdateType == Discarded
      && UpdateAvailable(step.result.value.contextualUpdateType, context, locale) == Complete
  {
  }
}
