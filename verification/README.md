# RemoteConfiguration update resolution, in Dafny

This project models the update-resolution core of the RemoteConfiguration
Swift library and proves properties of that model. A client app uses the
library to learn its current remote configuration and whether the user must
be told about an app update. Everything is written as pure functions over
immutable datatypes. The manager's persistent cache is an explicit record:
each operation takes it and returns the new one.

- `Types` (`types.dfy`): the update types, alert frequencies, the library's
  error enumeration and the persisted configuration context, plus raw-value
  decoding of the two enumerations. Swift errors raised while decoding are
  `Fault.MissingKey` (a required key absent or null) and `Fault.Malformed`
  (a value the decoder rejects).
- `Options` (`options.dfy`): an update option, its decoding (`title`
  required, `isUpdateAction` defaults to false), and `UpdateActionOption`,
  the first option that triggers the update.
- `Alerts` (`alerts.dfy`): an update alert, its decoding, and the locale
  selector. The selector makes one pass (`Scan`) and returns:
  1. the first alert matching both language and region;
  2. otherwise the last alert matching the language;
  3. otherwise the first alert.

  A locale without a language code counts as `"en"`.
- `Contexts` (`contexts.dfy`): the update context. It is decoded from a raw
  record whose keys may be absent, with the decoder's defaults and key
  order. Null alert entries are dropped. A recommended or mandatory update
  is then validated against the current locale, which is a parameter.
- `Caching` (`caching.dfy`): the configuration cache, as two separately
  keyed entries:
  - the last live configuration's bytes;
  - the stored configuration context, which may be absent or undecodable.
- `Manager` (`manager.dfy`): a request as a step function. Its inputs are
  the cache, the settings (`ignoreCache`, the optional bundle and bundle
  file name), the provider's outcome, the deserializer and the error
  description. It returns the result and the new cache. This module also
  holds:
  - the fallback chain: live fetch, then cache, then bundle;
  - the cache-write rule;
  - the discard policy;
  - `loadFromCache`, `discardRecommendedUpdate`, `clearCache` and
    bundle-name normalisation.
- `UpdateHandler` (`update_handler.dfy`): the default update handler without
  UIKit.
  - `UpdateAvailable` maps an update type, a context and a locale to one of
    three decisions: complete at once, show no alert, or present an alert
    with a given list of actions.
  - `Tap` gives the effect of tapping an action.
  - `ApplyEffect` records a discard through the manager.

The locale selector keeps the *last* language match, not the first
(`Sources/RemoteConfiguration/Core/UpdateAlert.swift:57-61`): each alert in
the target language overwrites the remembered match until an exact
language-and-region match returns early. With the alerts German and then
German-for-Germany, and a German locale for France, the selector returns
the German-for-Germany alert. `Alerts.SelectAlertExamples` proves this case.

The comment at `Sources/RemoteConfiguration/Core/UpdateContext.swift:72`
says the alert entries are decoded "allowing some to fail". The code does
not keep that promise. It decodes the array as `[UpdateAlert?]` and
compacts it, so only `null` entries are dropped. An entry that is present
but malformed, such as one without `options`, fails the whole decoding.
The model follows the code (`Contexts.DecodeAlertEntries`,
`Contexts.DecodeContextAlertExamples`).

The decoder accepts the raw value `"discarded"` for `type`, because
`UpdateType` declares it. The manager then resolves it as `discarded` but
still resets the discard record. The contract of `Manager.Deserialize`
states this case exactly.

## Model

| member | source | states |
|---|---|---|
| Types.UpdateTypeFromRaw | Sources/RemoteConfiguration/Core/UpdateType.swift:9-14 | a decoded type encodes back to the given string; no type encodes to a rejected string |
| Types.UpdateTypeRoundTrip | Sources/RemoteConfiguration/Core/UpdateType.swift:9-14 | every update type decodes back from its raw value |
| Types.AlertFrequencyFromRaw | Sources/RemoteConfiguration/Core/AlertFrequency.swift:8-11 | a decoded frequency encodes back to the given string; no frequency encodes to a rejected string |
| Types.AlertFrequencyRoundTrip | Sources/RemoteConfiguration/Core/AlertFrequency.swift:8-11 | every frequency decodes back from its raw value |
| Options.MakeOption | Sources/RemoteConfiguration/Core/UpdateOption.swift:26-29 | the memberwise initializer stores exactly the given title and flag |
| Options.DecodeOption | Sources/RemoteConfiguration/Core/UpdateOption.swift:43-47 | fails with a missing `title` key iff the title is absent; otherwise keeps the title, and the option is the update action iff the raw flag is present and true |
| Options.DecodeOptions | Sources/RemoteConfiguration/Core/UpdateAlert.swift:36 | the array decodes iff every option does, element by element and in order; otherwise it fails with the error of the first failing option |
| Options.UpdateActionOption | Sources/RemoteConfiguration/Core/UpdateOption.swift:50-57 | none iff no option is the update action; otherwise an element of the sequence that is the update action, preceded by no other update action |
| Options.UpdateActionOptionIsFirst | Sources/RemoteConfiguration/Core/UpdateOption.swift:55-57 | the result is the option at the first update-action index, whatever follows it |
| Alerts.DecodeAlert | Sources/RemoteConfiguration/Core/UpdateAlert.swift:21-37 | language and region codes are optional and kept; `title`, `text` and `options` are required in that order and the first missing one is reported; when all three are present but an option fails, that option's error is rethrown; failures are never validation errors |
| Alerts.Scan | Sources/RemoteConfiguration/Core/UpdateAlert.swift:56-65 | the single pass, from any position consistent with what was seen so far, returns the first later exact match, else the last language match, else the first element, and none only for an empty collection |
| Alerts.TargetLanguage | Sources/RemoteConfiguration/Core/UpdateAlert.swift:52 | the target language is the locale's language code, and "en" when the locale has none |
| Alerts.SelectAlert | Sources/RemoteConfiguration/Core/UpdateAlert.swift:49-66 | none iff the collection is empty; the result is an element; the first language+region match wins; with no such match (in particular for a locale without region) the last language match wins; with no language match the first element is returned |
| Alerts.SelectAlertExamples | Sources/RemoteConfiguration/Core/UpdateAlert.swift:49-66 | exact match, last language match over an earlier one, first element, and the `"en"` default on concrete alerts |
| Contexts.AlertInvariant | Sources/RemoteConfiguration/Core/UpdateContext.swift:77-89 | what validation demands of a recommended or mandatory context: a non-empty alert list whose alert selected for the locale has an update-action option; ignore and discarded contexts always satisfy it |
| Contexts.CompactMap | Sources/RemoteConfiguration/Core/UpdateContext.swift:74 | drops null entries: no longer than the input, and holds exactly the present values |
| Contexts.CompactMapAppend | Sources/RemoteConfiguration/Core/UpdateContext.swift:74 | dropping nulls distributes over concatenation and keeps a single present value, so the kept entries stay in their order |
| Contexts.DecodeAlertEntries | Sources/RemoteConfiguration/Core/UpdateContext.swift:73 | succeeds iff every non-null entry decodes, keeping null positions and each decoded alert in place; otherwise fails with the first failing non-null entry's error |
| Contexts.Required | Sources/RemoteConfiguration/Core/UpdateContext.swift:67-69 | a required key fails with its missing-key error iff absent, and yields its value otherwise |
| Contexts.DecodeFrequency | Sources/RemoteConfiguration/Core/UpdateContext.swift:68 | an absent `frequency` is `always`; a present one decodes iff it names a frequency, and is malformed otherwise |
| Contexts.DecodeUpdateType | Sources/RemoteConfiguration/Core/UpdateContext.swift:70 | an absent `type` is `ignore`; a present one decodes iff it names an update type, and is malformed otherwise |
| Contexts.DecodeAlerts | Sources/RemoteConfiguration/Core/UpdateContext.swift:73-74 | an absent alert array stays absent; a present one becomes its decoded entries with nulls dropped, or fails with the first failing non-null entry's error |
| Contexts.DecodeFields | Sources/RemoteConfiguration/Core/UpdateContext.swift:63-74 | keys are read in order `url`, `frequency`, `availableVersion`, `type`, `localizedStrings`, and the first failing step's error is reported: a missing-key error for `url` or `availableVersion`, the malformed-value error for `frequency` or `type`, the alert array's own error; decoding succeeds iff every key decodes, with the decoded url, version, frequency, type and filtered alerts stored as they are |
| Contexts.DecodeContext | Sources/RemoteConfiguration/Core/UpdateContext.swift:64-94 | decoding errors pass through unchanged; after them, success iff the alert invariant holds for the locale; library errors are validation errors of a recommended or mandatory update; ignore and discarded are never validated; absent or empty alerts fail with the no-alert message; a selected alert without an update action fails with the no-update-action validation message |
| Contexts.DecodeContextExamples | Tests/RemoteConfigurationTests/UpdateContextTests.swift:77-117 | a missing `url` fails with its missing key, and a missing `type` decodes as `ignore` with frequency `always` |
| Contexts.DecodeContextAlertExamples | Tests/RemoteConfigurationTests/UpdateContextTests.swift:253-327 | a mandatory update without alerts, and one whose only option is no update action, fail validation; an alert without `options` fails with a missing key instead |
| Contexts.DecodeContextNullEntriesExample | Sources/RemoteConfiguration/Core/UpdateContext.swift:73-74 | null entries around a valid recommended alert are dropped and the context decodes with that alert alone |
| Caching.LoadContext | Sources/RemoteConfiguration/Core/ConfigurationCache.swift:62-69 | the stored context is read iff one is stored and decodes |
| Caching.LastDiscardedVersion | Sources/RemoteConfiguration/Core/ConfigurationCache.swift:17-20 | reads none when no context is stored or it does not decode, else the stored version |
| Caching.SetLastDiscardedVersion | Sources/RemoteConfiguration/Core/ConfigurationCache.swift:21-25 | a later read returns the written version, the single stored context is replaced, the loaded configuration is untouched |
| Caching.SetLastLoadedConfiguration | Sources/RemoteConfiguration/Core/ConfigurationCache.swift:29-36 | a later read returns the written bytes; the stored context and discarded version are untouched |
| Caching.Clear | Sources/RemoteConfiguration/Core/ConfigurationCache.swift:55-58 | afterwards both the loaded configuration and the discarded version read none |
| Caching.SetLastDiscardedVersionOverrides | Sources/RemoteConfiguration/Core/ConfigurationCache.swift:21-25 | of two writes of the discarded version only the later one counts |
| Caching.WritesCommute | Sources/RemoteConfiguration/Core/ConfigurationCache.swift:17-41 | the two keys are independent: writes to them commute |
| Caching.ClearIdempotent | Sources/RemoteConfiguration/Core/ConfigurationCache.swift:55-58 | clearing twice equals clearing once |
| Manager.IsDiscardedUpdate | Sources/RemoteConfiguration/Core/Manager.swift:178-183 | the discard policy: the update is recommended, shown once, and its available version is the version the user last discarded |
| Manager.Deserialize | Sources/RemoteConfiguration/Core/Manager.swift:148-184 | a deserializer error completes the request as is, cache unchanged; live bytes that decode are cached, cache-hit bytes never; the contextual type is `discarded` with the discard record kept exactly when the discard policy applies, otherwise the decoded type with the record reset; it differs from the decoded type iff the policy applies |
| Manager.ConfigurationFileName | Sources/RemoteConfiguration/Core/Manager.swift:192-196 | a name ending in ".json" loses exactly that suffix; any other name is unchanged |
| Manager.ConfigurationFileNameRoundTrip | Sources/RemoteConfiguration/Core/Manager.swift:192-196 | normalising a name with ".json" appended gives the name back |
| Manager.LoadBundledConfiguration | Sources/RemoteConfiguration/Core/Manager.swift:186-190 | bytes are found iff a bundle is set and holds the normalised name as a "json" resource, and they are that file's contents |
| Manager.BundleFileExtensionIsOptional | Sources/RemoteConfiguration/Core/Manager.swift:186-196 | a file name without extension and the same name with ".json" load the same bundled file |
| Manager.FallbackData | Sources/RemoteConfiguration/Core/Manager.swift:108-118 | the cache is consulted only when not ignored; the bundle only when no cached bytes were obtained and a file name is set; so cache beats bundle |
| Manager.NoFallbackError | Sources/RemoteConfiguration/Core/Manager.swift:123-132 | a provider error: a provider message followed by "; " and the unavailable note, or the "Error requesting Configuration: " prefix with the description for other errors |
| Manager.Request | Sources/RemoteConfiguration/Core/Manager.swift:95-136 | every failure leaves the cache unchanged; a fetched payload goes through the same deserialization as live data, with the discard policy and the discard-record reset; a live fetch that decodes is cached exactly; a live decode failure is returned as is; a failed fetch never writes the cached bytes, resolves from the cache when enabled and filled, else from the bundle, else fails with the composite provider error |
| Manager.LoadFromCache | Sources/RemoteConfiguration/Core/Manager.swift:85-88 | a configuration iff bytes are cached and deserialize, namely the deserialized one; the cache is not an output |
| Manager.DiscardRecommendedUpdate | Sources/RemoteConfiguration/Core/Manager.swift:142-144 | the discarded version becomes exactly the update's available version; the cached bytes are untouched |
| Manager.DiscardRecommendedUpdateIdempotent | Sources/RemoteConfiguration/Core/Manager.swift:142-144 | discarding twice equals discarding once |
| Manager.ClearCache | Sources/RemoteConfiguration/Core/Manager.swift:78-80 | both stored fields read none afterwards |
| Manager.DiscardTimeline | Tests/RemoteConfigurationTests/ManagerTests.swift:138-199 | a recommended show-once update resolves as recommended, then as discarded after the user discards it, and a different version afterwards resolves as its own type and clears the record |
| Manager.FallbackServesLastLiveFetch | Tests/RemoteConfigurationTests/ManagerTests.swift:201-251 | after a live fetch, a failed fetch with the cache enabled yields the same result from the cache and keeps the cached bytes |
| Manager.DefaultSettingsFallBackToCacheOnly | Sources/RemoteConfiguration/Core/Manager.swift:43-57 | with the default properties (cache used, main bundle, no file name) a failed fetch resolves from the cache when it holds bytes and otherwise fails with the composite provider error; the bundle is never consulted |
| Manager.LoadFromCacheAfterLiveFetch | Sources/RemoteConfiguration/Core/Manager.swift:85-88 | after a live fetch that decodes, loading from the cache returns that fetch's configuration |
| UpdateHandler.LocalizedAlert | Sources/RemoteConfiguration/Convenience/DefaultUpdateHandler.swift:51 | an alert is selected iff the context carries a non-empty alert list; it is the locale's best match from the selector (first exact match, else last language match, else first alert) |
| UpdateHandler.AlertTitle | Sources/RemoteConfiguration/Convenience/DefaultUpdateHandler.swift:52 | the title falls back to "Update" when no alert is selected |
| UpdateHandler.AlertText | Sources/RemoteConfiguration/Convenience/DefaultUpdateHandler.swift:53 | the text falls back to "" when no alert is selected |
| UpdateHandler.HandleRecommendedUpdate | Sources/RemoteConfiguration/Convenience/DefaultUpdateHandler.swift:44-79 | never completes at once; shows nothing iff alerts are absent or empty; otherwise presents the selected alert's title, text and one action per option in order |
| UpdateHandler.HandleMandatoryUpdate | Sources/RemoteConfiguration/Convenience/DefaultUpdateHandler.swift:81-100 | never completes; presents iff the selected alert has an update action, and then exactly one action, the first update-action option of that alert |
| UpdateHandler.UpdateAvailable | Sources/RemoteConfiguration/Convenience/DefaultUpdateHandler.swift:30-42 | completes at once iff the type is ignore or discarded; recommended and mandatory go to their handlers and only they present alerts of their kind |
| UpdateHandler.Tap | Sources/RemoteConfiguration/Convenience/DefaultUpdateHandler.swift:57-71 | the update action only opens the update URL; any other option calls the completion and discards iff the context's own type is recommended with frequency once |
| UpdateHandler.ApplyEffect | Sources/RemoteConfiguration/Convenience/DefaultUpdateHandler.swift:64-70 | a discarding tap records the context's version as discarded; any other tap leaves the cache unchanged |
| UpdateHandler.MandatoryActionsNeverComplete | Sources/RemoteConfiguration/Convenience/DefaultUpdateHandler.swift:89-94 | every action of a presented mandatory alert is an update action, which opens the update URL and neither discards nor completes |
| UpdateHandler.InvariantContextPresentsAlert | Sources/RemoteConfiguration/Core/UpdateContext.swift:76-87 | a recommended or mandatory context satisfying the decoder's alert invariant for a locale (every decoded one does) always makes the handler present an alert with an update action for that locale |
| UpdateHandler.DeclineThenRequestIsDiscarded | Sources/RemoteConfiguration/Convenience/DefaultUpdateHandler.swift:64-70 | declining a recommended show-once update and requesting the same payload again resolves as discarded, and the handler then completes at once |

## Left out

- The mandatory-version matcher (`canMandatoryUpdateBeIgnored`,
  `MandatoryVersioning`): only the tests call it. `updateAvailable` has no
  versioning parameter, and `UpdateContext` has no such field, so there is
  no implementation to model.
- Request cancellation and the stored `request` handle (Manager.swift:99-100).
  They affect only concurrency, and each request is modelled as one step.
- The `[weak self]` captures; object lifetime is not modelled. When the
  manager is gone, a live fetch (Manager.swift:101-103) and a fallback
  deserialization (Manager.swift:122) never call the completion. After a
  failed fetch, though, `self?.ignoreCache == false` is false and the file
  name reads as absent, so neither fallback is tried and the completion
  receives the composite provider error (Manager.swift:123-132). When the
  handler is gone, a declining action skips only the discard and still
  calls the completion (DefaultUpdateHandler.swift:65-70), and the
  update actions do nothing (DefaultUpdateHandler.swift:61-63, 92-94).
- The provider and deserializer protocols. They are the `ProviderOutcome`
  value and the `deserializer` function parameter. The deserializer is any
  total function, and is assumed deterministic.
- `error.localizedDescription`: a Foundation description that is the
  `describe` parameter.
- UserDefaults, the LocalStorage manager, the JSON encoder and decoder of the
  context, and the concurrent queue and lock. The cache is an in-memory
  record. The context storage's decode failure is the `Undecodable` state.
- Bundle file reading (`path(forResource:ofType:)`, `Data(contentsOf:)`). The
  bundle is a map from resource file name to bytes, and an unreadable file
  is an absent entry. Foundation's lookup with an empty resource name returns
  the first resource of the given type; the model instead looks up the key
  ".json" when the configured file name is empty.
- Manager.ConfigurationFileName: removes the ".json" suffix as a plain
  string suffix. `NSString.deletingPathExtension` has path rules for names
  whose last component is ".json" alone or ends in a slash, and these are
  not modelled.
- JSON syntax. Decoding starts from raw records whose keys are optional. A
  required key that is null is treated like an absent one, and values of
  the wrong JSON type are not represented.
- The `urlConfig` payload and other caller-defined parts of a
  configuration: they are the opaque `payload` bytes.
- UIKit: building and presenting the `UIAlertController`, and
  `UIApplication.shared.open`.
- The URL parsing in `executeUpdateAction`: an action's effect names the
  URL string it would open.
- `Locale.current` is the `locale` parameter of decoding and of the
  handler. The model does not require both to see the same locale.
- Unicode canonical equivalence. Swift's `String ==` compares canonically
  equivalent strings as equal, and the model's `string ==` compares code
  points. This affects the language and region match
  (UpdateAlert.swift:57-58) and the discard check against the last
  discarded version (Manager.swift:183). For example, "s" followed by
  KELVIN SIGN (which decomposes to LATIN CAPITAL LETTER K) equals "sK" in Swift but not in the model. It makes no
  difference for ASCII language codes, region codes and versions.
- The example app and the package manifest.
