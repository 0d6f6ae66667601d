/** The manager's resolution of a configuration request, as step functions
    that take the cache state and return the result with the new cache state.
    The provider's answer, the deserializer and the bundle are parameters. */
module Manager {
  import opened Wrappers
  import opened Types
  import opened Contexts
  import opened Caching

  /** A decoded configuration: its update context, plus the caller-defined
      remainder of the model, which the manager never looks at. */
  datatype Configuration = Configuration(appUpdate: UpdateContext, payload: Bytes)

  /** The resolved result of a request. */
  datatype State = State(configuration: Configuration, contextualUpdateType: UpdateType)

  /** A bundle, as the resource files it holds: file name to contents. */
  type Bundle = map<string, Bytes>

  /** The manager's settable properties. */
  datatype Settings = Settings(
    ignoreCache: bool,
    configurationBundle: Option<Bundle>,
    configurationBundleFilename: Option<string>)

  /** The properties of a manager nobody configured: the cache is used, the
      bundle is the main bundle, and no bundle file name is set. */
  function DefaultSettings(main: Bundle): Settings {
    Settings(false, Some(main), None)
  }

  /** What the provider answered: the fetched bytes or the failure. */
  datatype ProviderOutcome = Fetched(data: Bytes) | FetchFailed(error: Error)

  /** The result a request completes with, and the cache it leaves behind. */
  datatype Step = Step(result: Result<State, Fault>, cache: ConfigurationCache)

  const JsonExtension := ".json"
  const ErrorPrefix := "Error requesting Configuration: "
  const NoFallbackMessage := "Configuration cache and bundled Configuration disabled and/or unavailable."

  /** The discard policy: a recommended, show-once update whose version the
      user discarded last. */
  predicate IsDiscardedUpdate(config: Configuration, lastDiscardedVersion: Option<string>) {
    && config.appUpdate.updateType == Recommended
    && config.appUpdate.alertFrequency == Once
    && lastDiscardedVersion == Some(config.appUpdate.availableVersion)
  }

  /** Deserializes bytes and resolves the contextual update type. A thrown
      error completes the request as it is, with the cache untouched. On
      success, bytes from the live fetch (`isCacheHit` false) become the
      cached configuration; a discarded update leaves the discard record as
      it is, any other configuration resets it. */
  function Deserialize(cache: ConfigurationCache, deserializer: Bytes -> Result<Configuration, Fault>,
                       data: Bytes, isCacheHit: bool): (r: Step)
    ensures deserializer(data).Failure? ==> r == Step(Failure(deserializer(data).error), cache)
    ensures deserializer(data).Success? ==>
      r.result.Success? && r.result.value.configuration == deserializer(data).value
    ensures r.cache.lastLoadedConfiguration ==
      if !isCacheHit && deserializer(data).Success? then Some(data) else cache.lastLoadedConfiguration
    ensures r.result.Success? ==>
      var config := r.result.value.configuration;
      var discarded := IsDiscardedUpdate(config, LastDiscardedVersion(cache));
      && (discarded ==> r.result.value.contextualUpdateType == Discarded)
      && (discarded ==> LastDiscardedVersion(r.cache) == LastDiscardedVersion(cache))
      && (!discarded ==> r.result.value.contextualUpdateType == config.appUpdate.updateType)
      && (!discarded ==> LastDiscardedVersion(r.cache).None?)
      && (r.result.value.contextualUpdateType != config.appUpdate.updateType <==> discarded)
  {
    match deserializer(data)
    case Failure(e) => Step(Failure(e), cache)
    case Success(config) =>
      var cached := if !isCacheHit then SetLastLoadedConfiguration(cache, Some(data)) else cache;
      if IsDiscardedUpdate(config, LastDiscardedVersion(cached)) then
        Step(Success(State(config, Discarded)), cached)
      else
        Step(Success(State(config, config.appUpdate.updateType)), SetLastDiscardedVersion(cached, None))
  }

  /** True when the name ends with the given suffix. */
  predicate HasSuffix(name: string, suffix: string) {
    |suffix| <= |name| && name[|name| - |suffix|..] == suffix
  }

  /** The bundle resource name for a configured file name: a trailing
      ".json" is removed, any other name is kept. */
  function ConfigurationFileName(name: string): (r: string)
    ensures HasSuffix(name, JsonExtension) ==> r + JsonExtension == name
    ensures !HasSuffix(name, JsonExtension) ==> r == name
  {
    if HasSuffix(name, JsonExtension) then name[..|name| - |JsonExtension|] else name
  }

  /** Removing the extension undoes appending it. */
  lemma ConfigurationFileNameRoundTrip(name: string)
    ensures ConfigurationFileName(name + JsonExtension) == name
  {
    assert HasSuffix(name + JsonExtension, JsonExtension);
  }

  /** The bytes of the bundled configuration file, looked up as a resource of
      type "json"; `None` without a bundle or without such a file. */
  function LoadBundledConfiguration(settings: Settings, file: string): (r: Option<Bytes>)
    ensures r.Some? <==>
      settings.configurationBundle.Some? &&
      ConfigurationFileName(file) + JsonExtension in settings.configurationBundle.value
    ensures r.Some? ==> r.value == settings.configurationBundle.value[ConfigurationFileName(file) + JsonExtension]
  {
    match settings.configurationBundle
    case None => None
    case Some(bundle) =>
      var resource := ConfigurationFileName(file) + JsonExtension;
      if resource in bundle then Some(bundle[resource]) else None
  }

  /** Configuring the bundle file with or without its ".json" extension
      loads the same file. Only one extension is removed, so a name that
      already ends in ".json" does not get the same lookup with a second one. */
  lemma BundleFileExtensionIsOptional(settings: Settings, file: string)
    requires !HasSuffix(file, JsonExtension)
    ensures LoadBundledConfiguration(settings, file + JsonExtension) == LoadBundledConfiguration(settings, file)
  {
    ConfigurationFileNameRoundTrip(file);
  }

  /** The fallback bytes after a failed fetch: the cached configuration unless
      the cache is ignored or empty, then the bundled file if one is named. */
  function FallbackData(cache: ConfigurationCache, settings: Settings): (r: Option<Bytes>)
    ensures !settings.ignoreCache && cache.lastLoadedConfiguration.Some? ==> r == cache.lastLoadedConfiguration
    ensures (settings.ignoreCache || cache.lastLoadedConfiguration.None?) ==>
      r == if settings.configurationBundleFilename.Some?
           then LoadBundledConfiguration(settings, settings.configurationBundleFilename.value)
           else None
  {
    var cached := if !settings.ignoreCache then cache.lastLoadedConfiguration else None;
    if cached.None? && settings.configurationBundleFilename.Some? then
      LoadBundledConfiguration(settings, settings.configurationBundleFilename.value)
    else cached
  }

  /** The provider error reported when no fallback is available: a provider
      message is kept as it is, any other error is described with a prefix,
      and a note on the unavailable cache and bundle follows. */
  function NoFallbackError(error: Error, describe: Error -> string): (r: Error)
    ensures r.Provider?
    ensures error.Provider? ==> r.message == error.message + "; " + NoFallbackMessage
    ensures !error.Provider? ==> r.message == ErrorPrefix + describe(error) + "; " + NoFallbackMessage
  {
    var message := match error
      case Provider(m) => m + "; "
      case _ => ErrorPrefix + describe(error) + "; ";
    Provider(message + NoFallbackMessage)
  }

  /** A configuration request. A fetched payload is deserialized as live data;
      after a failed fetch, the cache and then the bundle are tried, their
      bytes are deserialized as a cache hit, and with neither the request
      fails with a provider error. `describe` stands for the error's
      localized description. */
  function Request(cache: ConfigurationCache, settings: Settings, outcome: ProviderOutcome,
                   deserializer: Bytes -> Result<Configuration, Fault>, describe: Error -> string): (r: Step)
    ensures r.result.Failure? ==> r.cache == cache
    ensures outcome.Fetched? ==> r == Deserialize(cache, deserializer, outcome.data, false)
    ensures outcome.Fetched? && deserializer(outcome.data).Success? ==>
      r.result.Success? && r.cache.lastLoadedConfiguration == Some(outcome.data)
    ensures outcome.Fetched? && deserializer(outcome.data).Failure? ==>
      r.result == Failure(deserializer(outcome.data).error)
    ensures outcome.FetchFailed? ==> r.cache.lastLoadedConfiguration == cache.lastLoadedConfiguration
    ensures outcome.FetchFailed? && !settings.ignoreCache && cache.lastLoadedConfiguration.Some? ==>
      r == Deserialize(cache, deserializer, cache.lastLoadedConfiguration.value, true)
    ensures outcome.FetchFailed? && (settings.ignoreCache || cache.lastLoadedConfiguration.None?) &&
            settings.configurationBundleFilename.Some? &&
            LoadBundledConfiguration(settings, settings.configurationBundleFilename.value).Some? ==>
      r == Deserialize(cache, deserializer,
                       LoadBundledConfiguration(settings, settings.configurationBundleFilename.value).value, true)
    ensures outcome.FetchFailed? && FallbackData(cache, settings).None? ==>
      && r.result.Failure?
      && r.result.error == Library(NoFallbackError(outcome.error, describe))
  {
    match outcome
    case Fetched(data) => Deserialize(cache, deserializer, data, false)
    case FetchFailed(error) =>
      match FallbackData(cache, settings)
      case Some(data) => Deserialize(cache, deserializer, data, true)
      case None => Step(Failure(Library(NoFallbackError(error, describe))), cache)
  }

  /** Best-effort decoding of the cached configuration: `None` when nothing
      is cached or the deserializer throws. Reading does not change the cache. */
  function LoadFromCache(cache: ConfigurationCache, deserializer: Bytes -> Result<Configuration, Fault>)
    : (r: Option<Configuration>)
    ensures r.Some? <==>
      cache.lastLoadedConfiguration.Some? && deserializer(cache.lastLoadedConfiguration.value).Success?
    ensures r.Some? ==> r.value == deserializer(cache.lastLoadedConfiguration.value).value
  {
    match cache.lastLoadedConfiguration
    case None => None
    case Some(data) => deserializer(data).ToOption()
  }

  /** Records the update's version as discarded by the user. */
  function DiscardRecommendedUpdate(cache: ConfigurationCache, update: UpdateContext): (r: ConfigurationCache)
    ensures LastDiscardedVersion(r) == Some(update.availableVersion)
    ensures r.lastLoadedConfiguration == cache.lastLoadedConfiguration
  {
    SetLastDiscardedVersion(cache, Some(update.availableVersion))
  }

  /** Discarding the same update twice is the same as discarding it once. */
  lemma DiscardRecommendedUpdateIdempotent(cache: ConfigurationCache, update: UpdateContext)
    ensures DiscardRecommendedUpdate(DiscardRecommendedUpdate(cache, update), update)
         == DiscardRecommendedUpdate(cache, update)
  {
    SetLastDiscardedVersionOverrides(cache, Some(update.availableVersion), Some(update.availableVersion));
  }

  /** Empties the cache: no cached configuration and no discard record. */
  function ClearCache(cache: ConfigurationCache): (r: ConfigurationCache)
    ensures r.lastLoadedConfiguration.None? && LastDiscardedVersion(r).None?
  {
    Clear(cache)
  }

  /** The discard timeline of a recommended, show-once update: first shown as
      recommended; once discarded, the same payload resolves as discarded; a
      payload announcing another version resolves as its own type and clears
      the discard record. */
  lemma DiscardTimeline(cache: ConfigurationCache, settings: Settings,
                        deserializer: Bytes -> Result<Configuration, Fault>, describe: Error -> string,
                        data: Bytes, newer: Bytes)
    requires deserializer(data).Success?
    requires deserializer(data).value.appUpdate.updateType == Recommended
    requires deserializer(data).value.appUpdate.alertFrequency == Once
    requires LastDiscardedVersion(cache) != Some(deserializer(data).value.appUpdate.availableVersion)
    requires deserializer(newer).Success?
    requires deserializer(newer).value.appUpdate.availableVersion != deserializer(data).value.appUpdate.availableVersion
    ensures
      var update := deserializer(data).value.appUpdate;
      var first := Request(cache, settings, Fetched(data), deserializer, describe);
      var second := Request(DiscardRecommendedUpdate(first.cache, update), settings, Fetched(data), deserializer, describe);
      var third := Request(second.cache, settings, Fetched(newer), deserializer, describe);
      && first.result.Success? && first.result.value.contextualUpdateType == Recommended
      && second.result.Success? && second.result.value.contextualUpdateType == Discarded
      && third.result.Success?
      && third.result.value.contextualUpdateType == deserializer(newer).value.appUpdate.updateType
      && LastDiscardedVersion(third.cache).None?
  {
  }

  /** After a live fetch, a failed fetch with the cache enabled resolves to
      the same state from the cache, and leaves the cached bytes in place. */
  lemma FallbackServesLastLiveFetch(cache: ConfigurationCache, settings: Settings,
                                    deserializer: Bytes -> Result<Configuration, Fault>, describe: Error -> string,
                                    data: Bytes, error: Error)
    requires deserializer(data).Success? && !settings.ignoreCache
    ensures
      var live := Request(cache, settings, Fetched(data), deserializer, describe);
      var offline := Request(live.cache, settings, FetchFailed(error), deserializer, describe);
      && offline.result == live.result
      && offline.cache.lastLoadedConfiguration == Some(data)
  {
  }

  /** With the default properties the bundle is never consulted: a failed
      fetch resolves from the cache when it holds bytes, and otherwise fails
      with the composite provider error. */
  lemma DefaultSettingsFallBackToCacheOnly(cache: ConfigurationCache, main: Bundle,
                                           deserializer: Bytes -> Result<Configuration, Fault>,
                                           describe: Error -> string, error: Error)
    ensures var r := Request(cache, DefaultSettings(main), FetchFailed(error), deserializer, describe);
      && (cache.lastLoadedConfiguration.Some? ==>
            r == Deserialize(cache, deserializer, cache.lastLoadedConfiguration.value, true))
      && (cache.lastLoadedConfiguration.None? ==>
            r == Step(Failure(Library(NoFallbackError(error, describe))), cache))
  {
  }

  /** Loading from the cache after a live fetch that decodes returns the
      configuration of that fetch. */
  lemma LoadFromCacheAfterLiveFetch(cache: ConfigurationCache, settings: Settings,
                                    deserializer: Bytes -> Result<Configuration, Fault>,
                                    describe: Error -> string, data: Bytes)
    requires deserializer(data).Success?
    ensures var live := Request(cache, settings, Fetched(data), deserializer, describe);
      LoadFromCache(live.cache, deserializer) == Some(deserializer(data).value)
  {
  }
}
