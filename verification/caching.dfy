/** The configuration cache, as an in-memory record: the raw bytes of the
    last live configuration under one key, and the persisted configuration
    context (holding the last discarded version) under another. */
module Caching {
  import opened Wrappers
  import opened Types

  /** What the context storage holds: nothing, a record that no longer
      decodes, or a decoded configuration context. */
  datatype StoredContext = NoContext | Undecodable | Stored(context: ConfigurationContext)

  /** The two independently keyed entries of the cache. */
  datatype ConfigurationCache = ConfigurationCache(
    lastLoadedConfiguration: Option<Bytes>,
    storedContext: StoredContext)

  /** Reads the stored context; `None` when it is absent or does not decode. */
  function LoadContext(cache: ConfigurationCache): (r: Option<ConfigurationContext>)
    ensures r.Some? <==> cache.storedContext.Stored?
    ensures r.Some? ==> r.value == cache.storedContext.context
  {
    match cache.storedContext
    case Stored(c) => Some(c)
    case _ => None
  }

  /** The last discarded version, read through the stored context. */
  function LastDiscardedVersion(cache: ConfigurationCache): (r: Option<string>)
    ensures !cache.storedContext.Stored? ==> r.None?
    ensures cache.storedContext.Stored? ==> r == cache.storedContext.context.lastDiscardedVersion
  {
    match LoadContext(cache)
    case Some(c) => c.lastDiscardedVersion
    case None => None
  }

  /** Writes the last discarded version: the stored context (or a fresh one)
      gets the new value and replaces whatever the storage held. The loaded
      configuration is untouched. */
  function SetLastDiscardedVersion(cache: ConfigurationCache, version: Option<string>): (r: ConfigurationCache)
    ensures LastDiscardedVersion(r) == version
    ensures r.storedContext.Stored?
    ensures r.lastLoadedConfiguration == cache.lastLoadedConfiguration
  {
    var context := LoadContext(cache).GetOr(ConfigurationContext(None));
    cache.(storedContext := Stored(context.(lastDiscardedVersion := version)))
  }

  /** Writes the last loaded configuration; the stored context is untouched. */
  function SetLastLoadedConfiguration(cache: ConfigurationCache, data: Option<Bytes>): (r: ConfigurationCache)
    ensures r.lastLoadedConfiguration == data
    ensures r.storedContext == cache.storedContext
    ensures LastDiscardedVersion(r) == LastDiscardedVersion(cache)
  {
    cache.(lastLoadedConfiguration := data)
  }

  /** Empties both entries of the cache. */
  function Clear(cache: ConfigurationCache): (r: ConfigurationCache)
    ensures r.lastLoadedConfiguration.None?
    ensures LastDiscardedVersion(r).None?
  {
    SetLastDiscardedVersion(SetLastLoadedConfiguration(cache, None), None)
  }

  /** A later write of the last discarded version overrides an earlier one,
      so writing the same value twice is the same as writing it once. */
  lemma SetLastDiscardedVersionOverrides(cache: ConfigurationCache, v1: Option<string>, v2: Option<string>)
    ensures SetLastDiscardedVersion(SetLastDiscardedVersion(cache, v1), v2) == SetLastDiscardedVersion(cache, v2)
  {
  }

  /** Writes to the two keys commute: neither disturbs the other. */
  lemma WritesCommute(cache: ConfigurationCache, data: Option<Bytes>, version: Option<string>)
    ensures SetLastLoadedConfiguration(SetLastDiscardedVersion(cache, version), data)
         == SetLastDiscardedVersion(SetLastLoadedConfiguration(cache, data), version)
  {
  }

  /** Clearing twice is the same as clearing once. */
  lemma ClearIdempotent(cache: ConfigurationCache)
    ensures Clear(Clear(cache)) == Clear(cache)
  {
  }
}
