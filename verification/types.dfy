/** The plain value types of the library: update types, alert frequencies,
    the library's error enumeration, and the persisted configuration context. */
module Types {
  import opened Wrappers

  /** Raw configuration data as delivered by a provider, a cache or a bundle. */
  type Bytes = seq<bv8>

  /** The four update types. `Discarded` is computed by the manager, but the
      decoder accepts its raw value like the other three. */
  datatype UpdateType = Ignore | Recommended | Mandatory | Discarded

  /** How often a recommended update alert is shown for one version. */
  datatype AlertFrequency = Always | Once

  /** The library's own error enumeration, each case carrying a message. */
  datatype Error =
    | Provider(message: string)
    | Deserializer(message: string)
    | Validation(message: string)

  /** Anything a throwing call may raise: the library's own errors, or the
      decoding errors raised while reading a raw record. */
  datatype Fault =
    | Library(error: Error)
    | MissingKey(key: string)       // a required key is absent or null
    | Malformed(key: string)        // a key holds a value the decoder rejects

  /** The persisted context; only the last discarded version is stored. */
  datatype ConfigurationContext = ConfigurationContext(lastDiscardedVersion: Option<string>)

  /** The string an update type is encoded as. */
  function UpdateTypeRawValue(t: UpdateType): string {
    match t
    case Ignore => "ignore"
    case Recommended => "recommended"
    case Mandatory => "mandatory"
    case Discarded => "discarded"
  }

  /** Decodes an update type from its raw string; `None` for any other string. */
  function UpdateTypeFromRaw(s: string): (r: Option<UpdateType>)
    ensures r.Some? ==> UpdateTypeRawValue(r.value) == s
    ensures r.None? ==> forall t: UpdateType :: UpdateTypeRawValue(t) != s
  {
    if s == "ignore" then Some(Ignore)
    else if s == "recommended" then Some(Recommended)
    else if s == "mandatory" then Some(Mandatory)
    else if s == "discarded" then Some(Discarded)
    else None
  }

  /** Encoding an update type and decoding it again gives the same type. */
  lemma UpdateTypeRoundTrip(t: UpdateType)
    ensures UpdateTypeFromRaw(UpdateTypeRawValue(t)) == Some(t)
  {
    match t
    case Ignore =>
    case Recommended =>
    case Mandatory =>
    case Discarded =>
  }

  /** The string an alert frequency is encoded as. */
  function AlertFrequencyRawValue(f: AlertFrequency): string {
    match f
    case Always => "always"
    case Once => "once"
  }

  /** Decodes an alert frequency from its raw string; `None` for any other string. */
  function AlertFrequencyFromRaw(s: string): (r: Option<AlertFrequency>)
    ensures r.Some? ==> AlertFrequencyRawValue(r.value) == s
    ensures r.None? ==> forall f: AlertFrequency :: AlertFrequencyRawValue(f) != s
  {
    if s == "always" then Some(Always)
    else if s == "once" then Some(Once)
    else None
  }

  /** Encoding an alert frequency and decoding it again gives the same frequency. */
  lemma AlertFrequencyRoundTrip(f: AlertFrequency)
    ensures AlertFrequencyFromRaw(AlertFrequencyRawValue(f)) == Some(f)
  {
  }
}
