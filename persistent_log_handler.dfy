/**
 * The swift-log adapter that turns each logging call into one store record:
 * it merges the handler's metadata with the call site's (the call site wins),
 * maps swift-log's level onto the store's level, and keeps only the textual
 * metadata values, which are all the store can hold.
 */
module PersistentLogHandling {
  import opened Wrappers
  import Store = LoggerStore

  /** swift-log's `Logger.Level`, in its declaration (and severity) order. */
  datatype LoggerLevel = Trace | Debug | Info | Notice | Warning | Error | Critical

  function LoggerRank(l: LoggerLevel): nat {
    match l
    case Trace => 0
    case Debug => 1
    case Info => 2
    case Notice => 3
    case Warning => 4
    case Error => 5
    case Critical => 6
  }

  /**
   * swift-log's `Logger.MetadataValue`. A `stringConvertible` value is kept
   * as the description it would print.
   */
  datatype LoggerMetadataValue =
    | String(text: string)
    | StringConvertible(description: string)
    | Dictionary(entries: map<string, LoggerMetadataValue>)
    | Array(elements: seq<LoggerMetadataValue>)

  type LoggerMetadata = map<string, LoggerMetadataValue>

  /** The values the store can hold. */
  predicate IsTextual(v: LoggerMetadataValue) {
    v.String? || v.StringConvertible?
  }

  /** `LoggerStore.Level.init(_:)`: each swift-log level becomes the store level of the same name. */
  function ConvertLevel(level: LoggerLevel): (r: Store.Level)
    ensures Store.Rank(r) == LoggerRank(level)
  {
    match level
    case Trace => Store.Trace
    case Debug => Store.Debug
    case Info => Store.Info
    case Notice => Store.Notice
    case Warning => Store.Warning
    case Error => Store.Error
    case Critical => Store.Critical
  }

  /** Distinct swift-log levels stay distinct in the store. */
  lemma ConvertLevelInjective(a: LoggerLevel, b: LoggerLevel)
    ensures ConvertLevel(a) == ConvertLevel(b) ==> a == b
  {
  }

  /** The conversion keeps the severity order. */
  lemma ConvertLevelMonotonic(a: LoggerLevel, b: LoggerLevel)
    ensures LoggerRank(a) <= LoggerRank(b) <==> Store.Rank(ConvertLevel(a)) <= Store.Rank(ConvertLevel(b))
  {
  }

  /** Every store level is reached, so the conversion is a bijection. */
  lemma ConvertLevelSurjective(s: Store.Level)
    ensures exists l :: ConvertLevel(l) == s
  {
    var l := match s
      case Trace => Trace case Debug => Debug case Info => Info case Notice => Notice
      case Warning => Warning case Error => Error case Critical => Critical;
    assert ConvertLevel(l) == s;
  }

  /**
   * `LoggerStore.MetadataValue.init?(_:)`: textual values pass through
   * unchanged; dictionaries and arrays are unsupported and give `nil`.
   */
  function ConvertValue(v: LoggerMetadataValue): (r: Option<Store.MetadataValue>)
    ensures r.Some? <==> IsTextual(v)
    ensures v.String? ==> r == Some(Store.String(v.text))
    ensures v.StringConvertible? ==> r == Some(Store.StringConvertible(v.description))
  {
    match v
    case String(s) => Some(Store.String(s))
    case StringConvertible(d) => Some(Store.StringConvertible(d))
    case Dictionary(_) => None
    case Array(_) => None
  }

  /**
   * `LoggerStore.Metadata.init(_:)` (`compactMapValues`): the entries whose
   * value converts, each with its converted value; the others are dropped.
   */
  function ConvertMetadata(m: LoggerMetadata): (r: Store.Metadata)
    ensures forall k :: k in r <==> k in m && IsTextual(m[k])
    ensures forall k | k in r :: ConvertValue(m[k]) == Some(r[k])
  {
    map k | k in m && ConvertValue(m[k]).Some? :: ConvertValue(m[k]).value
  }

  /**
   * The metadata a `log` call records: the handler's entries overridden by
   * the call site's (absent call-site metadata counts as empty).
   */
  function Merge(base: LoggerMetadata, callSite: Option<LoggerMetadata>): (r: LoggerMetadata)
    ensures r.Keys == base.Keys + callSite.GetOr(map[]).Keys
    ensures forall k | k in callSite.GetOr(map[]) :: r[k] == callSite.GetOr(map[])[k]
    ensures forall k | k in base && k !in callSite.GetOr(map[]) :: r[k] == base[k]
    ensures callSite.None? ==> r == base
  {
    base + callSite.GetOr(map[])
  }

  /**
   * The merge loop of `log`: start from the handler's metadata and write
   * every call-site entry over it, one key at a time.
   */
  method MergeMetadata(base: LoggerMetadata, callSite: Option<LoggerMetadata>) returns (merged: LoggerMetadata)
    ensures merged == Merge(base, callSite)
  {
    merged := base;
    var overrides := callSite.GetOr(map[]);
    var pending := overrides.Keys;
    while pending != {}
      invariant pending <= overrides.Keys
      invariant merged.Keys == base.Keys + (overrides.Keys - pending)
      invariant forall k | k in merged ::
        merged[k] == if k in overrides && k !in pending then overrides[k] else base[k]
      decreases pending
    {
      var key :| key in pending;
      merged := merged[key := overrides[key]];
      pending := pending - {key};
    }
    assert merged == base + overrides;
  }

  /**
   * What ends up in the store for each key: merging happens before
   * conversion, so a call-site dictionary or array hides a textual handler
   * value for the same key instead of falling back to it.
   */
  lemma StoredMetadataKeys(base: LoggerMetadata, callSite: Option<LoggerMetadata>, k: string)
    ensures var stored := ConvertMetadata(Merge(base, callSite));
            var overrides := callSite.GetOr(map[]);
            && (k in stored <==>
                  (k in overrides && IsTextual(overrides[k])) ||
                  (k !in overrides && k in base && IsTextual(base[k])))
            && (k in stored && k in overrides ==> Some(stored[k]) == ConvertValue(overrides[k]))
            && (k in stored && k !in overrides ==> Some(stored[k]) == ConvertValue(base[k]))
  {
  }

  /**
   * `PersistentLogHandler`: a swift-log handler writing to one store under
   * one label. In Swift it is a struct, so each copy has its own metadata;
   * as a class here, references to one handler share it.
   */
  class PersistentLogHandler {
    var metadata: LoggerMetadata
    var logLevel: LoggerLevel
    const store: Store.MessageStore
    const labelName: string

    /** `init(label:store:)`: no metadata and level `info` to begin with. */
    constructor (labelName: string, store: Store.MessageStore)
      ensures this.labelName == labelName && this.store == store
      ensures metadata == map[] && logLevel == Info
    {
      this.labelName := labelName;
      this.store := store;
      metadata := map[];
      logLevel := Info;
    }

    /** The getter of `subscript(metadataKey:)`. */
    function MetadataValue(key: string): (r: Option<LoggerMetadataValue>)
      reads this
      ensures r.Some? <==> key in metadata
      ensures r.Some? ==> r.value == metadata[key]
    {
      if key in metadata then Some(metadata[key]) else None
    }

    /**
     * The setter of `subscript(metadataKey:)`: a value is stored under the
     * key, `nil` removes the key; reading back gives what was set and every
     * other key reads as before.
     */
    method SetMetadataValue(key: string, newValue: Option<LoggerMetadataValue>)
      modifies this`metadata
      ensures MetadataValue(key) == newValue
      ensures forall k | k != key :: MetadataValue(k) == old(MetadataValue(k))
    {
      match newValue
      case Some(v) => metadata := metadata[key := v];
      case None => metadata := metadata - {key};
    }

    /**
     * `log(level:message:metadata:file:function:line:)`: hands exactly one
     * record to the store, under the handler's label, with the converted
     * level and the merged, converted metadata. The handler is unchanged.
     */
    method Log(level: LoggerLevel, message: string, callSite: Option<LoggerMetadata>,
               file: string, functionName: string, line: nat)
      modifies store
      ensures store.messages == old(store.messages) + [Store.StoredMessage(
        labelName, ConvertLevel(level), message,
        ConvertMetadata(Merge(metadata, callSite)), file, functionName, line)]
    {
      var mergedMetadata := MergeMetadata(metadata, callSite);
      store.StoreMessage(Store.StoredMessage(
        labelName, ConvertLevel(level), message,
        ConvertMetadata(mergedMetadata), file, functionName, line));
    }
  }
}
