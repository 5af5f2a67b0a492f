/** AbstractCacheConfigurationBuilder: a mutable holder of cache options that
    starts from documented defaults and whose setters return the builder. */
module RIBuilder {
  import opened CacheTypes

  const DEFAULT_EXPIRY_TYPE: ExpiryType := ExpiryType.MODIFIED
  const DEFAULT_EXPIRY_TIME_TO_LIVE: Duration := Duration.ETERNAL
  const DEFAULT_IS_READ_THROUGH: bool := false
  const DEFAULT_IS_WRITE_THROUGH: bool := false
  const DEFAULT_IS_STATISTICS_ENABLED: bool := false
  const DEFAULT_STORE_BY_VALUE: bool := true
  const DEFAULT_TRANSACTION_ISOLATION_LEVEL: IsolationLevel := IsolationLevel.NONE
  const DEFAULT_TRANSACTION_MODE: Mode := Mode.NONE

  /** The builder's fields, as one value. */
  datatype BuilderState = BuilderState(
    listeners: seq<Option<Handle>>,
    cacheLoader: Option<Handle>,
    cacheWriter: Option<Handle>,
    expiryType: Option<ExpiryType>,
    expiryDuration: Option<Duration>,
    readThrough: bool,
    writeThrough: bool,
    statisticsEnabled: bool,
    storeByValue: bool,
    isolationLevel: Option<IsolationLevel>,
    mode: Option<Mode>)

  class CacheConfigurationBuilder {
    var listeners: seq<Option<Handle>>
    var cacheLoader: Option<Handle>
    var cacheWriter: Option<Handle>
    var expiryType: Option<ExpiryType>
    var expiryDuration: Option<Duration>
    var readThrough: bool
    var writeThrough: bool
    var statisticsEnabled: bool
    var storeByValue: bool
    var isolationLevel: Option<IsolationLevel>
    var mode: Option<Mode>

    /** The expiry type and duration are never null: the constructor sets
        both and setExpiry refuses null for either. No operation needs it;
        every one keeps it, so a client can rely on the pair being set. */
    ghost predicate Valid()
      reads this
    {
      expiryType.Some? && expiryDuration.Some?
    }

    /** The current value of every field. */
    function State(): BuilderState
      reads this
    {
      BuilderState(listeners, cacheLoader, cacheWriter, expiryType, expiryDuration, readThrough,
        writeThrough, statisticsEnabled, storeByValue, isolationLevel, mode)
    }

    /** A builder holding the default options. */
    constructor ()
      ensures Valid()
      ensures listeners == []
      ensures cacheLoader == None && cacheWriter == None
      ensures expiryType == Some(ExpiryType.MODIFIED) && expiryDuration == Some(Duration.ETERNAL)
      ensures !readThrough && !writeThrough && !statisticsEnabled
      ensures storeByValue
      ensures isolationLevel == Some(IsolationLevel.NONE) && mode == Some(Mode.NONE)
    {
      listeners := [];
      cacheLoader := None;
      cacheWriter := None;
      expiryType := Some(DEFAULT_EXPIRY_TYPE);
      expiryDuration := Some(DEFAULT_EXPIRY_TIME_TO_LIVE);
      readThrough := DEFAULT_IS_READ_THROUGH;
      writeThrough := DEFAULT_IS_WRITE_THROUGH;
      statisticsEnabled := DEFAULT_IS_STATISTICS_ENABLED;
      storeByValue := DEFAULT_STORE_BY_VALUE;
      isolationLevel := Some(DEFAULT_TRANSACTION_ISOLATION_LEVEL);
      mode := Some(DEFAULT_TRANSACTION_MODE);
    }

    /** Appends a listener, null included; duplicates and order are kept. */
    method AddCacheEntryListener(listener: Option<Handle>) returns (b: CacheConfigurationBuilder)
      modifies this
      ensures b == this
      ensures State() == old(State()).(listeners := old(listeners) + [listener])
      ensures old(Valid()) ==> Valid()
    {
      listeners := listeners + [listener];
      b := this;
    }

    /** Replaces the loader; null clears it. */
    method SetCacheLoader(loader: Option<Handle>) returns (b: CacheConfigurationBuilder)
      modifies this
      ensures b == this
      ensures State() == old(State()).(cacheLoader := loader)
      ensures old(Valid()) ==> Valid()
    {
      cacheLoader := loader;
      b := this;
    }

    /** Replaces the writer; null clears it. */
    method SetCacheWriter(writer: Option<Handle>) returns (b: CacheConfigurationBuilder)
      modifies this
      ensures b == this
      ensures State() == old(State()).(cacheWriter := writer)
      ensures old(Valid()) ==> Valid()
    {
      cacheWriter := writer;
      b := this;
    }

    /** Sets the expiry type and duration together. A null argument throws
        before anything is assigned, the type being checked first. */
    method SetExpiry(kind: Option<ExpiryType>, duration: Option<Duration>)
      returns (r: Result<CacheConfigurationBuilder>)
      modifies this
      ensures kind.None? ==> r == Err(NullPointerException("expiryType can not be null"))
      ensures kind.Some? && duration.None? ==> r == Err(NullPointerException("duration can not be null"))
      ensures r.Err? ==> State() == old(State())
      ensures r.Ok? <==> kind.Some? && duration.Some?
      ensures r.Ok? ==> r.value == this && Valid()
      ensures r.Ok? ==> State() == old(State()).(expiryType := kind, expiryDuration := duration)
      ensures old(Valid()) ==> Valid()
    {
      if kind.None? {
        return Err(NullPointerException("expiryType can not be null"));
      }
      if duration.None? {
        return Err(NullPointerException("duration can not be null"));
      }
      expiryType := kind;
      expiryDuration := duration;
      r := Ok(this);
    }

    method SetReadThrough(enabled: bool) returns (b: CacheConfigurationBuilder)
      modifies this
      ensures b == this
      ensures State() == old(State()).(readThrough := enabled)
      ensures old(Valid()) ==> Valid()
    {
      readThrough := enabled;
      b := this;
    }

    method SetWriteThrough(enabled: bool) returns (b: CacheConfigurationBuilder)
      modifies this
      ensures b == this
      ensures State() == old(State()).(writeThrough := enabled)
      ensures old(Valid()) ==> Valid()
    {
      writeThrough := enabled;
      b := this;
    }

    method SetStatisticsEnabled(enabled: bool) returns (b: CacheConfigurationBuilder)
      modifies this
      ensures b == this
      ensures State() == old(State()).(statisticsEnabled := enabled)
      ensures old(Valid()) ==> Valid()
    {
      statisticsEnabled := enabled;
      b := this;
    }

    method SetStoreByValue(byValue: bool) returns (b: CacheConfigurationBuilder)
      modifies this
      ensures b == this
      ensures State() == old(State()).(storeByValue := byValue)
      ensures old(Valid()) ==> Valid()
    {
      storeByValue := byValue;
      b := this;
    }

    /** Sets isolation level and mode together; nulls are accepted. */
    method SetTransactions(level: Option<IsolationLevel>, txnMode: Option<Mode>)
      returns (b: CacheConfigurationBuilder)
      modifies this
      ensures b == this
      ensures State() == old(State()).(isolationLevel := level, mode := txnMode)
      ensures old(Valid()) ==> Valid()
    {
      isolationLevel := level;
      mode := txnMode;
      b := this;
    }
  }

  /** A chained client: the same listener added twice through the returned
      builder is kept twice, after what was there. */
  method AddListenerTwice(builder: CacheConfigurationBuilder, listener: Option<Handle>)
    modifies builder
    ensures builder.listeners == old(builder.listeners) + [listener, listener]
    ensures builder.State() == old(builder.State()).(listeners := builder.listeners)
  {
    var chained := builder.AddCacheEntryListener(listener);
    chained := chained.AddCacheEntryListener(listener);
  }
}
