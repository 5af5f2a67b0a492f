/** RICacheConfiguration: the value object a cache is created from. Every field
    is fixed by a constructor; only the statistics flag is changed afterwards. */
module RIConfiguration {
  import opened CacheTypes

  /** A cache entry listener registration: the listener, its optional filter,
      and whether the old value is required and dispatch is synchronous. */
  datatype Registration = Registration(
    listener: Option<Handle>,
    filter: Option<Handle>,
    oldValueRequired: bool,
    synchronous: bool)

  /** A new RICacheEntryListenerRegistration built from the four getters of a
      caller's registration. */
  function Rebuild(r: Registration): Registration
  {
    Registration(r.listener, r.filter, r.oldValueRequired, r.synchronous)
  }

  /** The loop of the full constructor: a fresh list holding one rebuilt
      registration per input registration, in input order. */
  method CopyRegistrations(registrations: seq<Registration>) returns (copied: seq<Registration>)
    ensures |copied| == |registrations|
    ensures forall i :: 0 <= i < |registrations| ==>
      copied[i].listener == registrations[i].listener &&
      copied[i].filter == registrations[i].filter &&
      copied[i].oldValueRequired == registrations[i].oldValueRequired &&
      copied[i].synchronous == registrations[i].synchronous
    ensures copied == registrations
  {
    copied := [];
    var i := 0;
    while i < |registrations|
      invariant 0 <= i <= |registrations|
      invariant copied == registrations[..i]
    {
      copied := copied + [Rebuild(registrations[i])];
      i := i + 1;
    }
  }

  /** hashCode of a registration. RICacheEntryListenerRegistration is not part
      of this model; its hash is taken to combine its four fields. */
  function RegistrationHash(r: Registration): int
  {
    HashStep(HashStep(HashStep(HashStep(1, HandleHash(r.listener)), HandleHash(r.filter)),
      BoolHash(r.oldValueRequired)), BoolHash(r.synchronous))
  }

  /** java.util.List.hashCode: start at 1 and fold in each element's hash. */
  function ListHash(registrations: seq<Registration>): int
  {
    if registrations == [] then 1
    else
      var n := |registrations| - 1;
      HashStep(ListHash(registrations[..n]), RegistrationHash(registrations[n]))
  }

  /** The eleven fields of a configuration, as one value. */
  datatype ConfigValue = ConfigValue(
    registrations: seq<Registration>,
    cacheLoader: Option<Handle>,
    cacheWriter: Option<Handle>,
    expiryPolicy: Option<Handle>,
    readThrough: bool,
    writeThrough: bool,
    statisticsEnabled: bool,
    storeByValue: bool,
    transactionsEnabled: bool,
    isolationLevel: Option<IsolationLevel>,
    mode: Option<Mode>)

  class RICacheConfiguration {
    var registrations: seq<Registration>
    var cacheLoader: Option<Handle>
    var cacheWriter: Option<Handle>
    var expiryPolicy: Option<Handle>
    var readThrough: bool
    var writeThrough: bool
    var statisticsEnabled: bool
    var storeByValue: bool
    var transactionsEnabled: bool
    var isolationLevel: Option<IsolationLevel>
    var mode: Option<Mode>

    /** The current value of every field. */
    function Value(): ConfigValue
      reads this
    {
      ConfigValue(registrations, cacheLoader, cacheWriter, expiryPolicy, readThrough, writeThrough,
        statisticsEnabled, storeByValue, transactionsEnabled, isolationLevel, mode)
    }

    /** The standard defaults. `defaultPolicy` is the identity of the
        default expiry policy object the constructor allocates. */
    constructor Default(defaultPolicy: Handle)
      ensures registrations == []
      ensures cacheLoader == None && cacheWriter == None
      ensures expiryPolicy == Some(defaultPolicy)
      ensures !readThrough && !writeThrough && !statisticsEnabled && !transactionsEnabled
      ensures storeByValue
      ensures isolationLevel == Some(IsolationLevel.NONE) && mode == Some(Mode.NONE)
    {
      registrations := [];
      cacheLoader := None;
      cacheWriter := None;
      expiryPolicy := Some(defaultPolicy);
      readThrough := false;
      writeThrough := false;
      statisticsEnabled := false;
      storeByValue := true;
      transactionsEnabled := false;
      isolationLevel := Some(IsolationLevel.NONE);
      mode := Some(Mode.NONE);
    }

    /** Every field given explicitly, without validation; the registrations
        are rebuilt one by one into a new list. */
    constructor Full(
      registrations: seq<Registration>,
      cacheLoader: Option<Handle>,
      cacheWriter: Option<Handle>,
      expiryPolicy: Option<Handle>,
      readThrough: bool,
      writeThrough: bool,
      statisticsEnabled: bool,
      storeByValue: bool,
      transactionsEnabled: bool,
      isolationLevel: Option<IsolationLevel>,
      mode: Option<Mode>)
      ensures Value() == ConfigValue(registrations, cacheLoader, cacheWriter, expiryPolicy,
        readThrough, writeThrough, statisticsEnabled, storeByValue, transactionsEnabled,
        isolationLevel, mode)
    {
      var copied := CopyRegistrations(registrations);
      this.registrations := copied;
      this.cacheLoader := cacheLoader;
      this.cacheWriter := cacheWriter;
      this.expiryPolicy := expiryPolicy;
      this.readThrough := readThrough;
      this.writeThrough := writeThrough;
      this.statisticsEnabled := statisticsEnabled;
      this.storeByValue := storeByValue;
      this.transactionsEnabled := transactionsEnabled;
      this.isolationLevel := isolationLevel;
      this.mode := mode;
    }

    /** The copy constructor. The source delegates to the full constructor
        with the source's getters; Dafny constructors cannot delegate, so
        this body repeats `Full`'s assignments with those arguments, and its
        first ensures is `Full`'s ensures for them. */
    constructor Copy(source: RICacheConfiguration)
      ensures Value() == source.Value()
      ensures Equals(source) && source.Equals(this)
    {
      var copied := CopyRegistrations(source.registrations);
      registrations := copied;
      cacheLoader := source.cacheLoader;
      cacheWriter := source.cacheWriter;
      expiryPolicy := source.expiryPolicy;
      readThrough := source.readThrough;
      writeThrough := source.writeThrough;
      statisticsEnabled := source.statisticsEnabled;
      storeByValue := source.storeByValue;
      transactionsEnabled := source.transactionsEnabled;
      isolationLevel := source.isolationLevel;
      mode := source.mode;
    }

    /** The one mutator: every field but the statistics flag is left as it was. */
    method SetStatisticsEnabled(enabled: bool)
      modifies this
      ensures Value() == old(Value()).(statisticsEnabled := enabled)
    {
      statisticsEnabled := enabled;
    }

    /** equals: field by field, a null field matching only null. */
    function Equals(other: RICacheConfiguration): (r: bool)
      reads this, other
      ensures r <==> Value() == other.Value()
    {
      registrations == other.registrations &&
      cacheLoader == other.cacheLoader &&
      cacheWriter == other.cacheWriter &&
      expiryPolicy == other.expiryPolicy &&
      readThrough == other.readThrough &&
      statisticsEnabled == other.statisticsEnabled &&
      storeByValue == other.storeByValue &&
      writeThrough == other.writeThrough &&
      transactionsEnabled == other.transactionsEnabled &&
      isolationLevel == other.isolationLevel &&
      mode == other.mode
    }

    /** hashCode: the prime-31 accumulation over every field except
        transactionsEnabled, in 32-bit `int` arithmetic. */
    function HashCode(): (h: int)
      reads this
      ensures -0x8000_0000 <= h < 0x8000_0000
    {
      var h1 := HashStep(1, ListHash(registrations));
      var h2 := HashStep(h1, HandleHash(cacheLoader));
      var h3 := HashStep(h2, HandleHash(cacheWriter));
      var h4 := HashStep(h3, HandleHash(expiryPolicy));
      var h5 := HashStep(h4, BoolHash(readThrough));
      var h6 := HashStep(h5, BoolHash(statisticsEnabled));
      var h7 := HashStep(h6, BoolHash(storeByValue));
      var h8 := HashStep(h7, BoolHash(writeThrough));
      var h9 := HashStep(h8, IsolationLevelHash(isolationLevel));
      HashStep(h9, ModeHash(mode))
    }
  }

  /** equals is an equivalence relation. */
  lemma EqualsIsEquivalence(a: RICacheConfiguration, b: RICacheConfiguration, c: RICacheConfiguration)
    ensures a.Equals(a)
    ensures a.Equals(b) ==> b.Equals(a)
    ensures a.Equals(b) && b.Equals(c) ==> a.Equals(c)
  {
  }

  /** Equal configurations have equal hash codes. */
  lemma HashConsistentWithEquals(a: RICacheConfiguration, b: RICacheConfiguration)
    requires a.Equals(b)
    ensures a.HashCode() == b.HashCode()
  {
  }

  /** Two configurations that differ only in transactionsEnabled are not
      equal, yet hash alike: the hash leaves that flag out. */
  lemma TransactionsFlagSeenByEqualsNotByHash(a: RICacheConfiguration, b: RICacheConfiguration)
    requires a.Value() == b.Value().(transactionsEnabled := !b.transactionsEnabled)
    ensures !a.Equals(b) && !b.Equals(a)
    ensures a.HashCode() == b.HashCode()
  {
  }
}
