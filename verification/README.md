# JSR-107 reference cache: configuration model

This project models the configuration part of the JSR-107 (javax.cache)
reference implementation. It has two pieces:

- `RICacheConfiguration` is the value object a cache is created from. It is
  modelled in `configuration.dfy` as a class with eleven fields:
  - the ordered entry-listener registrations;
  - the loader, writer and expiry-policy handles;
  - five flags: read-through, write-through, statistics, store-by-value and
    transactions;
  - the transaction isolation level and the transaction mode.

  It has three constructors: default, full and copy. It has field-by-field
  `Equals`, a 32-bit `HashCode`, and one mutator, `SetStatisticsEnabled`.
- `AbstractCacheConfigurationBuilder` is modelled in `builder.dfy` as the class
  `CacheConfigurationBuilder`. It starts from the documented defaults. Its
  setters replace one field, or the expiry and transaction pairs together, and
  return the builder itself. `SetExpiry` is the one operation that rejects
  arguments: it returns a `NullPointerException` and leaves the builder as it
  was.

`cache_types.dfy` holds the shared values:
- Java `null` is `Option.None`.
- The loader, writer, expiry policy, listener and filter are opaque `Handle`
  identities. They are only stored and compared, never called.
- The javax.cache enumerations `IsolationLevel`, `Mode` and `ExpiryType`, and
  `Duration`, whose only named value is `ETERNAL`.
- `Int32`, Java's `int` wrap-around, which `hashCode` relies on.

`AddCacheEntryListener` accepts `None`: `AbstractCacheConfigurationBuilder.java:131`
appends whatever it is given.

## Model

| member | source | states |
|---|---|---|
| `RIConfiguration.CopyRegistrations` | cache-ri-impl/src/main/java/org/jsr107/ri/RICacheConfiguration.java:142-150 | the new registration list has the input's length and order; element i has input element i's listener, filter, old-value-required and synchronous values, so the copy equals the input |
| `RIConfiguration.RICacheConfiguration.Default` | cache-ri-impl/src/main/java/org/jsr107/ri/RICacheConfiguration.java:99-111 | no registrations, no loader or writer, a non-null expiry policy (the default policy allocated here), read/write-through, statistics and transactions off, store-by-value on, isolation level NONE and mode NONE |
| `RIConfiguration.RICacheConfiguration.Full` | cache-ri-impl/src/main/java/org/jsr107/ri/RICacheConfiguration.java:129-167 | every argument is stored as given, with no validation; null handles and null enums are stored as null; the registrations go through the copying loop |
| `RIConfiguration.RICacheConfiguration.Copy` | cache-ri-impl/src/main/java/org/jsr107/ri/RICacheConfiguration.java:174-186 | every field of the copy equals the source's field, and the copy and the source are `Equals` both ways |
| `RIConfiguration.RICacheConfiguration.SetStatisticsEnabled` | cache-ri-impl/src/main/java/org/jsr107/ri/RICacheConfiguration.java:271-273 | the statistics flag becomes the argument; the other ten fields are unchanged |
| `RIConfiguration.RICacheConfiguration.Equals` | cache-ri-impl/src/main/java/org/jsr107/ri/RICacheConfiguration.java:326-377 | true exactly when all eleven fields match, transactionsEnabled included; a null field matches only null |
| `RIConfiguration.RICacheConfiguration.HashCode` | cache-ri-impl/src/main/java/org/jsr107/ri/RICacheConfiguration.java:287-310 | the result is a Java `int` (the 32-bit range); that it agrees with equals is `HashConsistentWithEquals`, and that it leaves out transactionsEnabled is `TransactionsFlagSeenByEqualsNotByHash` |
| `RIConfiguration.EqualsIsEquivalence` | cache-ri-impl/src/main/java/org/jsr107/ri/RICacheConfiguration.java:316-377 | equals is reflexive, symmetric and transitive |
| `RIConfiguration.HashConsistentWithEquals` | cache-ri-impl/src/main/java/org/jsr107/ri/RICacheConfiguration.java:287-377 | equal configurations have equal hash codes |
| `RIConfiguration.TransactionsFlagSeenByEqualsNotByHash` | cache-ri-impl/src/main/java/org/jsr107/ri/RICacheConfiguration.java:287-310 | two configurations that differ only in transactionsEnabled are unequal both ways but have the same hash code |
| `CacheTypes.Int32` | cache-ri-impl/src/main/java/org/jsr107/ri/RICacheConfiguration.java:288-309 | Java `int` arithmetic: the result is in the 32-bit range, congruent to its argument modulo 2^32, and equal to it when the argument is already in range |
| `RIBuilder.CacheConfigurationBuilder.constructor` | cache-ri-common/src/main/java/org/jsr107/ri/AbstractCacheConfigurationBuilder.java:43-50 | the default options: no listeners, null loader and writer, expiry MODIFIED for ETERNAL, read/write-through and statistics off, store-by-value on, isolation level NONE and mode NONE; the expiry pair is non-null |
| `RIBuilder.CacheConfigurationBuilder.AddCacheEntryListener` | cache-ri-common/src/main/java/org/jsr107/ri/AbstractCacheConfigurationBuilder.java:130-133 | the listener list becomes the old list plus the listener at the end, null included; nothing else changes; returns the builder itself |
| `RIBuilder.CacheConfigurationBuilder.SetCacheLoader` | cache-ri-common/src/main/java/org/jsr107/ri/AbstractCacheConfigurationBuilder.java:139-142 | replaces only the loader, and a null argument clears it; returns the builder itself |
| `RIBuilder.CacheConfigurationBuilder.SetCacheWriter` | cache-ri-common/src/main/java/org/jsr107/ri/AbstractCacheConfigurationBuilder.java:148-151 | replaces only the writer, and a null argument clears it; returns the builder itself |
| `RIBuilder.CacheConfigurationBuilder.SetExpiry` | cache-ri-common/src/main/java/org/jsr107/ri/AbstractCacheConfigurationBuilder.java:157-169 | a null expiry type throws "expiryType can not be null"; otherwise a null duration throws "duration can not be null"; on either error the state is unchanged; with both non-null it sets the pair together, touches nothing else, and returns the builder itself |
| `RIBuilder.CacheConfigurationBuilder.SetReadThrough` | cache-ri-common/src/main/java/org/jsr107/ri/AbstractCacheConfigurationBuilder.java:175-178 | changes only the read-through flag; returns the builder itself |
| `RIBuilder.CacheConfigurationBuilder.SetWriteThrough` | cache-ri-common/src/main/java/org/jsr107/ri/AbstractCacheConfigurationBuilder.java:185-188 | changes only the write-through flag; returns the builder itself |
| `RIBuilder.CacheConfigurationBuilder.SetStatisticsEnabled` | cache-ri-common/src/main/java/org/jsr107/ri/AbstractCacheConfigurationBuilder.java:195-198 | changes only the statistics flag; returns the builder itself |
| `RIBuilder.CacheConfigurationBuilder.SetStoreByValue` | cache-ri-common/src/main/java/org/jsr107/ri/AbstractCacheConfigurationBuilder.java:204-207 | changes only the store-by-value flag; returns the builder itself |
| `RIBuilder.CacheConfigurationBuilder.SetTransactions` | cache-ri-common/src/main/java/org/jsr107/ri/AbstractCacheConfigurationBuilder.java:213-217 | sets isolation level and mode together, nulls accepted, nothing else changed; returns the builder itself |
| `RIBuilder.AddListenerTwice` | cache-ri-common/src/main/java/org/jsr107/ri/AbstractCacheConfigurationBuilder.java:130-133 | adding the same listener twice through the returned builder keeps both copies, in order, after the existing ones |

## Left out

- The getters of `RICacheConfiguration` (`RICacheConfiguration.java:192-281`) are not separate members. Each one returns its field, and the Dafny fields are read directly. `getCacheEntryListenerRegistrations` hands out the internal list. The model returns a `seq` value, so it does not capture that aliasing.
- Registrations are values. The full constructor builds a new `RICacheEntryListenerRegistration` object for each input registration. In the model that rebuilt value is equal to the input, so object identity and aliasing of registrations are not captured. `RICacheEntryListenerRegistration` itself is not part of this model.
- `RIConfiguration.RICacheConfiguration.Full`: the registrations argument and each of its elements are never null in the model. The source throws NullPointerException when the `Iterable` is null (`RICacheConfiguration.java:143`) or when an element is null (line 145); that error path is not modelled.
- `RIConfiguration.RICacheConfiguration.Copy`: the source is never null in the model, while the source code throws NullPointerException on a null configuration (`RICacheConfiguration.java:175`). The source may also be any `CacheConfiguration`; the model copies only from an `RICacheConfiguration`.
- `RIConfiguration.RICacheConfiguration.Equals`: the `this == object`, `null` and `instanceof` shortcuts are not modelled, because only configurations of the model's own type are compared. The null check on the registration list is dead code, because every constructor allocates the list.
- `RIConfiguration.RICacheConfiguration.HashCode`: the hash codes of handles, of the enum constants and of a registration come from classes that are not part of this model. The model takes a handle's hash to be its identity, an enum constant's hash to be its ordinal plus one, and a registration's hash to be a prime-31 fold of its four fields. Only the hash's range and its consistency with equals are stated.
- `RIConfiguration.RICacheConfiguration.Default`: the default constructor allocates a `CacheEntryExpiryPolicy.Default`. The model takes that object's identity as a parameter and states only that the policy is non-null and is that object. Nothing is said about the default policy's behaviour.
- The behaviour of loaders, writers, expiry policies, listeners and filters is not modelled. They are foreign objects that this core only stores.
- `Duration` and `ExpiryType` internals are not modelled. `Duration` is `ETERNAL` or an opaque other value.
- The builder's self-typed generic parameter and its unchecked casts are not modelled. A single concrete builder class stands for them.
- The builder's `build()` step is not modelled, and neither is any conversion from a builder to a configuration. They belong to a concrete subclass that is not part of this model.
- Thread-safety of the statistics flag is not modelled. Nothing in this core is concurrent.
