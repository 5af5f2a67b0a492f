/** Values shared by the cache configuration and its builder: Java's nullable
    references, the opaque collaborator handles, the javax.cache enumerations
    and Java's 32-bit `int` arithmetic used by `hashCode`. */
module CacheTypes {

  /** A Java reference that may be null. */
  datatype Option<+T> = None | Some(value: T)

  /** The only exception raised in this core. */
  datatype Error = NullPointerException(message: string)

  /** A normal return, or a thrown exception. */
  datatype Result<+T> = Ok(value: T) | Err(error: Error)

  /** A reference to a collaborator the configuration only carries and never
      calls: a loader, a writer, an expiry policy, a listener or a filter.
      Two handles are `equals` exactly when they are the same identity. */
  datatype Handle = Handle(id: nat)

  /** javax.cache.transaction.IsolationLevel */
  datatype IsolationLevel = NONE | READ_UNCOMMITTED | READ_COMMITTED | REPEATABLE_READ | SERIALIZABLE

  /** javax.cache.transaction.Mode */
  datatype Mode = NONE | LOCAL | XA

  /** javax.cache.CacheConfiguration.ExpiryType */
  datatype ExpiryType = ACCESSED | MODIFIED

  /** javax.cache.CacheConfiguration.Duration: the constant ETERNAL, or some
      other duration known only by its identity. */
  datatype Duration = ETERNAL | Timed(id: nat)

  const INT32_MODULUS: int := 0x1_0000_0000

  /** Java `int` wrap-around: the 32-bit two's complement value congruent to x. */
  function Int32(x: int): (r: int)
    ensures -0x8000_0000 <= r < 0x8000_0000
    ensures (x - r) % INT32_MODULUS == 0
    ensures -0x8000_0000 <= x < 0x8000_0000 ==> r == x
  {
    var m := x % INT32_MODULUS;
    if m < 0x8000_0000 then m else m - INT32_MODULUS
  }

  /** One step `31 * result + h` of the accumulations in `hashCode`, in `int`. */
  function HashStep(result: int, h: int): int
  {
    Int32(31 * result + h)
  }

  /** Boolean.hashCode */
  function BoolHash(b: bool): int
  {
    if b then 1231 else 1237
  }

  /** hashCode of a nullable handle: 0 for null, else the handle's own hash,
      taken here to be its identity reduced to an `int`. */
  function HandleHash(h: Option<Handle>): int
  {
    match h
    case None => 0
    case Some(x) => Int32(x.id)
  }

  /** hashCode of a nullable IsolationLevel. Java hashes an enum constant
      by identity; the model takes its ordinal plus one instead. */
  function IsolationLevelHash(level: Option<IsolationLevel>): int
  {
    match level
    case None => 0
    case Some(NONE) => 1
    case Some(READ_UNCOMMITTED) => 2
    case Some(READ_COMMITTED) => 3
    case Some(REPEATABLE_READ) => 4
    case Some(SERIALIZABLE) => 5
  }

  /** hashCode of a nullable Mode. Java hashes an enum constant by
      identity; the model takes its ordinal plus one instead. */
  function ModeHash(mode: Option<Mode>): int
  {
    match mode
    case None => 0
    case Some(NONE) => 1
    case Some(LOCAL) => 2
    case Some(XA) => 3
  }
}
