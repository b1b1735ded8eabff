/** Optional values, map lookup and the elements of a list, shared by every module. */
module Wrappers {

  datatype Option<+T> = None | Some(value: T)

  /** Lookup that answers None for an absent key. */
  function Get<K, V>(m: map<K, V>, k: K): Option<V> {
    if k in m then Some(m[k]) else None
  }

  /** The elements of a list. */
  function SetOf<T>(s: seq<T>): set<T> {
    set x | x in s
  }
}

/** The outcome of an operation that can fail. */
module Results {

  datatype Result<+T, +E> = Ok(value: T) | Err(error: E)
}

/** Signed 64-bit integers. */
module Ints {

  const I64_MIN := -0x8000_0000_0000_0000
  const I64_MAX := 0x7fff_ffff_ffff_ffff

  predicate IsI64(n: int) {
    I64_MIN <= n <= I64_MAX
  }

  /** `as i64` of an unsigned 64-bit value: 2^63 and more wrap. */
  function AsI64(n: nat): int {
    if n > I64_MAX then n - 0x1_0000_0000_0000_0000 else n
  }

  /** The saturating operations clamp the exact result. */
  function Saturate(x: int): int {
    if x > I64_MAX then I64_MAX else if x < I64_MIN then I64_MIN else x
  }
}
