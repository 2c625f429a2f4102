/** Small vocabulary shared by every component. */
module Common {

  datatype Option<+T> = None | Some(value: T)

  /** The two implementations of one client. */
  datatype Sdk = Go | Python

  const MAX_INT64: int := 9_223_372_036_854_775_807
  const MIN_INT64: int := -9_223_372_036_854_775_808

  predicate IsInt64(n: int) {
    MIN_INT64 <= n <= MAX_INT64
  }

  /** Every entry of `m` is still there, unchanged, in `m'`. */
  ghost predicate Grows<K, V>(m: map<K, V>, m': map<K, V>) {
    forall k :: k in m ==> k in m' && m'[k] == m[k]
  }
}
