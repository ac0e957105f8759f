/** Shared by every component. */
module Common {
  datatype Option<+T> = None | Some(value: T)

  /** The zero time of the source language, year 1, in nanoseconds since the Unix epoch. */
  const ZERO_TIME: int := -62_135_596_800_000_000_000

  function Pow2(k: nat): nat {
    if k == 0 then 1 else 2 * Pow2(k - 1)
  }
}
