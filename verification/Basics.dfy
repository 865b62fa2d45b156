/** Shared vocabulary: results, optional values, machine integers and byte strings. */
module Basics {

  datatype Option<+T> = None | Some(value: T)

  datatype Result<+T, +E> = Ok(value: T) | Err(error: E)

  type Byte = b: int | 0 <= b < 256

  const TWO_TO_THE_32: int := 0x1_0000_0000

  type UInt32 = x: int | 0 <= x < TWO_TO_THE_32

  /** The conversion uint32(x) of a non-negative Go int. */
  function Truncate32(x: nat): UInt32 {
    x % TWO_TO_THE_32
  }

  type Bytes = seq<Byte>

  /** Instants and durations count nanoseconds, as Go's do. */
  const SECOND := 1_000_000_000
  const MINUTE := 60 * SECOND
  const HOUR := 60 * MINUTE

  /** Names enough to have one that is not in use: the name with n letters. */
  function Name(n: nat): string {
    if n == 0 then "" else Name(n - 1) + "x"
  }

  lemma {:induction false} NameLength(n: nat)
    ensures |Name(n)| == n
  {
    if n > 0 {
      NameLength(n - 1);
    }
  }
}
