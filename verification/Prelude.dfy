/** Values shared by every part of the model: bytes, options, monotonic time and 64-bit counters. */
module Prelude {

  datatype Option<+T> = None | Some(value: T)

  /** One octet. */
  type Byte = b: int | 0 <= b < 256

  /** A monotonic instant or a duration, in nanoseconds. */
  type Time = nat

  /** The latest representable instant: signed 64-bit seconds plus a nanosecond part. */
  const LAST_INSTANT: nat := 0x7FFF_FFFF_FFFF_FFFF * 1_000_000_000 + 999_999_999

  const U32_MAX: nat := 0xFFFF_FFFF
  const U64_MAX: nat := 0xFFFF_FFFF_FFFF_FFFF
  const TWO_TO_64: nat := 0x1_0000_0000_0000_0000

  function Min(a: int, b: int): int {
    if a <= b then a else b
  }

  function Max(a: int, b: int): int {
    if a <= b then b else a
  }

  /** `u64::saturating_add` */
  function SaturatingAdd(a: nat, b: nat): nat {
    if a + b <= U64_MAX then a + b else U64_MAX
  }

  /** `saturating_sub` on any unsigned width */
  function SaturatingSub(a: nat, b: nat): nat {
    if a >= b then a - b else 0
  }

  /** `u64::wrapping_add(1)` */
  function WrappingIncrement(a: nat): nat {
    (a + 1) % TWO_TO_64
  }

  /** `Instant::checked_add` */
  function CheckedAdd(instant: Time, duration: Time): Option<Time> {
    if instant + duration <= LAST_INSTANT then Some(instant + duration) else None
  }
}
