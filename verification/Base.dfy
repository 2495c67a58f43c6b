/** Types and constants shared by every part of the sender model.

    Times and durations are integers counting microseconds, byte counts and packet
    numbers are natural numbers.  A packet number that may be uninitialised is an
    `Option<nat>`. */
module Base {

  datatype Option<+T> = None | Some(value: T)

  /** Default sender segment size, `kDefaultTCPMSS`. */
  const MSS: nat := 1460

  /** The largest value of an unsigned and of a signed 64-bit word. */
  const UINT64_MAX: nat := 0xFFFF_FFFF_FFFF_FFFF
  const INT64_MAX: nat := 0x7FFF_FFFF_FFFF_FFFF

  /** `kAlarmGranularity`: one millisecond. */
  const ALARM_GRANULARITY: nat := 1000

  function Max(a: int, b: int): int {
    if a >= b then a else b
  }

  function Min(a: int, b: int): int {
    if a <= b then a else b
  }

  function Pow2(n: nat): (p: nat)
    ensures p > 0
  {
    if n == 0 then 1 else 2 * Pow2(n - 1)
  }

  predicate LargerOf(larger: int, a: int, b: int) {
    (larger == a || larger == b) && a <= larger && b <= larger
  }

  predicate LargestOf(largest: int, a: int, b: int, c: int) {
    (largest == a || largest == b || largest == c) && a <= largest && b <= largest && c <= largest
  }

  predicate SmallerOf(smaller: int, a: int, b: int) {
    (smaller == a || smaller == b) && smaller <= a && smaller <= b
  }

  /** `w` is `raw` put between two limits, the upper one being the stronger. */
  predicate Clamped(w: int, raw: int, lo: int, hi: int) {
    w == if hi < lo || hi < raw then hi else if raw < lo then lo else raw
  }

  lemma WholePart(a: nat, b: nat)
    requires b > 0
    ensures b * (a / b) <= a < b * (a / b + 1)
  {
    assert a == b * (a / b) + a % b;
  }
}
