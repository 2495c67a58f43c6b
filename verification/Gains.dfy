/** Gains as exact ratios, and what they make of byte counts and rates. */
module Gains {
  import opened Base

  datatype Ratio = Ratio(num: nat, den: nat)
  type Gain = g: Ratio | g.den > 0 witness Ratio(1, 1)

  /** A byte count times a gain, cut down to a whole number. */
  function Scale(x: nat, g: Gain): nat {
    x * g.num / g.den
  }

  /** A rate times a gain, rounded to the nearest whole number. */
  function ScaleRate(x: nat, g: Gain): nat {
    (2 * x * g.num + g.den) / (2 * g.den)
  }

  // ---------------------------------------------------------------- what the divisions mean

  /** `b` is the whole number of bytes that `rate` bits per second deliver in `rtt` microseconds. */
  predicate IsBdp(b: nat, rate: nat, rtt: int) {
    if rtt <= 0 then b == 0 else 8_000_000 * b <= rate * rtt < 8_000_000 * (b + 1)
  }

  /** `w` is the whole part of `num / den` times `b`. */
  predicate IsPart(w: nat, b: nat, num: nat, den: nat) {
    den * w <= num * b < den * (w + 1)
  }

  /** `rate` is `num / den` times `estimate`, to the nearest whole number. */
  predicate IsNearest(rate: nat, estimate: nat, num: nat, den: nat) {
    2 * num * estimate - den < 2 * den * rate <= 2 * num * estimate + den
  }

  lemma ScaleIs(x: nat, g: Gain)
    ensures IsPart(Scale(x, g), x, g.num, g.den)
  {
    WholePart(x * g.num, g.den);
  }

  lemma ScaleRateIs(x: nat, g: Gain)
    ensures IsNearest(ScaleRate(x, g), x, g.num, g.den)
  {
    WholePart(2 * x * g.num + g.den, 2 * g.den);
  }

  lemma EightMillionths(a: nat)
    ensures 8_000_000 * (a / 8 / 1_000_000) <= a < 8_000_000 * (a / 8 / 1_000_000 + 1)
  {
  }
}
