/** What the mock generator takes from its environment: random draws in
    [0, 1), the hour of day of a local timestamp, and rounding to tenths. */
module Sampling {
  import opened Types

  /** A value of `Math.random()`. */
  type Unit = r: real | 0.0 <= r < 1.0 witness 0.0

  /** A stream of random draws; draw `k` is `rand(k)`. */
  type Oracle = nat -> Unit

  /** The stream with its first `n` draws consumed. */
  function Skip(rand: Oracle, n: nat): Oracle {
    (k: nat) => rand(k + n)
  }

  /** `Math.random() * span + offset`: a value in [offset, offset + span). */
  function Scaled(u: Unit, span: real, offset: real): (r: real)
    requires span >= 0.0
    ensures offset <= r
    ensures span > 0.0 ==> r < offset + span
  {
    u * span + offset
  }

  /** `Math.round(x * 10) / 10`: half-up rounding to one decimal. */
  function Round10(x: real): real {
    (x * 10.0 + 0.5).Floor as real / 10.0
  }

  /** Rounding keeps a value inside any range whose ends are whole tenths. */
  lemma RoundWithin(x: real, lo: int, hi: int)
    requires lo as real <= x * 10.0 <= hi as real
    ensures lo as real / 10.0 <= Round10(x) <= hi as real / 10.0
  {
    var f := (x * 10.0 + 0.5).Floor;
    assert f as real <= x * 10.0 + 0.5 < f as real + 1.0;
    assert lo <= f <= hi;
  }

  lemma RoundZero()
    ensures Round10(0.0) == 0.0
  {
    assert (0.0 * 10.0 + 0.5).Floor == 0;
  }

  /** Rounding a non-negative value gives a non-negative value. */
  lemma RoundNonNegative(x: real)
    requires x >= 0.0
    ensures Round10(x) >= 0.0
  {
    assert (x * 10.0 + 0.5).Floor >= 0;
  }

  /** `getHours()` of a local timestamp. */
  function HourOf(t: Minutes): (h: int)
    ensures 0 <= h < 24
  {
    (t / 60) % 24
  }

  /** The generator's daylight window: hours 6 to 18, both included. */
  predicate IsDaylight(hour: int) {
    6 <= hour && hour <= 18
  }
}
