/** The capped exponential delay schedule. A duration is its nanosecond count, and
    multiplication saturates at the largest duration the platform represents. */
module Backoffs {
  const SECOND: nat := 1_000_000_000
  const DURATION_MAX: nat := 0xFFFF_FFFF_FFFF_FFFF * SECOND + 999_999_999

  type Duration = d: nat | d <= DURATION_MAX

  function Min(a: nat, b: nat): nat {
    if a <= b then a else b
  }

  function SaturatingMul(d: Duration, factor: nat): Duration {
    Min(d * factor, DURATION_MAX)
  }

  function Pow(b: nat, k: nat): nat {
    if k == 0 then 1 else b * Pow(b, k - 1)
  }

  function AtLeastOne(factor: nat): nat {
    if factor < 1 then 1 else factor
  }

  /** The k-th delay in closed form: no clamping until the very end. */
  function DelayAt(initial: Duration, factor: nat, max: Duration, k: nat): Duration {
    Min(max, initial * Pow(AtLeastOne(factor), k))
  }

  lemma {:induction false} PowPositive(b: nat, k: nat)
    requires b >= 1
    ensures Pow(b, k) >= 1
  {
    if k > 0 { PowPositive(b, k - 1); }
  }

  lemma Scale(x: nat, y: nat, f: nat)
    requires x <= y
    ensures x * f <= y * f
  {
  }

  /** Clamping before a multiplication by at least one changes nothing once the
      product is clamped again. */
  lemma ClampTwice(max: nat, x: nat, f: nat)
    requires f >= 1
    ensures Min(max, Min(max, x) * f) == Min(max, x * f)
  {
    if x > max {
      Scale(1, f, max);
      Scale(max, x, f);
    }
  }

  /** One advance of a clamped power gives the next clamped power. */
  lemma NextPower(initial: Duration, factor: nat, max: Duration, k: nat, current: Duration)
    requires current == DelayAt(initial, factor, max, k) || (k == 0 && current == initial)
    ensures Min(SaturatingMul(current, AtLeastOne(factor)), max) == DelayAt(initial, factor, max, k + 1)
  {
    var f := AtLeastOne(factor);
    var x := initial * Pow(f, k);
    ClampTwice(max, x, f);
    assert x * f == initial * Pow(f, k + 1) by {
      assert Pow(f, k + 1) == f * Pow(f, k);
      assert initial * (f * Pow(f, k)) == initial * Pow(f, k) * f;
    }
    if current == initial && k == 0 { assert x == initial; }
  }

  /** The schedule never shortens, for any start, factor and cap. */
  lemma {:induction false} DelaysNeverShrink(initial: Duration, factor: nat, max: Duration, j: nat, k: nat)
    requires j <= k
    ensures DelayAt(initial, factor, max, j) <= DelayAt(initial, factor, max, k) <= max
    decreases k
  {
    if j < k {
      DelaysNeverShrink(initial, factor, max, j, k - 1);
      var f := AtLeastOne(factor);
      Scale(1, f, Pow(f, k - 1));
      Scale(Pow(f, k - 1), f * Pow(f, k - 1), initial);
    }
  }

  class Backoff {
    const initial: Duration
    var current: Duration
    const factor: nat
    const max: Duration
    /** Delays handed out since construction or the last reset. */
    ghost var taken: nat

    ghost predicate Valid()
      reads this
    {
      && factor >= 1
      && (current == DelayAt(initial, factor, max, taken) || (taken == 0 && current == initial))
    }

    constructor (initial: Duration, factor: nat, max: Duration)
      ensures Valid() && taken == 0
      ensures this.initial == initial && this.factor == AtLeastOne(factor) && this.max == max
    {
      this.initial := initial;
      this.current := initial;
      this.factor := AtLeastOne(factor);
      this.max := max;
      this.taken := 0;
    }

    method NextDelay() returns (delay: Duration)
      requires Valid()
      modifies this
      ensures Valid() && taken == old(taken) + 1
      ensures delay == DelayAt(initial, factor, max, old(taken))
    {
      delay := Min(current, max);
      NextPower(initial, factor, max, taken, current);
      current := Min(SaturatingMul(current, factor), max);
      taken := taken + 1;
    }

    method Reset()
      requires Valid()
      modifies this
      ensures Valid() && taken == 0
    {
      current := initial;
      taken := 0;
    }
  }
}
