/** The BMI shown and saved is `+(weight / (height * height)).toFixed(2)`:
    the quotient written with two decimals and read back as a number. This
    module models that rounding on exact reals. */
module Rounding {

  /** toFixed(2) followed by unary plus. For a non-negative value, the
      ECMAScript algorithm picks the integer n for which n / 100 is nearest
      to the value, the larger one on a tie; a negative value is rounded as
      its magnitude and given the sign back. */
  function RoundToCents(x: real): (r: real)
    ensures x - 0.005 <= r <= x + 0.005
    ensures 0.0 <= x ==> x - 0.005 < r
  {
    if x < 0.0 then -((-x * 100.0 + 0.5).Floor as real / 100.0)
    else (x * 100.0 + 0.5).Floor as real / 100.0
  }

  /** Distance between two reals. */
  function Dist(a: real, b: real): real
  {
    if a < b then b - a else a - b
  }

  /** The ECMAScript definition of toFixed(2) on a non-negative value: the
      result is a whole number of cents, no whole number of cents is nearer
      to the value, and of two equally near ones it is the larger. */
  lemma RoundToCentsIsNearest(x: real, n: int)
    requires 0.0 <= x
    ensures (RoundToCents(x) * 100.0).Floor as real == RoundToCents(x) * 100.0
    ensures Dist(RoundToCents(x), x) <= Dist(n as real / 100.0, x)
    ensures Dist(RoundToCents(x), x) == Dist(n as real / 100.0, x) ==> n as real / 100.0 <= RoundToCents(x)
  {
    var f := (x * 100.0 + 0.5).Floor;
    assert RoundToCents(x) * 100.0 == f as real;
    if n < f {
      assert n as real / 100.0 <= x - 0.005;
    } else if n > f {
      assert n as real / 100.0 > x + 0.005;
    }
  }

  /** Rounding to cents never reverses the order of two values. */
  lemma RoundToCentsMonotone(x: real, y: real)
    requires 0.0 <= x <= y
    ensures RoundToCents(x) <= RoundToCents(y)
  {
    var fx, fy := (x * 100.0 + 0.5).Floor, (y * 100.0 + 0.5).Floor;
    assert fx <= fy;
  }

  /** A value that already has at most two decimals is left as it is. */
  lemma RoundToCentsExact(k: nat)
    ensures RoundToCents(k as real / 100.0) == k as real / 100.0
  {
    var x := k as real / 100.0;
    assert x * 100.0 + 0.5 == k as real + 0.5;
    assert (x * 100.0 + 0.5).Floor == k;
  }

  /** The rounded value stays within half a cent of the exact one and is
      within the bounds of any interval of cents that holds it. */
  lemma RoundToCentsBetween(x: real, lo: nat, hi: nat)
    requires lo as real / 100.0 <= x <= hi as real / 100.0
    ensures lo as real / 100.0 <= RoundToCents(x) <= hi as real / 100.0
  {
    RoundToCentsMonotone(lo as real / 100.0, x);
    RoundToCentsMonotone(x, hi as real / 100.0);
    RoundToCentsExact(lo);
    RoundToCentsExact(hi);
  }
}
