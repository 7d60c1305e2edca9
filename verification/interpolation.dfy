/** `Interpolate`: the integer interpolation between two values that the gradient
    printer uses to colour the banner, in C# `int` arithmetic. */
module Interpolation {
  import opened Text

  /** C# integer division of `a` by a positive `b`: the quotient is rounded toward
      zero, so the remainder takes the sign of `a` (Dafny's `/` rounds toward minus
      infinity on a negative `a`). */
  function TruncDiv(a: int, b: int): (q: int)
    requires b > 0
    ensures a >= 0 ==> q >= 0 && q * b <= a < q * b + b
    ensures a < 0 ==> q <= 0 && q * b - b < a <= q * b
  {
    if a >= 0 then
      DivBelow(a, b);
      a / b
    else
      DivBelow(-a, b);
      Negate((-a) / b, b);
      -((-a) / b)
  }

  /** Dafny's quotient of a non-negative number: at most the number over `b`, by less
      than one `b`. */
  lemma DivBelow(a: int, b: int)
    requires a >= 0 && b > 0
    ensures a / b >= 0 && (a / b) * b <= a < (a / b) * b + b
  {
    assert a == (a / b) * b + a % b;
  }

  lemma Negate(q: int, b: int)
    ensures (-q) * b == -(q * b)
  {
  }

  /** `Interpolate(start, end, step, totalSteps)`: `start` when there is at most one
      step, else `start + ((end - start) * step) / (totalSteps - 1)`, each operation in
      unchecked 32-bit arithmetic. */
  function Interpolate(start: int, end: int, step: int, totalSteps: int): (r: int)
    requires IsInt32(start) && IsInt32(end) && IsInt32(step) && IsInt32(totalSteps)
    ensures IsInt32(r)
    ensures totalSteps <= 1 ==> r == start
  {
    if totalSteps <= 1 then start
    else Wrap32(start + TruncDiv(Wrap32(Wrap32(end - start) * step), totalSteps - 1))
  }

  /** A product of two positive numbers is positive. */
  lemma MulPositive(x: int, y: int)
    requires x > 0 && y > 0
    ensures x * y > 0
  {
  }

  /** `d * step` lies between 0 and `d * last` (inclusive) when `0 <= step <= last`. */
  lemma ScaledBetween(d: int, step: int, last: int)
    requires 0 <= step <= last
    ensures d >= 0 ==> 0 <= d * step <= d * last
    ensures d < 0 ==> d * last <= d * step <= 0
  {
    assert d * last - d * step == d * (last - step);
    if d > 0 && step > 0 {
      MulPositive(d, step);
    }
    if d > 0 && last - step > 0 {
      MulPositive(d, last - step);
    }
    if d < 0 && step > 0 {
      MulPositive(-d, step);
    }
    if d < 0 && last - step > 0 {
      MulPositive(-d, last - step);
    }
  }

  /** A multiple of a positive `last` that is at most `d * last` has a factor at most
      `d`; at least, at least. */
  lemma FactorOrder(q: int, d: int, last: int)
    requires last > 0
    ensures q * last <= d * last ==> q <= d
    ensures q * last >= d * last ==> q >= d
  {
    assert (q - d) * last == q * last - d * last;
    if q > d {
      MulPositive(q - d, last);
    }
    if q < d {
      MulPositive(d - q, last);
    }
  }

  /** Dividing a value between 0 and `d * last` by `last`, rounding toward zero, gives a
      value between 0 and `d`, and `d` itself for `d * last`. */
  lemma QuotientBetween(p: int, d: int, last: int)
    requires last > 0
    requires d >= 0 ==> 0 <= p <= d * last
    requires d < 0 ==> d * last <= p <= 0
    ensures d >= 0 ==> 0 <= TruncDiv(p, last) <= d
    ensures d < 0 ==> d <= TruncDiv(p, last) <= 0
    ensures p == d * last ==> TruncDiv(p, last) == d
  {
    var q := TruncDiv(p, last);
    FactorOrder(q, d, last);
    if p == d * last {
      FactorOrder(q + 1, d, last);
      FactorOrder(q - 1, d, last);
      assert (q + 1) * last == q * last + last;
      assert (q - 1) * last == q * last - last;
    }
  }

  /** When `(end - start) * (totalSteps - 1)` fits in an `int`, no operation wraps:
      step 0 gives `start`, the last step gives `end`, and every step in between gives
      a value between the two. */
  lemma InterpolateBetween(start: int, end: int, step: int, totalSteps: int)
    requires IsInt32(start) && IsInt32(end) && IsInt32(step) && IsInt32(totalSteps)
    requires 1 < totalSteps && 0 <= step <= totalSteps - 1
    requires IsInt32(end - start) && IsInt32((end - start) * (totalSteps - 1))
    ensures step == 0 ==> Interpolate(start, end, step, totalSteps) == start
    ensures step == totalSteps - 1 ==> Interpolate(start, end, step, totalSteps) == end
    ensures start <= end ==> start <= Interpolate(start, end, step, totalSteps) <= end
    ensures end <= start ==> end <= Interpolate(start, end, step, totalSteps) <= start
  {
    var d, last := end - start, totalSteps - 1;
    ScaledBetween(d, step, last);
    var p := d * step;
    assert IsInt32(p);
    QuotientBetween(p, d, last);
    if step == 0 {
      assert p == 0;
    }
  }
}
