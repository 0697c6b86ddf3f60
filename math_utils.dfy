/**
 * The two `MathUtils` helpers the sky screen calls. Their source is not part
 * of this model: `mapToRange` is the affine transform its callers' documentation
 * describes, and `isValidFloat` accepts exactly the finite values.
 */
module MathUtils {
  import opened JavaNumerics

  /** A Java float as the sky view reports it. */
  datatype JFloat = Finite(value: real) | NaN | PositiveInfinity | NegativeInfinity

  predicate IsValidFloat(f: JFloat) {
    f.Finite?
  }

  /** Affine map of [inMin, inMax] onto [outMin, outMax]; values outside are extrapolated, not clamped. */
  function MapToRange(value: real, inMin: real, inMax: real, outMin: real, outMax: real): (r: real)
    requires inMin != inMax
    ensures value == inMin ==> r == outMin
    ensures value == inMax ==> r == outMax
    ensures (r - outMin) * (inMax - inMin) == (value - inMin) * (outMax - outMin)
  {
    outMin + (value - inMin) * (outMax - outMin) / (inMax - inMin)
  }

  lemma MulMonotone(a: real, b: real, c: real)
    requires a <= b && 0.0 <= c
    ensures a * c <= b * c && c * a <= c * b
  {
  }

  lemma DivMonotone(a: real, b: real, c: real)
    requires a <= b && 0.0 < c
    ensures a / c <= b / c
  {
  }

  lemma CancelPositiveFactor(a: real, b: real, c: real)
    requires 0.0 < c
    requires a * c >= b * c
    ensures a >= b
  {
  }

  /** With an increasing input range and a non-decreasing output range, the map is non-decreasing. */
  lemma MapToRangeMonotone(v1: real, v2: real, inMin: real, inMax: real, outMin: real, outMax: real)
    requires inMin < inMax && outMin <= outMax && v1 <= v2
    ensures MapToRange(v1, inMin, inMax, outMin, outMax) <= MapToRange(v2, inMin, inMax, outMin, outMax)
  {
    MulMonotone(v1 - inMin, v2 - inMin, outMax - outMin);
    DivMonotone((v1 - inMin) * (outMax - outMin), (v2 - inMin) * (outMax - outMin), inMax - inMin);
  }

  /**
   * Mapping a value at least one output unit's worth of input past `inMax`
   * lands at least one unit past `outMax`.
   */
  lemma MapToRangeBeyondMax(value: real, inMin: real, inMax: real, outMin: real, outMax: real)
    requires inMin < inMax && outMin < outMax
    requires value >= inMax + (inMax - inMin) / (outMax - outMin)
    ensures MapToRange(value, inMin, inMax, outMin, outMax) >= outMax + 1.0
  {
    var w, d := inMax - inMin, outMax - outMin;
    var above := value - inMin;
    var q := above * d / w;
    assert q * w == above * d;
    MulMonotone(w + w / d, above, d);
    assert (w + w / d) * d == (d + 1.0) * w;
    CancelPositiveFactor(q, d + 1.0, w);
    assert MapToRange(value, inMin, inMax, outMin, outMax) == outMin + q;
  }

  /** `(int) (d * t)` for an `int` `d` and a float `t`. */
  function ScaledCast(d: int, t: real): Int32 {
    JavaIntCast(d as real * t)
  }

  lemma ScaledCastOrdered(d: int, t1: real, t2: real)
    requires d as real * t1 <= d as real * t2
    ensures ScaledCast(d, t1) <= ScaledCast(d, t2)
  {
    JavaIntCastMonotone(d as real * t1, d as real * t2);
  }

  lemma ScaledCastMonotone(d: int, t1: real, t2: real)
    requires 0 <= d && t1 <= t2
    ensures ScaledCast(d, t1) <= ScaledCast(d, t2)
  {
    MulMonotone(t1, t2, d as real);
    ScaledCastOrdered(d, t1, t2);
  }

  /** No time gives nothing and the whole time gives all of `d`. */
  lemma ScaledCastEnds(d: int)
    requires 0 <= d <= INT_MAX
    ensures ScaledCast(d, 0.0) == 0 && ScaledCast(d, 1.0) == d
  {
    assert d as real * 0.0 == 0.0;
    assert d as real * 1.0 == d as real;
    JavaIntCastOfInt(0);
    JavaIntCastOfInt(d);
  }

  /** The cast of a fraction in [0, 1] of a non-negative `int` lies between zero and that `int`. */
  lemma ScaledCastOfFraction(d: int, t: real)
    requires 0 <= d <= INT_MAX && 0.0 <= t <= 1.0
    ensures 0 <= ScaledCast(d, t) <= d
  {
    ScaledCastMonotone(d, 0.0, t);
    ScaledCastMonotone(d, t, 1.0);
    ScaledCastEnds(d);
  }
}
