/** Option, used for the source's nullable values and for parsers. */
module Optional {
  datatype Option<+T> = None | Some(value: T)
}

/**
 * The parts of Java's numeric semantics the sky-screen code relies on:
 * 32-bit `int` arithmetic, the narrowing cast `(int)` from a floating-point
 * value (floating-point values are modelled as reals), `long` division and
 * `Long.toString`.
 */
module JavaNumerics {
  import opened Optional

  const INT_MIN: int := -0x8000_0000
  const INT_MAX: int := 0x7fff_ffff
  const TWO_32: int := 0x1_0000_0000

  /** The values of a Java `int`. */
  type Int32 = x: int | INT_MIN <= x <= INT_MAX

  function Abs(x: int): (r: nat)
    ensures r == x || r == -x
  {
    if x < 0 then -x else x
  }

  function AbsReal(x: real): (r: real)
    ensures 0.0 <= r && (r == x || r == -x)
  {
    if x < 0.0 then -x else x
  }

  /** `Math.abs(int)`: the magnitude, except that the most negative `int` is its own negation. */
  function JavaAbs(x: Int32): (r: Int32)
    ensures x != INT_MIN ==> r == Abs(x)
    ensures x == INT_MIN ==> r == INT_MIN
  {
    if x == INT_MIN then INT_MIN else Abs(x)
  }

  function Min(a: int, b: int): int {
    if a <= b then a else b
  }

  function Max(a: int, b: int): int {
    if a <= b then b else a
  }

  /** Java `int` addition and subtraction: the exact result reduced into 32-bit two's complement. */
  function Wrap32(x: int): (r: Int32)
    ensures (r - x) % TWO_32 == 0
    ensures INT_MIN <= x <= INT_MAX ==> r == x
  {
    (x - INT_MIN) % TWO_32 + INT_MIN
  }

  /** Rounding toward zero, the first step of Java's narrowing of a float or double to an integer. */
  function Trunc(x: real): (r: int)
    ensures 0.0 <= x ==> r as real <= x < r as real + 1.0
    ensures x < 0.0 ==> r as real - 1.0 < x <= r as real
  {
    if x >= 0.0 then x.Floor else -((-x).Floor)
  }

  lemma TruncMonotone(x: real, y: real)
    requires x <= y
    ensures Trunc(x) <= Trunc(y)
  {
  }

  /**
   * Java's `(int)` cast of a float or double (a NaN cannot occur here):
   * truncation toward zero, saturating at the ends of the `int` range.
   */
  function JavaIntCast(x: real): (r: Int32)
    ensures INT_MIN <= Trunc(x) <= INT_MAX ==> r == Trunc(x)
    ensures Trunc(x) > INT_MAX ==> r == INT_MAX
    ensures Trunc(x) < INT_MIN ==> r == INT_MIN
  {
    var t := Trunc(x);
    if t > INT_MAX then INT_MAX else if t < INT_MIN then INT_MIN else t
  }

  lemma JavaIntCastMonotone(x: real, y: real)
    requires x <= y
    ensures JavaIntCast(x) <= JavaIntCast(y)
  {
    TruncMonotone(x, y);
  }

  /** An integral value inside the `int` range survives the cast unchanged. */
  lemma JavaIntCastOfInt(n: Int32)
    ensures JavaIntCast(n as real) == n
  {
  }

  /** Java's `/` on `int` and `long` for a positive divisor: the quotient rounded toward zero. */
  function TruncDiv(a: int, b: int): (q: int)
    requires b > 0
    ensures 0 <= a ==> 0 <= q && q * b <= a < q * b + b
    ensures a < 0 ==> q <= 0 && q * b - b < a <= q * b
  {
    if a >= 0 then
      DivBounds(a, b);
      a / b
    else
      DivBounds(-a, b);
      assert -((-a) / b) * b == -(((-a) / b) * b);
      -((-a) / b)
  }

  /** Euclidean division of a natural number: the quotient times the divisor is within one divisor below it. */
  lemma DivBounds(a: nat, b: int)
    requires b > 0
    ensures 0 <= a / b && (a / b) * b <= a < (a / b) * b + b
  {
    assert a == (a / b) * b + a % b;
  }

  // ---------------------------------------------------------------------------
  // Decimal text of a `long`, as `Long.toString` writes it, and its reader.
  // ---------------------------------------------------------------------------

  predicate IsDigit(c: char) {
    '0' <= c <= '9'
  }

  predicate AllDigits(s: string) {
    forall i :: 0 <= i < |s| ==> IsDigit(s[i])
  }

  function DigitChar(d: int): (c: char)
    requires 0 <= d < 10
    ensures IsDigit(c) && c as int - '0' as int == d
  {
    ('0' as int + d) as char
  }

  /** The decimal digits of `n`, most significant first, without leading zeros. */
  function NatToDecimal(n: nat): (s: string)
    ensures 1 <= |s| && AllDigits(s)
    ensures s[0] == '0' ==> n == 0
    decreases n
  {
    if n < 10 then [DigitChar(n)] else NatToDecimal(n / 10) + [DigitChar(n % 10)]
  }

  /** The number a non-empty run of decimal digits denotes. */
  function DecimalValue(s: string): nat
    requires AllDigits(s)
    decreases |s|
  {
    if s == [] then 0
    else DecimalValue(s[..|s| - 1]) * 10 + (s[|s| - 1] as int - '0' as int)
  }

  lemma {:induction false} DecimalRoundTrip(n: nat)
    ensures DecimalValue(NatToDecimal(n)) == n
    decreases n
  {
    if n >= 10 {
      var s := NatToDecimal(n / 10) + [DigitChar(n % 10)];
      assert s[..|s| - 1] == NatToDecimal(n / 10);
      DecimalRoundTrip(n / 10);
    }
  }

  /** `Long.toString(n)`: an optional minus sign followed by the digits of |n|. */
  function LongToString(n: int): (s: string)
    ensures 1 <= |s|
    ensures s[0] == '-' <==> n < 0
    ensures n < 0 ==> 2 <= |s| && AllDigits(s[1..]) && s[1..] == NatToDecimal(-n)
    ensures 0 <= n ==> AllDigits(s) && s == NatToDecimal(n)
  {
    if n < 0 then "-" + NatToDecimal(-n) else NatToDecimal(n)
  }

  /** Reads back what `LongToString` writes; anything else is `None`. */
  function ParseLong(s: string): Option<int> {
    if 2 <= |s| && s[0] == '-' && AllDigits(s[1..]) then Option<int>.Some(-(DecimalValue(s[1..]) as int))
    else if 1 <= |s| && AllDigits(s) then Some(DecimalValue(s))
    else None
  }

  lemma LongToStringRoundTrip(n: int)
    ensures ParseLong(LongToString(n)) == Some(n)
  {
    var s := LongToString(n);
    if n < 0 {
      var digits := NatToDecimal(-n);
      assert s == "-" + digits;
      assert s[0] == '-' && s[1..] == digits;
      DecimalRoundTrip(-n);
      assert DecimalValue(s[1..]) == -n;
    } else {
      assert s == NatToDecimal(n);
      assert s[0] != '-';
      DecimalRoundTrip(n);
    }
  }
}
