/** The few conversions of JavaScript numbers the synthesiser relies on:
    `x >> 0` and `x | 0` (ToInt32), the remainder operator `%`,
    `String.fromCharCode` (ToUint16) and `Array.prototype.slice(0, end)`. */
module JsNumbers {

  /** A UTF-16 code unit, the element of a JavaScript string. */
  type CodeUnit = x: int | 0 <= x < 0x1_0000

  /** An octet. */
  type Byte = x: int | 0 <= x < 0x100

  /** A value that may be `undefined`: an absent argument, or a hole in an
      array. */
  datatype Option<T> = None | Some(value: T)

  const TwoTo31: int := 0x8000_0000
  const TwoTo32: int := 0x1_0000_0000

  /** Truncation toward zero of a (finite) number. */
  function Trunc(x: real): (r: int)
    ensures x >= 0.0 ==> r == x.Floor
    ensures (r as real) <= x + 1.0 && x - 1.0 <= (r as real)
    ensures x < 0.0 ==> x <= (r as real) < x + 1.0
    ensures -1.0 < x < 1.0 ==> r == 0
  {
    if x >= 0.0 then x.Floor else -((-x).Floor)
  }

  /** ToInt32 of an integer: reduction modulo 2^32 into [-2^31, 2^31). */
  function ToInt32(n: int): (r: int)
    ensures -TwoTo31 <= r < TwoTo31
    ensures (r - n) % TwoTo32 == 0
    ensures -TwoTo31 <= n < TwoTo31 ==> r == n
  {
    var m := n % TwoTo32;
    if m < TwoTo31 then m else m - TwoTo32
  }

  /** `x >> 0` and `x | 0` for a finite number `x`. */
  function Int32(x: real): int
  {
    ToInt32(Trunc(x))
  }

  /** ToUint16, the conversion `String.fromCharCode` applies to each argument. */
  function ToUint16(x: real): (c: CodeUnit)
    ensures 0.0 <= x < 65536.0 ==> c == x.Floor
  {
    Trunc(x) % 0x1_0000
  }

  /** The remainder operator `a % b` on integers: the result takes the sign
      of `a`, is smaller than `b` in magnitude and differs from `a` by a
      multiple of `b`; these three facts determine it. */
  function JsRem(a: int, b: int): (r: int)
    requires b > 0
    ensures a >= 0 ==> 0 <= r < b
    ensures a < 0 ==> -b < r <= 0
    ensures (a - r) % b == 0
  {
    if a >= 0 then
      DivUnique(a - a % b, a / b, 0, b);
      a % b
    else
      DivUnique(a + (-a) % b, -((-a) / b), 0, b);
      -((-a) % b)
  }

  /** `s.slice(0, end)`: a negative `end` counts back from the end of `s`,
      and an `end` beyond the length is clamped to it. */
  function SliceTo<T>(s: seq<T>, end: int): (r: seq<T>)
    ensures 0 <= end <= |s| ==> r == s[..end]
    ensures end < 0 && |s| + end <= 0 ==> r == []
    ensures |s| <= end ==> r == s
  {
    if end < 0 then s[..if |s| + end < 0 then 0 else |s| + end]
    else s[..if end < |s| then end else |s|]
  }

  // Facts about real multiplication and division that the solver does not
  // find unaided.

  lemma MulNonNeg(a: real, b: real)
    requires 0.0 <= a && 0.0 <= b
    ensures 0.0 <= a * b
  {
  }

  lemma MulPos(a: real, b: real)
    requires 0.0 < a && 0.0 < b
    ensures 0.0 < a * b
  {
  }

  lemma QuotientBelowOne(x: real, y: real)
    requires 0.0 < y && 0.0 <= x < y
    ensures 0.0 <= x / y < 1.0
  {
    var z := x / y;
    assert z * y == x;
    if z >= 1.0 {
      assert (z - 1.0) * y == z * y - y;
      MulNonNeg(z - 1.0, y);
    }
  }

  lemma CancelPositive(a: real, y: real)
    requires 0.0 < y && a * y == 0.0
    ensures a == 0.0
  {
    if a > 0.0 {
      MulPos(a, y);
    }
  }

  /** The floor of an exact quotient of naturals is their integer quotient. */
  lemma FloorOfQuotient(a: int, b: int)
    requires 0 <= a && 0 < b
    ensures ((a as real) / (b as real)).Floor == a / b
  {
    var q, r := a / b, a % b;
    assert a == q * b + r;
    assert ((q * b) as real) == (q as real) * (b as real);
    assert (a as real) / (b as real) == (q as real) + (r as real) / (b as real);
    QuotientBelowOne(r as real, b as real);
  }

  lemma MulNonNegInt(a: int, b: int)
    requires 0 <= a && 0 <= b
    ensures 0 <= a * b
  {
  }

  /** Quotient and remainder are determined by any decomposition
      `x == q*b + r` with `0 <= r < b`. */
  lemma DivUnique(x: int, q: int, r: int, b: int)
    requires 0 < b && 0 <= r < b && x == q * b + r
    ensures x / b == q && x % b == r
  {
    var d := q - x / b;
    assert d * b == x % b - r;
    if d >= 1 {
      assert d * b == (d - 1) * b + b;
      MulNonNegInt(d - 1, b);
    } else if d <= -1 {
      assert d * b == -((-d - 1) * b) - b;
      MulNonNegInt(-d - 1, b);
    }
  }

  /** Taking `k` multiples of `d` away lowers the quotient by `k` and keeps
      the remainder. */
  lemma DivShift(x: int, k: int, d: int)
    requires 0 < d
    ensures (x - k * d) / d == x / d - k && (x - k * d) % d == x % d
  {
    DivUnique(x - k * d, x / d - k, x % d, d);
  }
}
