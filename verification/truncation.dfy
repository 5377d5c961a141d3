/** Go's conversion `int(x)` of a float64 `x` discards the fractional part,
    i.e. it rounds toward zero (not toward minus infinity). The geometry is
    computed over exact reals, so the conversion is modelled on `real`.
 */
module Truncation {

  /** `int(x)` for a value `x` that fits in an int: the integer between `x`
      and zero that is less than one away from `x`. */
  function Trunc(x: real): (n: int)
    ensures 0.0 <= x ==> 0 <= n && n as real <= x < n as real + 1.0
    ensures x < 0.0 ==> n <= 0 && n as real - 1.0 < x <= n as real
  {
    if 0.0 <= x then x.Floor else -((-x).Floor)
  }

  /** The two bounds of `Trunc`'s contract pin the result down: no other
      integer satisfies them. */
  lemma TruncUnique(x: real, k: int)
    requires 0.0 <= x ==> k as real <= x < k as real + 1.0
    requires x < 0.0 ==> k as real - 1.0 < x <= k as real
    ensures k == Trunc(x)
  {
  }

  /** Truncation is symmetric about zero, which flooring is not. */
  lemma TruncNegate(x: real)
    ensures Trunc(-x) == -Trunc(x)
  {
  }

  /** A negative non-integral value is rounded up toward zero: `int(x)` is one
      more than the floor of `x`. */
  lemma TruncNegativeRoundsUp(x: real)
    requires x < 0.0
    requires x != x.Floor as real
    ensures Trunc(x) == x.Floor + 1
  {
  }

  /** An integral value is left unchanged. */
  lemma TruncOfInt(k: int)
    ensures Trunc(k as real) == k
  {
  }

  /** Go's integer division, which truncates toward zero; Dafny's `/` on
      `int` is Euclidean and differs from it for a negative dividend. */
  function TruncDiv(a: int, b: int): (q: int)
    requires 0 < b
    ensures 0 <= a ==> 0 <= q && q * b <= a < q * b + b
    ensures a < 0 ==> q <= 0 && q * b - b < a <= q * b
  {
    if 0 <= a then
      DivBounds(a, b);
      a / b
    else
      DivBounds(-a, b);
      NegateProduct(-a / b, b);
      -((-a) / b)
  }

  lemma DivBounds(n: int, b: int)
    requires 0 <= n && 0 < b
    ensures 0 <= n / b
    ensures (n / b) * b <= n < (n / b) * b + b
  {
  }

  lemma NegateProduct(k: int, b: int)
    ensures (-k) * b == -(k * b)
  {
  }

  /** Converting the exact quotient of two integers to int gives their
      truncating integer quotient. */
  lemma {:induction false} TruncOfQuotient(a: int, b: int)
    requires 0 < b
    ensures Trunc(a as real / b as real) == TruncDiv(a, b)
  {
    var q := TruncDiv(a, b);
    CastProduct(q, b);
    if 0 <= a {
      QuotientBounds(q as real, a as real, q as real + 1.0, b as real);
    } else {
      QuotientBounds(q as real - 1.0, a as real, q as real, b as real);
    }
    TruncUnique(a as real / b as real, q);
  }

  lemma CastProduct(q: int, b: int)
    ensures (q * b) as real == q as real * b as real
    ensures (q * b + b) as real == (q as real + 1.0) * b as real
    ensures (q * b - b) as real == (q as real - 1.0) * b as real
  {
  }

  /** Bounds on a product turned into bounds on a quotient. */
  lemma QuotientBounds(lo: real, n: real, hi: real, c: real)
    requires 0.0 < c
    ensures lo * c <= n ==> lo <= n / c
    ensures lo * c < n ==> lo < n / c
    ensures n <= hi * c ==> n / c <= hi
    ensures n < hi * c ==> n / c < hi
  {
  }
}
