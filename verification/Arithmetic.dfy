/** Facts about products and quotients of variables. */
module Arithmetic {

  lemma MulMonotone(a: int, b: int, c: int)
    requires a <= b && 0 <= c
    ensures a * c <= b * c
  {
  }

  lemma Distribute(a: int, b: int, c: int)
    ensures (a + b) * c == a * c + b * c
  {
  }

  /** A two-digit number is below the product of its radices. */
  lemma DigitBelow(hi: int, hiRadix: int, lo: int, loRadix: int)
    requires 0 <= hi < hiRadix && 0 <= lo < loRadix
    ensures 0 <= hi * loRadix + lo < hiRadix * loRadix
  {
    MulMonotone(0, hi, loRadix);
    MulMonotone(hi + 1, hiRadix, loRadix);
    Distribute(hi, 1, loRadix);
  }

  /** Quotient and remainder of a two-digit number are its digits. */
  lemma Digits(hi: int, lo: int, radix: int)
    requires 0 <= lo < radix
    ensures (hi * radix + lo) / radix == hi
    ensures (hi * radix + lo) % radix == lo
  {
    var n := hi * radix + lo;
    var e := n / radix - hi;
    assert n == (n / radix) * radix + n % radix;
    Distribute(n / radix, -hi, radix);
    assert e * radix == lo - n % radix;
    if e >= 1 {
      MulMonotone(1, e, radix);
    } else if e <= -1 {
      MulMonotone(e, -1, radix);
    }
  }
}
