/** Division and divisors, as the resampler and the codecs need them. */
module Arithmetic {

  lemma MulGap(d: int, o: nat)
    ensures d >= 1 ==> d * o >= o
    ensures d <= -1 ==> d * o + o <= 0
  {
  }

  lemma MulBelow(a: nat, x: nat, y: nat)
    requires x <= y
    ensures a * x <= a * y && x * a <= y * a
  {
  }

  /** Quotient and remainder are what they multiply back to. */
  lemma DivIs(a: int, o: nat, q: int, r: nat)
    requires r < o && a == q * o + r
    ensures a / o == q && a % o == r
  {
    var d := a / o - q;
    assert d * o == r - a % o by {
      assert a == a / o * o + a % o;
      assert d * o == a / o * o - q * o;
    }
    MulGap(d, o);
  }

  lemma DivStep(d: nat, o: nat)
    requires o > 0
    ensures (d + o) / o == d / o + 1 && (d + o) % o == d % o
  {
    assert d == d / o * o + d % o;
    assert d + o == (d / o + 1) * o + d % o;
    DivIs(d + o, o, d / o + 1, d % o);
  }

  lemma CeilBelow(a: nat, o: nat, m: nat)
    requires o > 0 && a <= m * o
    ensures (a + o - 1) / o <= m
  {
    var q := (a + o - 1) / o;
    assert q * o <= a + o - 1;
    assert (q - m) * o == q * o - m * o;
    MulGap(q - m, o);
  }

  lemma MultipleOf(a: nat, d: nat)
    requires d > 0 && a % d == 0
    ensures a == a / d * d
  {
  }

  lemma IsMultiple(q: nat, d: nat)
    requires d > 0
    ensures q * d % d == 0
  {
    DivIs(q * d, d, q, 0);
  }

  lemma Regroup(a: nat, g: nat, q: nat, o: nat)
    ensures (a * g) * (q * o) == (q * a) * (o * g)
  {
  }

  /** The ceiling of n samples taken from one rate to the other stays within
      one group of outputs per input position and one more. */
  lemma CeilOfRates(orig: nat, newf: nat, g: nat, n: nat)
    requires orig > 0 && g > 0
    ensures orig * g > 0
    ensures ((newf * g) * n + orig * g - 1) / (orig * g) <= (n / orig + 1) * newf
  {
    MulBelow(g, 1, orig);
    var q := n / orig + 1;
    assert n <= q * orig;
    MulBelow(newf * g, n, q * orig);
    Regroup(newf, g, q, orig);
    CeilBelow((newf * g) * n, orig * g, q * newf);
  }
}
