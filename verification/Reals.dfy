/**
  Products and powers of reals. `Times` names multiplication so that proofs can hide it and
  reason with the few facts stated here.
 */
module Reals {

  function Times(x: real, y: real): real {
    x * y
  }

  lemma TimesIs(x: real, y: real)
    ensures Times(x, y) == x * y
  {
  }

  lemma TimesMono(k: real, x: real, y: real)
    requires k >= 0.0 && x <= y
    ensures Times(k, x) <= Times(k, y)
  {
  }

  lemma TimesStrict(k: real, x: real, y: real)
    requires k > 0.0 && x < y
    ensures Times(k, x) < Times(k, y)
  {
  }

  lemma TimesUnits(k: real)
    ensures Times(k, 0.0) == 0.0 && Times(k, 1.0) == k
  {
  }

  lemma TimesFlip(x: real, y: real)
    ensures Times(x, y) == Times(y, x)
  {
  }

  /** A factor between -1 and 1 moves k at most by its own size. */
  lemma Swing(k: real, s: real)
    requires k >= 0.0 && -1.0 <= s <= 1.0
    ensures -k <= Times(k, s) <= k
  {
    TimesMono(k, -1.0, s);
    TimesMono(k, s, 1.0);
    assert Times(k, -1.0) == -k && Times(k, 1.0) == k;
  }

  lemma SquareOrder(a: real, b: real)
    requires a >= 0.0 && b >= 0.0 && a * a <= b * b
    ensures a <= b
  {
    if a > b {
      DifferenceOfSquares(a, b);
      TimesStrict(a - b, 0.0, a + b);
      TimesUnits(a - b);
    }
  }

  lemma DifferenceOfSquares(a: real, b: real)
    ensures Times(a - b, a + b) == a * a - b * b
  {
  }

  /** 0 <= a <= b < d puts the quotients by d in order within [0, 1). */
  lemma QuotientBounds(a: real, b: real, d: real)
    requires 0.0 <= a <= b < d
    ensures 0.0 <= a / d <= b / d < 1.0
  {
    var x, y := a / d, b / d;
    assert Times(d, x) == a && Times(d, y) == b;
    TimesUnits(d);
    if y >= 1.0 { TimesMono(d, 1.0, y); }
    if x > y { TimesStrict(d, y, x); }
    if x < 0.0 { TimesStrict(d, x, 0.0); }
  }

  function Pow(x: real, n: nat): real {
    if n == 0 then 1.0 else Times(x, Pow(x, n - 1))
  }
}
