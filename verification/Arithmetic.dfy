/** Products, quotients and rounding up, for natural numbers. */
module Arithmetic {
  function Min(a: nat, b: nat): nat {
    if a <= b then a else b
  }

  lemma Multiples(a: nat, b: nat, d: nat)
    ensures a < b ==> a * d + d <= b * d
    ensures a <= b ==> a * d <= b * d
  {
    if a < b {
      var more: nat := b - a - 1;
      assert b == a + 1 + more;
      assert b * d == a * d + d + more * d;
    }
  }

  lemma Division(n: nat, d: nat)
    requires d > 0
    ensures n == n / d * d + n % d && n % d < d
  {
  }

  lemma QuotientUnique(n: nat, d: nat, q: nat, r: nat)
    requires d > 0 && n == q * d + r && r < d
    ensures n / d == q && n % d == r
  {
    Division(n, d);
    Multiples(q, n / d, d);
    Multiples(n / d, q, d);
  }

  lemma QuotientIs(n: nat, d: nat, q: nat, r: nat)
    requires d > 0 && r < d
    ensures n == q * d + r <==> n / d == q && n % d == r
  {
    Division(n, d);
    if n == q * d + r {
      QuotientUnique(n, d, q, r);
    }
  }

  lemma Difference(a: nat, b: nat, d: nat)
    requires b <= a
    ensures (a - b) * d == a * d - b * d
  {
  }

  lemma PlusWhole(a: nat, d: nat)
    requires d > 0
    ensures (a + d) % d == a % d
  {
    var q, r := a / d, a % d;
    Division(a, d);
    Difference(q + 1, q, d);
    QuotientUnique(a + d, d, q + 1, r);
  }

  lemma QuotientsAscend(a: nat, b: nat, d: nat)
    requires d > 0 && a <= b
    ensures a / d <= b / d
  {
    Division(a, d);
    Division(b, d);
    Multiples(b / d, a / d, d);
  }

  lemma PlusMultiple(a: nat, q: nat, d: nat)
    requires d > 0
    ensures (a + q * d) / d == a / d + q
  {
    Division(a, d);
    assert a + q * d == (a / d + q) * d + a % d;
    QuotientUnique(a + q * d, d, a / d + q, a % d);
  }

  function CeilDiv(x: nat, d: nat): (q: nat)
    requires d > 0
    ensures x <= q * d < x + d
  {
    (x + d - 1) / d
  }

  /** q lies below the rounded-up quotient exactly when q full ones leave something over. */
  lemma BelowCeil(q: nat, x: nat, d: nat)
    requires d > 0
    ensures q * d < x <==> q < CeilDiv(x, d)
  {
    Multiples(q, CeilDiv(x, d), d);
    Multiples(CeilDiv(x, d), q, d);
  }

  /** x is `short` less than q full ones. */
  lemma CeilDivIs(x: nat, d: nat, q: nat, short: nat)
    requires short < d && x + short == q * d
    ensures CeilDiv(x, d) == q
  {
    Multiples(q, CeilDiv(x, d), d);
    Multiples(CeilDiv(x, d), q, d);
  }
}
