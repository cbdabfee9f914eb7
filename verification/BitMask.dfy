/** Masks for powers of two, shared by the ring queue and the hash set. */
module BitMask {
  import opened Arithmetic

  /** Bitwise and of two unsigned words. */
  function And(a: nat, b: nat): nat
    decreases a
  {
    if a == 0 || b == 0 then 0
    else 2 * And(a / 2, b / 2) + (if a % 2 == 1 && b % 2 == 1 then 1 else 0)
  }

  function Pow2(k: nat): (p: nat)
    ensures p >= 1
  {
    if k == 0 then 1 else 2 * Pow2(k - 1)
  }

  /** `n & (capacity - 1)` is the remainder when the capacity is a power of two. */
  lemma {:induction false} MaskIsRemainder(n: nat, k: nat)
    ensures And(n, Pow2(k) - 1) == n % Pow2(k)
    decreases n
  {
    if n == 0 {
      assert 0 % Pow2(k) == 0;
    } else if k > 0 {
      var p := Pow2(k - 1);
      MaskIsRemainder(n / 2, k - 1);
      assert (Pow2(k) - 1) / 2 == p - 1 && (Pow2(k) - 1) % 2 == 1;
      DoubleRemainder(n, p);
    }
  }

  lemma DoubleRemainder(n: nat, p: nat)
    requires p > 0
    ensures n % (2 * p) == 2 * ((n / 2) % p) + n % 2
  {
    var q, r := (n / 2) / p, (n / 2) % p;
    Division(n / 2, p);
    assert 2 * (p * q) == (2 * p) * q;
    QuotientUnique(n, 2 * p, q, 2 * r + n % 2);
  }

  /** `capacity & (capacity - 1)` is zero exactly for powers of two (and for zero). */
  lemma {:induction false} PowerTest(c: nat)
    requires c > 0
    ensures And(c, c - 1) == 0 <==> exists k: nat :: Pow2(k) == c
  {
    if c == 1 {
      assert Pow2(0) == 1;
    } else if c % 2 == 1 {
      assert And(c / 2, (c - 1) / 2) == And(c / 2, c / 2);
      AndSelf(c / 2);
      forall k: nat ensures Pow2(k) != c {
      }
    } else {
      PowerTest(c / 2);
      assert (c - 1) / 2 == c / 2 - 1;
      if k: nat :| Pow2(k) == c / 2 {
        assert Pow2(k + 1) == c;
      }
      if k: nat :| Pow2(k) == c {
        assert Pow2(k - 1) == c / 2;
      }
    }
  }

  lemma {:induction false} AndSelf(a: nat)
    ensures And(a, a) == a
  {
    if a > 0 {
      AndSelf(a / 2);
    }
  }
}
