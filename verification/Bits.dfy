/** The bit operations of the wire code on unsigned numbers, bit by bit, and what they amount to. */
module Bits {

  function Pow2(k: nat): (p: nat)
    ensures p >= 1
  {
    if k == 0 then 1 else 2 * Pow2(k - 1)
  }

  /** `a & b` */
  function And(a: nat, b: nat): nat {
    if a == 0 || b == 0 then 0 else (a % 2) * (b % 2) + 2 * And(a / 2, b / 2)
  }

  /** `a | b` */
  function Or(a: nat, b: nat): nat {
    if a == 0 then b
    else if b == 0 then a
    else (if a % 2 == 1 || b % 2 == 1 then 1 else 0) + 2 * Or(a / 2, b / 2)
  }

  /** `a << k` and `a >> k` */
  function Shl(a: nat, k: nat): nat {
    a * Pow2(k)
  }

  function Shr(a: nat, k: nat): nat {
    QuotientNat(a, Pow2(k));
    a / Pow2(k)
  }

  lemma QuotientNat(a: nat, p: nat)
    requires p > 0
    ensures a / p >= 0
  {}

  lemma DivModUnique(a: int, p: int, q: int, r: int)
    requires a == q * p + r && 0 <= r < p
    ensures a / p == q && a % p == r
  {
    var d := a / p - q;
    assert a == (a / p) * p + a % p;
    assert d * p == r - a % p;
    assert d >= 1 ==> d * p >= p;
    assert d <= -1 ==> d * p <= -p;
  }

  /** Halving commutes with division and remainder by a power of two. */
  lemma Halves(a: nat, k: nat)
    requires k > 0
    ensures a % Pow2(k) == a % 2 + 2 * ((a / 2) % Pow2(k - 1))
    ensures a / Pow2(k) == (a / 2) / Pow2(k - 1)
  {
    var p := Pow2(k - 1);
    var q, r := (a / 2) / p, (a / 2) % p;
    assert a / 2 == q * p + r;
    assert a == 2 * (q * p) + (2 * r + a % 2);
    assert 2 * (q * p) == q * (2 * p);
    DivModUnique(a, 2 * p, q, 2 * r + a % 2);
  }

  /** Masking the low `k` bits is the remainder. */
  lemma {:induction false} AndLow(a: nat, k: nat)
    ensures And(a, Pow2(k) - 1) == a % Pow2(k)
  {
    if k > 0 {
      AndLow(a / 2, k - 1);
      Halves(a, k);
      assert (Pow2(k) - 1) / 2 == Pow2(k - 1) - 1 && (Pow2(k) - 1) % 2 == 1;
    }
  }

  /** A mask shifted up by `k` tests the bits above `k`. */
  lemma {:induction false} AndShifted(a: nat, m: nat, k: nat)
    ensures And(a, Shl(m, k)) == Shl(And(Shr(a, k), m), k)
  {
    if k > 0 {
      AndShifted(a / 2, m, k - 1);
      Halves(a, k);
      ShlStep(m, k);
      ShlStep(And(Shr(a, k), m), k);
      AndEven(a, Shl(m, k - 1));
    } else {
      assert Shr(a, 0) == a && Shl(m, 0) == m;
    }
  }

  lemma ShlStep(m: nat, k: nat)
    requires k > 0
    ensures Shl(m, k) == 2 * Shl(m, k - 1)
  {}

  lemma AndEven(a: nat, b: nat)
    ensures And(a, 2 * b) == 2 * And(a / 2, b)
  {}

  /** Setting bits above those in use adds them. */
  lemma {:induction false} OrAdds(a: nat, b: nat, k: nat)
    requires a < Pow2(k)
    ensures Or(a, Shl(b, k)) == a + Shl(b, k)
  {
    if k > 0 && a > 0 {
      OrAdds(a / 2, b, k - 1);
      ShlStep(b, k);
    }
  }

  lemma {:induction false} OrCommutes(a: nat, b: nat)
    ensures Or(a, b) == Or(b, a)
  {
    if a > 0 && b > 0 {
      OrCommutes(a / 2, b / 2);
    }
  }

  lemma {:induction false} OrBound(a: nat, b: nat, k: nat)
    requires a < Pow2(k) && b < Pow2(k)
    ensures Or(a, b) < Pow2(k)
  {
    if a > 0 && b > 0 {
      OrBound(a / 2, b / 2, k - 1);
    }
  }

  lemma {:induction false} PowersAdd(n: nat, k: nat)
    ensures Pow2(n + k) == Pow2(n) * Pow2(k)
  {
    if n > 0 {
      PowersAdd(n - 1, k);
      assert (2 * Pow2(n - 1)) * Pow2(k) == 2 * (Pow2(n - 1) * Pow2(k));
    }
  }

  lemma PowZero()
    ensures Pow2(0) == 1
  {}

  lemma Powers()
    ensures Pow2(1) == 2 && Pow2(2) == 4 && Pow2(3) == 8 && Pow2(4) == 16 && Pow2(5) == 32 && Pow2(6) == 64
    ensures Pow2(7) == 128 && Pow2(8) == 256 && Pow2(12) == 0x1000
    ensures Pow2(14) == 0x4000 && Pow2(21) == 0x20_0000 && Pow2(28) == 0x1000_0000
  {}
}
