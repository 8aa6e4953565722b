/** Unsigned machine words as natural numbers, with the bit operations of the C source
    written out over them.  A shift right is repeated halving, so the bits of a word are the
    parities met on the way down. */
module Bits {

  function Pow2(k: nat): (p: nat)
    ensures p > 0
  {
    if k == 0 then 1 else 2 * Pow2(k - 1)
  }

  /** `x >> k` */
  function Shr(x: nat, k: nat): nat {
    if k == 0 then x else Shr(x, k - 1) / 2
  }

  /** Bit `k` of `x` is set. */
  predicate BitAt(x: nat, k: nat) {
    Shr(x, k) % 2 == 1
  }

  /** `x & y` */
  function And(x: nat, y: nat): nat {
    if x == 0 || y == 0 then 0 else 2 * And(x / 2, y / 2) + (x % 2) * (y % 2)
  }

  /** `x | y` */
  function Or(x: nat, y: nat): nat
    decreases x + y
  {
    if x == 0 then y
    else if y == 0 then x
    else 2 * Or(x / 2, y / 2) + (if x % 2 + y % 2 > 0 then 1 else 0)
  }

  /** `~x` in `w` bits */
  function Not(w: nat, x: nat): nat
    requires x < Pow2(w)
  {
    Pow2(w) - 1 - x
  }

  /** Unsigned negation `-x` in `w` bits */
  function Neg(w: nat, x: nat): (r: nat)
    requires x <= Pow2(w)
    ensures r < Pow2(w)
  {
    if x == 0 then 0 else Pow2(w) - x
  }

  // ---- shifts

  lemma {:induction false} ShrInner(x: nat, k: nat)
    ensures Shr(x, k + 1) == Shr(x / 2, k)
  {
    if k > 0 {
      ShrInner(x, k - 1);
    }
  }

  lemma {:induction false} ShrMonotone(x: nat, y: nat, k: nat)
    requires x <= y
    ensures Shr(x, k) <= Shr(y, k)
  {
    if k > 0 {
      ShrMonotone(x, y, k - 1);
    }
  }

  lemma {:induction false} ShrAgreeAbove(x: nat, y: nat, j: nat, k: nat)
    requires j <= k && Shr(x, j) == Shr(y, j)
    ensures Shr(x, k) == Shr(y, k)
  {
    if j < k {
      ShrAgreeAbove(x, y, j, k - 1);
    }
  }

  lemma MulMonotone(a: nat, b: nat, p: nat)
    requires a <= b
    ensures a * p <= b * p
  {
  }

  lemma MulStep(a: nat, b: nat, p: nat)
    ensures a < b ==> (a + 1) * p <= b * p
  {
    if a < b {
      MulMonotone(a + 1, b, p);
    }
  }

  lemma HalfBounds(x: nat, q: nat, p: nat)
    requires q * p <= x < (q + 1) * p
    ensures (q / 2) * (2 * p) <= x < (q / 2 + 1) * (2 * p)
  {
    var h := q / 2;
    assert h * (2 * p) == (2 * h) * p;
    assert (h + 1) * (2 * p) == (2 * h + 2) * p;
    MulMonotone(2 * h, q, p);
    MulMonotone(q + 1, 2 * h + 2, p);
  }

  /** `x >> k` is the quotient by a power of two. */
  lemma {:induction false} ShrBounds(x: nat, k: nat)
    ensures Shr(x, k) * Pow2(k) <= x < (Shr(x, k) + 1) * Pow2(k)
  {
    if k > 0 {
      ShrBounds(x, k - 1);
      HalfBounds(x, Shr(x, k - 1), Pow2(k - 1));
    }
  }

  lemma ShrUnique(x: nat, k: nat, q: nat)
    requires q * Pow2(k) <= x < (q + 1) * Pow2(k)
    ensures Shr(x, k) == q
  {
    ShrBounds(x, k);
    MulStep(Shr(x, k), q, Pow2(k));
    MulStep(q, Shr(x, k), Pow2(k));
  }

  lemma ShrZero(x: nat, k: nat)
    requires x < Pow2(k)
    ensures Shr(x, k) == 0
  {
    ShrUnique(x, k, 0);
  }

  lemma {:induction false} Pow2Monotone(j: nat, k: nat)
    requires j <= k
    ensures Pow2(j) <= Pow2(k)
    ensures j < k ==> Pow2(j) < Pow2(k)
  {
    if j < k {
      Pow2Monotone(j, k - 1);
    }
  }

  lemma DoubleFactor(a: nat, b: nat)
    ensures a * (2 * b) == 2 * (a * b)
  {
  }

  lemma {:induction false} Pow2Add(j: nat, k: nat)
    ensures Pow2(j + k) == Pow2(j) * Pow2(k)
  {
    if k > 0 {
      Pow2Add(j, k - 1);
      DoubleFactor(Pow2(j), Pow2(k - 1));
    }
  }

  /** Bits at or above the width of a word are clear. */
  lemma NoHighBits(w: nat, x: nat, k: nat)
    requires x < Pow2(w) && w <= k
    ensures !BitAt(x, k)
  {
    Pow2Monotone(w, k);
    ShrZero(x, k);
  }

  lemma {:induction false} BitOfPow2(i: nat, k: nat)
    ensures BitAt(Pow2(i), k) == (i == k)
  {
    if k == 0 {
    } else {
      ShrInner(Pow2(i), k - 1);
      if i == 0 {
        ZeroBits(k - 1);
      } else {
        BitOfPow2(i - 1, k - 1);
      }
    }
  }

  lemma {:induction false} ZeroBits(k: nat)
    ensures Shr(0, k) == 0
  {
    if k > 0 {
      ZeroBits(k - 1);
    }
  }

  // ---- the bits of compound words

  lemma {:induction false} AndBit(x: nat, y: nat, k: nat)
    ensures BitAt(And(x, y), k) == (BitAt(x, k) && BitAt(y, k))
    decreases k
  {
    if x == 0 || y == 0 {
      ZeroBits(k);
    } else if k > 0 {
      assert And(x, y) / 2 == And(x / 2, y / 2);
      ShrInner(x, k - 1);
      ShrInner(y, k - 1);
      ShrInner(And(x, y), k - 1);
      AndBit(x / 2, y / 2, k - 1);
    }
  }

  lemma {:induction false} OrBit(x: nat, y: nat, k: nat)
    ensures BitAt(Or(x, y), k) == (BitAt(x, k) || BitAt(y, k))
    decreases k
  {
    if x == 0 || y == 0 {
      ZeroBits(k);
    } else if k > 0 {
      assert Or(x, y) / 2 == Or(x / 2, y / 2);
      ShrInner(x, k - 1);
      ShrInner(y, k - 1);
      ShrInner(Or(x, y), k - 1);
      OrBit(x / 2, y / 2, k - 1);
    }
  }

  lemma {:induction false} NotBit(w: nat, x: nat, k: nat)
    requires x < Pow2(w) && k < w
    ensures BitAt(Not(w, x), k) == !BitAt(x, k)
    decreases k
  {
    if k > 0 {
      ShrInner(x, k - 1);
      ShrInner(Not(w, x), k - 1);
      assert Not(w, x) / 2 == Not(w - 1, x / 2);
      NotBit(w - 1, x / 2, k - 1);
    }
  }

  lemma {:induction false} OrBound(w: nat, x: nat, y: nat)
    requires x < Pow2(w) && y < Pow2(w)
    ensures Or(x, y) < Pow2(w)
    decreases w
  {
    if x != 0 && y != 0 {
      OrBound(w - 1, x / 2, y / 2);
    }
  }

  lemma {:induction false} AndBound(x: nat, y: nat)
    ensures And(x, y) <= x
  {
    if x != 0 && y != 0 {
      AndBound(x / 2, y / 2);
    }
  }

  /** A non-zero word has a set bit inside its width. */
  lemma {:induction false} SomeBit(w: nat, x: nat) returns (k: nat)
    requires 0 < x < Pow2(w)
    ensures k < w && BitAt(x, k)
  {
    if x % 2 == 1 {
      k := 0;
    } else {
      k := SomeBit(w - 1, x / 2);
      ShrInner(x, k);
      k := k + 1;
    }
  }

  lemma AndOddMask(x: nat, p: nat)
    requires p > 0
    ensures And(x, 2 * p - 1) == 2 * And(x / 2, p - 1) + x % 2
  {
    assert (2 * p - 1) / 2 == p - 1 && (2 * p - 1) % 2 == 1;
  }

  lemma AndNothing(x: nat)
    ensures And(x, 0) == 0
  {
  }

  /** Masking with `2^k - 1` is the remainder by `2^k`. */
  lemma {:induction false} MaskIsMod(x: nat, k: nat)
    ensures And(x, Pow2(k) - 1) == x % Pow2(k)
    decreases k
  {
    hide And;
    if k > 0 {
      MaskIsMod(x / 2, k - 1);
      AndOddMask(x, Pow2(k - 1));
      ModDouble(x, Pow2(k - 1));
    } else {
      AndNothing(x);
    }
  }

  lemma ModDouble(x: nat, p: nat)
    requires p > 0
    ensures x % (2 * p) == 2 * ((x / 2) % p) + x % 2
  {
    var h, q := x / 2, x / 2 / p;
    assert h == p * q + h % p;
    assert x == (2 * p) * q + (2 * (h % p) + x % 2) by {
      assert 2 * (p * q) == (2 * p) * q;
    }
    ModUnique(x, 2 * p, q, 2 * (h % p) + x % 2);
  }

  lemma ModUnique(x: nat, d: nat, q: nat, r: nat)
    requires d > 0 && x == d * q + r && r < d
    ensures x / d == q && x % d == r
  {
    var q', r' := x / d, x % d;
    assert x == d * q' + r';
    MulStep(q, q', d);
    MulStep(q', q, d);
  }

  // ---- powers of two

  ghost predicate IsPower(x: nat) { exists k: nat {:trigger Pow2(k)} :: x == Pow2(k) }

  /** `(x & (x - 1)) == 0` is the test for a power of two. */
  lemma {:induction false} PowerTest(x: nat)
    requires x > 0
    ensures And(x, x - 1) == 0 <==> IsPower(x)
  {
    if x == 1 {
      assert x == Pow2(0);
    } else if x % 2 == 0 {
      PowerTest(x / 2);
      assert (x - 1) / 2 == x / 2 - 1;
      if IsPower(x / 2) {
        var k: nat :| x / 2 == Pow2(k);
        assert x == Pow2(k + 1);
      }
      if IsPower(x) {
        var k: nat :| x == Pow2(k);
        assert k > 0 && x / 2 == Pow2(k - 1);
      }
    } else {
      assert And(x / 2, x / 2) > 0 by {
        AndSelf(x / 2);
      }
      assert (x - 1) / 2 == x / 2;
      forall k: nat {:trigger Pow2(k)} ensures x != Pow2(k) {
        assert k > 0 ==> Pow2(k) == 2 * Pow2(k - 1);
      }
    }
  }

  lemma {:induction false} AndSelf(x: nat)
    ensures And(x, x) == x
  {
    if x > 0 {
      AndSelf(x / 2);
    }
  }

  lemma ModMul(d: nat, q: nat)
    requires d > 0
    ensures (d * q) % d == 0
  {
    ModUnique(d * q, d, q, 0);
  }

  lemma MulAssoc(a: nat, b: nat, c: nat)
    ensures (a * b) * c == a * (b * c)
  {
  }

  lemma TimesEight(d: nat, q: nat)
    requires d % 8 == 0
    ensures (d * q) % 8 == 0
  {
    MulAssoc(8, d / 8, q);
    ModMul(8, d / 8 * q);
  }

  lemma Floor(y: nat, d: nat)
    requires d > 0
    ensures y - y % d == d * (y / d) && 0 <= y % d < d
  {
  }
}
