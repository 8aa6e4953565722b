/** The two 32-bit bin maps and the bit tricks that search them. */
module BinMaps {
  import opened Bits

  const WIDTH: nat := 32

  type BinMap = x: nat | x < Pow2(WIDTH) witness 0

  function Idx2Bit(i: nat): (b: BinMap)
    requires i < WIDTH
  {
    Pow2Monotone(i, WIDTH);
    Pow2(i)
  }

  /** `map |= idx2bit(i)` */
  function Mark(m: BinMap, i: nat): (r: BinMap)
    requires i < WIDTH
    ensures forall k: nat :: BitAt(r, k) <==> k == i || BitAt(m, k)
  {
    assert forall k: nat :: BitAt(Or(m, Idx2Bit(i)), k) <==> k == i || BitAt(m, k) by {
      forall k: nat ensures BitAt(Or(m, Idx2Bit(i)), k) <==> k == i || BitAt(m, k) {
        OrBit(m, Idx2Bit(i), k);
        BitOfPow2(i, k);
      }
    }
    OrBound(WIDTH, m, Idx2Bit(i));
    Or(m, Idx2Bit(i))
  }

  /** `map &= ~idx2bit(i)` */
  function Clear(m: BinMap, i: nat): (r: BinMap)
    requires i < WIDTH
    ensures forall k: nat :: BitAt(r, k) <==> k != i && BitAt(m, k)
  {
    var b := Not(WIDTH, Idx2Bit(i));
    assert forall k: nat :: BitAt(And(m, b), k) <==> k != i && BitAt(m, k) by {
      forall k: nat ensures BitAt(And(m, b), k) <==> k != i && BitAt(m, k) {
        AndBit(m, b, k);
        BitOfPow2(i, k);
        if k < WIDTH {
          NotBit(WIDTH, Idx2Bit(i), k);
        } else {
          NoHighBits(WIDTH, m, k);
        }
      }
    }
    AndBound(m, b);
    And(m, b)
  }

  /** `map & idx2bit(i)`, as a truth value */
  predicate Marked(m: BinMap, i: nat)
    requires i < WIDTH
  {
    And(m, Idx2Bit(i)) != 0
  }

  lemma {:induction false} MarkedIsBit(m: BinMap, i: nat)
    requires i < WIDTH
    ensures Marked(m, i) <==> BitAt(m, i)
  {
    var a := And(m, Idx2Bit(i));
    AndBit(m, Idx2Bit(i), i);
    BitOfPow2(i, i);
    ZeroBits(i);
    if a != 0 {
      AndBound(m, Idx2Bit(i));
      var k := SomeBit(WIDTH, a);
      AndBit(m, Idx2Bit(i), k);
      BitOfPow2(i, k);
    }
  }

  /** `least_bit(x)`: `x & -x` */
  function LeastBit(x: BinMap): (r: nat) {
    And(x, Neg(WIDTH, x))
  }

  /** `left_bits(x)`: `(x << 1) | -(x << 1)`, the shift dropping the top bit */
  function LeftBits(x: BinMap): (r: nat) {
    var y := (2 * x) % Pow2(WIDTH);
    Or(y, Neg(WIDTH, y))
  }

  lemma {:induction false} BelowPow2(e: nat)
    ensures e < Pow2(e)
  {
    if e > 0 {
      BelowPow2(e - 1);
    }
  }

  /** One round of `compute_bit2idx`: `K = Y >> (b - e) & b`, with `b == 1 << e`. */
  function Round(y: nat, e: nat): nat {
    BelowPow2(e);
    And(Shr(y, Pow2(e) - e), Pow2(e))
  }

  /** The rounds for `e`, `e - 1`, ..., 0, each adding `K` to the index and shifting `Y` by `K`. */
  function Rounds(y: nat, e: nat): nat
    decreases e
  {
    var k := Round(y, e);
    k + if e == 0 then Shr(y, k) else Rounds(Shr(y, k), e - 1)
  }

  /** `compute_bit2idx`, the portable form: five rounds on `X - 1` */
  function Bit2Idx(x: nat): (n: nat)
    requires x > 0
  {
    Rounds(x - 1, 4)
  }

  // ---- least_bit isolates the lowest set bit

  /** Index of the lowest set bit, by a plain walk upwards. */
  function Lowest(x: nat): nat
    requires x > 0
  {
    if x % 2 == 1 then 0 else 1 + Lowest(x / 2)
  }

  lemma {:induction false} LowestIsLowest(x: nat, k: nat)
    requires x > 0
    ensures BitAt(x, Lowest(x))
    ensures k < Lowest(x) ==> !BitAt(x, k)
  {
    if x % 2 == 0 {
      ShrInner(x, Lowest(x / 2));
      if k > 0 {
        LowestIsLowest(x / 2, k - 1);
        ShrInner(x, k - 1);
      } else {
        LowestIsLowest(x / 2, 0);
      }
    }
  }

  lemma {:induction false} AndNot(w: nat, x: nat)
    requires x < Pow2(w)
    ensures And(x, Not(w, x)) == 0
    decreases w
  {
    if x != 0 && Not(w, x) != 0 {
      assert Not(w, x) / 2 == Not(w - 1, x / 2);
      AndNot(w - 1, x / 2);
    }
  }

  lemma {:induction false} AndNeg(w: nat, x: nat)
    requires 0 < x < Pow2(w)
    ensures And(x, Neg(w, x)) == Pow2(Lowest(x))
    ensures Lowest(x) < w
    decreases w
  {
    if x % 2 == 1 {
      assert Neg(w, x) / 2 == Not(w - 1, x / 2);
      AndNot(w - 1, x / 2);
    } else {
      assert Neg(w, x) / 2 == Neg(w - 1, x / 2);
      AndNeg(w - 1, x / 2);
    }
  }

  // ---- left_bits of a single bit is the mask of all bits above it

  lemma {:induction false} NegPow2Bit(w: nat, j: nat, k: nat)
    requires j <= w
    ensures Pow2(j) <= Pow2(w)
    ensures BitAt(Neg(w, Pow2(j)), k) <==> j <= k < w
    decreases w
  {
    Pow2Monotone(j, w);
    var n := Neg(w, Pow2(j));
    if w <= k {
      NoHighBits(w, n, k);
    } else if j == w {
      ZeroBits(k);
    } else if k > 0 {
      ShrInner(n, k - 1);
      if j == 0 {
        assert n / 2 == Not(w - 1, 0);
        NotBit(w - 1, 0, k - 1);
        ZeroBits(k - 1);
      } else {
        Pow2Monotone(j - 1, w - 1);
        assert n / 2 == Neg(w - 1, Pow2(j - 1));
        NegPow2Bit(w - 1, j - 1, k - 1);
      }
    }
  }

  lemma ShiftedOut(i: nat)
    requires i < WIDTH
    ensures (2 * Pow2(i)) % Pow2(WIDTH) == if i + 1 == WIDTH then 0 else Pow2(i + 1)
  {
    var p := Pow2(WIDTH);
    if i + 1 < WIDTH {
      Pow2Monotone(i + 1, WIDTH);
      ModUnique(2 * Pow2(i), p, 0, 2 * Pow2(i));
    } else {
      ModUnique(2 * Pow2(i), p, 1, 0);
    }
  }

  lemma {:induction false} LeftBitsBit(i: nat, k: nat)
    requires i < WIDTH
    ensures BitAt(LeftBits(Idx2Bit(i)), k) <==> i < k < WIDTH
  {
    ShiftedOut(i);
    if i + 1 == WIDTH {
      ZeroBits(k);
    } else {
      var y := Pow2(i + 1);
      NegPow2Bit(WIDTH, i + 1, k);
      OrBit(y, Neg(WIDTH, y), k);
      BitOfPow2(i + 1, k);
    }
  }

  // ---- compute_bit2idx inverts idx2bit

  lemma {:induction false} AndPow2(z: nat, e: nat)
    ensures And(z, Pow2(e)) == if BitAt(z, e) then Pow2(e) else 0
    decreases e
  {
    if z == 0 {
      ZeroBits(e);
    } else if e > 0 {
      ShrInner(z, e - 1);
      AndPow2(z / 2, e - 1);
    } else {
      assert And(z / 2, 0) == 0;
    }
  }

  lemma {:induction false} ShrShr(x: nat, j: nat, k: nat)
    ensures Shr(Shr(x, j), k) == Shr(x, j + k)
  {
    if k > 0 {
      ShrShr(x, j, k - 1);
    }
  }

  /** The word of `i` ones, shifted. */
  lemma {:induction false} ShrOnes(i: nat, k: nat)
    ensures Shr(Pow2(i) - 1, k) == if k <= i then Pow2(i - k) - 1 else 0
  {
    if k > 0 {
      ShrOnes(i, k - 1);
    }
  }

  lemma {:induction false} RoundOnes(i: nat, e: nat)
    ensures Round(Pow2(i) - 1, e) == if Pow2(e) < i then Pow2(e) else 0
  {
    hide And;
    var b := Pow2(e);
    BelowPow2(e);
    ShrShr(Pow2(i) - 1, b - e, e);
    ShrOnes(i, b);
    AndPow2(Shr(Pow2(i) - 1, b - e), e);
    assert i > b ==> Pow2(i - b) % 2 == 0;
  }

  lemma {:induction false} RoundsOnes(i: nat, e: nat)
    requires i <= 2 * Pow2(e)
    ensures Rounds(Pow2(i) - 1, e) == i
  {
    var k := Round(Pow2(i) - 1, e);
    RoundOnes(i, e);
    ShrOnes(i, k);
    if e > 0 {
      RoundsOnes(i - k, e - 1);
    }
  }

  lemma {:induction false} Bit2IdxInverts(i: nat)
    requires i < WIDTH
    ensures Bit2Idx(Idx2Bit(i)) == i
  {
    assert Pow2(4) == 16;
    RoundsOnes(i, 4);
  }

  // ---- the searches of malloc refine a linear scan

  /** The first marked index at or above `from`, by a linear scan; 32 when there is none. */
  function Scan(m: BinMap, from: nat): (r: nat)
    requires from <= WIDTH
    ensures from <= r <= WIDTH
    ensures r < WIDTH ==> BitAt(m, r)
    ensures forall k :: from <= k < r ==> !BitAt(m, k)
    decreases WIDTH - from
  {
    if from == WIDTH || BitAt(m, from) then from else Scan(m, from + 1)
  }

  /** A bin map searched with `least_bit` and `compute_bit2idx`: the first marked index. */
  lemma {:induction false} FirstMarked(m: BinMap)
    requires m != 0
    ensures LeastBit(m) > 0
    ensures Bit2Idx(LeastBit(m)) == Scan(m, 0) < WIDTH
  {
    AndNeg(WIDTH, m);
    var l := Lowest(m);
    Bit2IdxInverts(l);
    var s := Scan(m, 0);
    LowestIsLowest(m, s);
    if s == WIDTH {
      assert BitAt(m, l);
    }
  }

  /** `left_bits(idx2bit(i)) & map`, searched the same way: the first marked index above `i`. */
  lemma {:induction false} NextMarked(m: BinMap, i: nat)
    requires i < WIDTH
    ensures var l := And(LeftBits(Idx2Bit(i)), m);
            && l < Pow2(WIDTH)
            && (l == 0 <==> Scan(m, i + 1) == WIDTH)
            && (l != 0 ==> LeastBit(l) > 0 && Bit2Idx(LeastBit(l)) == Scan(m, i + 1))
  {
    var y := (2 * Idx2Bit(i)) % Pow2(WIDTH);
    OrBound(WIDTH, y, Neg(WIDTH, y));
    var l := And(LeftBits(Idx2Bit(i)), m);
    AndBound(LeftBits(Idx2Bit(i)), m);
    var s := Scan(m, i + 1);
    forall k: nat ensures BitAt(l, k) <==> i < k < WIDTH && BitAt(m, k) {
      AndBit(LeftBits(Idx2Bit(i)), m, k);
      LeftBitsBit(i, k);
    }
    if l == 0 {
      ZeroBits(s);
      assert s < WIDTH ==> BitAt(l, s);
    } else {
      FirstMarked(l);
      var t := Scan(l, 0);
      assert BitAt(l, t);
    }
  }
}
