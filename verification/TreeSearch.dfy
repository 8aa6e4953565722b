/** Searching the tries: where a size belongs, which chunk fits a request best. */
module TreeSearch {
  import opened Bits
  import opened BinMaps
  import opened Sizes
  import opened TreeBins

  // ---- subtrees

  /** Key `d` is `k` or lies below it. */
  predicate Below(d: Key, k: Key) {
    d.bin == k.bin && d.lvl <= k.lvl && Shr(d.prefix, k.lvl - d.lvl) == k.prefix
  }

  lemma BelowChild(d: Key, k: Key, c: nat)
    requires Below(d, k) && c <= 1
    ensures Below(ChildKey(d, c), k)
  {
    ShrInner(2 * d.prefix + c, k.lvl - d.lvl);
  }

  lemma BelowFits(s: nat, d: Key, k: Key)
    requires Fits(s, d) && Below(d, k) && KeyRange(k)
    ensures Fits(s, k)
  {
    ShrShr(s, d.lvl + 1, k.lvl - d.lvl);
  }

  predicate IsNode(t: Tries, p: int) {
    p in t.held && t.held[p].role.InTree?
  }

  predicate InSub(t: Tries, p: int, k: Key) {
    IsNode(t, p) && Below(t.held[p].key, k)
  }

  /** The keys above the key of a node are all taken. */
  lemma {:induction false} AboveTaken(t: Tries, d: Key, j: nat)
    requires TreesOk(t) && d in t.slot && d.lvl + j <= TopBit(d.bin)
    ensures Key(d.bin, d.lvl + j, Shr(d.prefix, j)) in t.slot
  {
    if j > 0 {
      AboveTaken(t, d, j - 1);
      var e := Key(d.bin, d.lvl + j - 1, Shr(d.prefix, j - 1));
      assert KeyOk(t, e);
      assert ParentKey(e) == Key(d.bin, d.lvl + j, Shr(d.prefix, j));
    }
  }

  /** A node below the node at `k` is below the child of `k` on the side of its own bit. */
  lemma ChildCovers(t: Tries, p: int, k: Key) returns (c: nat)
    requires TreesOk(t) && RingsOk(t) && k in t.slot && InSub(t, p, k) && p != t.slot[k]
    ensures c <= 1 && k.lvl >= 0 && ChildKey(k, c) in t.slot && InSub(t, p, ChildKey(k, c))
  {
    var d := t.held[p].key;
    assert NodeOk(t, p);
    assert KeyOk(t, d) && KeyOk(t, k);
    var j := k.lvl - d.lvl;
    assert j > 0;
    AboveTaken(t, d, j - 1);
    c := Shr(d.prefix, j - 1) % 2;
  }

  lemma RootCovers(t: Tries, p: int)
    requires TreesOk(t) && RingsOk(t) && IsNode(t, p)
    ensures t.held[p].key.bin < NBINS && RootKey(t.held[p].key.bin) in t.slot && InSub(t, p, RootKey(t.held[p].key.bin))
  {
    var d := t.held[p].key;
    assert NodeOk(t, p);
    assert KeyOk(t, d);
    var j := TopBit(d.bin) - d.lvl;
    AboveTaken(t, d, j);
    assert KeyOk(t, Key(d.bin, TopBit(d.bin), Shr(d.prefix, j)));
  }

  // ---- the sizes of a subtree

  /** The sizes that fit a key are those from `Lo` up to `Hi`. */
  function Lo(k: Key): nat
    requires k.lvl >= -1
  {
    k.prefix * Pow2(k.lvl + 1)
  }

  function Hi(k: Key): nat
    requires k.lvl >= -1
  {
    (k.prefix + 1) * Pow2(k.lvl + 1)
  }

  lemma FitsBetween(s: nat, k: Key)
    requires Fits(s, k)
    ensures Lo(k) <= s < Hi(k)
  {
    ShrBounds(s, k.lvl + 1);
  }

  lemma Halves(k: Key)
    requires k.lvl >= 0
    ensures Lo(ChildKey(k, 0)) == Lo(k) && Hi(ChildKey(k, 0)) == Lo(ChildKey(k, 1)) && Hi(ChildKey(k, 1)) == Hi(k)
    ensures Lo(k) < Lo(ChildKey(k, 1)) < Hi(k)
  {
    var p, q := Pow2(k.lvl), k.prefix;
    assert q * (2 * p) == (2 * q) * p;
    assert (q + 1) * (2 * p) == (2 * q + 2) * p;
    assert (2 * q + 1) * p == (2 * q) * p + p;
    assert (2 * q + 2) * p == (2 * q + 1) * p + p;
  }

  lemma SubBetween(t: Tries, p: int, k: Key)
    requires TreesOk(t) && RingsOk(t) && k in t.slot && InSub(t, p, k)
    ensures k.lvl >= -1 && Fits(t.held[p].size, k) && Lo(k) <= t.held[p].size < Hi(k)
  {
    assert KeyOk(t, k);
    assert FitOk(t, p);
    BelowFits(t.held[p].size, t.held[p].key, k);
    FitsBetween(t.held[p].size, k);
  }

  // ---- the size bits, shifted out from the top one by one

  /** `x << n` in 64 bits */
  function Shl(x: nat, n: nat): nat {
    if n == 0 then x else (2 * Shl(x, n - 1)) % SPACE
  }

  lemma {:induction false} LowBits(y: nat, w: nat, j: nat)
    requires j < w
    ensures BitAt(y % Pow2(w), j) == BitAt(y, j)
    decreases j
  {
    ModDouble(y, Pow2(w - 1));
    var r := (y / 2) % Pow2(w - 1);
    if j > 0 {
      LowBits(y / 2, w - 1, j - 1);
      LowDigit(2 * r + y % 2, r, j - 1);
      ShrInner(y, j - 1);
    }
  }

  lemma LowDigit(x: nat, r: nat, j: nat)
    requires x / 2 == r
    ensures BitAt(x, j + 1) == BitAt(r, j)
  {
    ShrInner(x, j);
  }

  lemma DoubledBit(y: nat, k: nat)
    requires 1 <= k < 64
    ensures BitAt((2 * y) % SPACE, k) == BitAt(y, k - 1)
  {
    Pow64();
    LowBits(2 * y, 64, k);
    ShrInner(2 * y, k - 1);
  }

  lemma {:induction false} ShlBit(x: nat, n: nat, k: nat)
    requires n <= k < 64
    ensures BitAt(Shl(x, n), k) == BitAt(x, k - n)
  {
    if n > 0 {
      DoubledBit(Shl(x, n - 1), k);
      ShlBit(x, n - 1, k - 1);
    }
  }

  /** The sign bit of the shifted size is the bit that the node tests. */
  lemma SideBit(x: nat, lvl: nat)
    requires lvl <= 63 && x < SPACE
    ensures Shl(x, 63 - lvl) < SPACE
    ensures Shl(x, 63 - lvl) / 0x8000_0000_0000_0000 == if BitAt(x, lvl) then 1 else 0
  {
    ShlBit(x, 63 - lvl, 63);
    var y := Shl(x, 63 - lvl);
    Pow64();
    assert Pow2(64) == 2 * Pow2(63);
    ShrBounds(y, 63);
    var q := Shr(y, 63);
    MulStep(1, q, Pow2(63));
    assert q <= 1;
  }

  // ---- the walk of insert_large_chunk

  function Side(s: nat, lvl: nat): nat { if BitAt(s, lvl) then 1 else 0 }

  /** The walk for size `s` has come to the key `k`. */
  ghost predicate Walking(t: Tries, s: nat, k: Key) {
    && TreesOk(t) && RingsOk(t) && Settled(t) && SizeOk(s)
    && k in t.slot && Fits(s, k) && (s in t.node ==> InSub(t, t.node[s], k))
  }

  lemma WalkStart(t: Tries, s: nat)
    requires TreesOk(t) && RingsOk(t) && Settled(t) && SizeOk(s) && RootKey(TreeIndex(s)) in t.slot
    ensures Walking(t, s, RootKey(TreeIndex(s)))
  {
    FitsRoot(s);
    if s in t.node {
      var p := t.node[s];
      assert SizeHeld(t, s);
      assert RingOk(t, p) && FitOk(t, p);
      RootCovers(t, p);
    }
  }

  lemma WalkStep(t: Tries, s: nat, k: Key)
    requires Walking(t, s, k) && t.slot[k] in t.held && t.held[t.slot[k]].size != s
    ensures k.lvl >= 0
    ensures var d := ChildKey(k, Side(s, k.lvl));
            && Fits(s, d)
            && (d in t.slot ==> Walking(t, s, d))
            && (d !in t.slot ==> FreeKey(t, d) && s !in t.node)
  {
    var x := t.slot[k];
    assert KeyOk(t, k) && FitOk(t, x);
    FitsChild(s, k, Side(s, k.lvl));
    assert ParentKey(ChildKey(k, Side(s, k.lvl))) == k;
    if s in t.node {
      var p := t.node[s];
      assert SizeHeld(t, s);
      var c := ChildCovers(t, p, k);
      SubBetween(t, p, ChildKey(k, c));
      FitsChild(s, k, c);
    }
  }

  lemma WalkFound(t: Tries, s: nat, k: Key)
    requires Walking(t, s, k) && t.slot[k] in t.held && t.held[t.slot[k]].size == s
    ensures s in t.node && t.node[s] == t.slot[k]
  {
    assert KeyOk(t, k);
    assert RingOk(t, t.slot[k]);
  }

  // ---- the search of tmalloc_large and tmalloc_small

  /** Part of a trie still to be searched. */
  datatype Spot = Nowhere | Spot(k: Key)

  /** The least remainder so far is at most that of `p`. */
  predicate Seen(t: Tries, nb: nat, rsize: nat, p: int)
    requires p in t.held
  {
    nb + rsize <= t.held[p].size
  }

  /** `p` is in the subtree at the spot, or larger than everything in it. */
  predicate Within(t: Tries, at: Spot, p: int)
    requires p in t.held
  {
    at.Spot? && at.k.lvl >= -1 && (InSub(t, p, at.k) || Hi(at.k) <= t.held[p].size)
  }

  predicate Candidate(t: Tries, nb: nat, p: int) {
    IsNode(t, p) && nb <= t.held[p].size
  }

  predicate SpotOk(t: Tries, bin: nat, at: Spot) {
    at.Spot? ==> at.k in t.slot && at.k.bin == bin && at.k.lvl >= -1
  }

  /** First walk, in the bin of `nb`: every candidate of the bin is accounted for, or below the current
      node, or at `rest`, the deepest right subtree not taken. */
  ghost predicate Searching(t: Tries, nb: nat, bin: nat, rsize: nat, cur: Spot, rest: Spot) {
    && TreesOk(t) && RingsOk(t)
    && SpotOk(t, bin, cur) && SpotOk(t, bin, rest)
    && (cur.Spot? ==> Fits(nb, cur.k))
    && (cur.Spot? && rest.Spot? ==> Hi(cur.k) <= Lo(rest.k))
    && (rest.Spot? ==> nb < Lo(rest.k))
    && forall p {:trigger Candidate(t, nb, p)} :: Candidate(t, nb, p) && t.held[p].key.bin == bin ==>
         Seen(t, nb, rsize, p) || (cur.Spot? && InSub(t, p, cur.k)) || Within(t, rest, p)
  }

  lemma SearchStart(t: Tries, nb: nat, rsize: nat)
    requires TreesOk(t) && RingsOk(t) && SizeOk(nb) && TreeIndex(nb) < NBINS
    ensures var root := RootKey(TreeIndex(nb));
            Searching(t, nb, TreeIndex(nb), rsize, if root in t.slot then Spot(root) else Nowhere, Nowhere)
  {
    FitsRoot(nb);
    var bin := TreeIndex(nb);
    forall p {:trigger Candidate(t, nb, p)} | Candidate(t, nb, p) && t.held[p].key.bin == bin
      ensures RootKey(bin) in t.slot && InSub(t, p, RootKey(bin))
    {
      RootCovers(t, p);
    }
  }

  /** Where the first walk goes next. */
  function Onward(t: Tries, k: Key, c: nat): Spot {
    if ChildKey(k, c) in t.slot then Spot(ChildKey(k, c)) else Nowhere
  }

  function NewRest(t: Tries, k: Key, c: nat, rest: Spot): Spot {
    if c == 0 && ChildKey(k, 1) in t.slot then Spot(ChildKey(k, 1)) else rest
  }

  lemma SearchCovers(t: Tries, nb: nat, rsize: nat, k: Key, rest: Spot, p: int)
    requires Searching(t, nb, k.bin, rsize, Spot(k), rest)
    requires Candidate(t, nb, p) && t.held[p].key.bin == k.bin && p != t.slot[k] && k.lvl >= 0
    ensures var c := Side(nb, k.lvl);
            Seen(t, nb, rsize, p) || (Onward(t, k, c).Spot?
                && InSub(t, p, ChildKey(k, c)))
              || Within(t, NewRest(t, k, c, rest), p)
  {
    var c := Side(nb, k.lvl);
    Halves(k);
    if InSub(t, p, k) {
      var e := ChildCovers(t, p, k);
      SubBetween(t, p, ChildKey(k, e));
      FitsChild(nb, k, c);
      FitsBetween(nb, ChildKey(k, c));
    } else if !Seen(t, nb, rsize, p) && NewRest(t, k, c, rest) != rest {
      if InSub(t, p, rest.k) {
        SubBetween(t, p, rest.k);
      } else {
        LoHi(rest.k);
      }
    }
  }

  lemma LoHi(k: Key)
    requires k.lvl >= -1
    ensures Lo(k) < Hi(k)
  {
    assert (k.prefix + 1) * Pow2(k.lvl + 1) == k.prefix * Pow2(k.lvl + 1) + Pow2(k.lvl + 1);
  }

  lemma SearchLvl(t: Tries, nb: nat, k: Key)
    requires TreesOk(t) && RingsOk(t) && k in t.slot && Fits(nb, k) && t.slot[k] in t.held
    requires t.held[t.slot[k]].size != nb
    ensures k.lvl >= 0
  {
    assert KeyOk(t, k) && FitOk(t, t.slot[k]);
  }

  /** One step of the first walk, the current node being accounted for. */
  lemma SearchStep(t: Tries, nb: nat, rsize: nat, k: Key, rest: Spot)
    requires Searching(t, nb, k.bin, rsize, Spot(k), rest) && k.lvl >= 0
    requires t.slot[k] in t.held && (nb <= t.held[t.slot[k]].size ==> Seen(t, nb, rsize, t.slot[k]))
    ensures Searching(t, nb, k.bin, rsize, Onward(t, k, Side(nb, k.lvl)), NewRest(t, k, Side(nb, k.lvl), rest))
  {
    var c := Side(nb, k.lvl);
    assert KeyOk(t, k);
    Halves(k);
    FitsChild(nb, k, c);
    FitsBetween(nb, ChildKey(k, c));
    forall p {:trigger Candidate(t, nb, p)} | Candidate(t, nb, p) && t.held[p].key.bin == k.bin
      ensures || Seen(t, nb, rsize, p) || (Onward(t, k, c).Spot? && InSub(t, p, ChildKey(k, c)))
              || Within(t, NewRest(t, k, c, rest), p)
    {
      if p != t.slot[k] {
        SearchCovers(t, nb, rsize, k, rest, p);
      }
    }
  }

  lemma SearchLess(t: Tries, nb: nat, bin: nat, rsize: nat, less: nat, cur: Spot, rest: Spot)
    requires Searching(t, nb, bin, rsize, cur, rest) && less <= rsize
    ensures Searching(t, nb, bin, less, cur, rest)
  {
  }

  /** Everything below a key is at least `nb`. */
  ghost predicate AllAtLeast(t: Tries, nb: nat, k: Key) {
    forall p {:trigger InSub(t, p, k)} :: InSub(t, p, k) ==> nb <= t.held[p].size
  }

  /** Second walk, over all bins: every candidate is accounted for, or below the current node, or larger
      than everything below it. */
  ghost predicate Finishing(t: Tries, nb: nat, rsize: nat, cur: Spot) {
    && TreesOk(t) && RingsOk(t)
    && (cur.Spot? ==> cur.k in t.slot && cur.k.lvl >= -1 && (rsize == 0 || AllAtLeast(t, nb, cur.k)))
    && forall p {:trigger Candidate(t, nb, p)} :: Candidate(t, nb, p) ==>
         Seen(t, nb, rsize, p) || Within(t, cur, p) || (cur.Spot? && cur.k.bin < t.held[p].key.bin)
  }

  /** A node of a later bin is larger. */
  lemma LaterBinLarger(t: Tries, p: int, q: int)
    requires RingsOk(t) && IsNode(t, p) && IsNode(t, q) && t.held[p].key.bin < t.held[q].key.bin
    ensures t.held[p].size < t.held[q].size
  {
    assert FitOk(t, p) && FitOk(t, q);
    if t.held[q].size <= t.held[p].size {
      TreeIndexMonotone(t.held[q].size, t.held[p].size);
    }
  }

  lemma CandidateBin(t: Tries, nb: nat, p: int)
    requires RingsOk(t) && Candidate(t, nb, p) && SizeOk(nb)
    ensures TreeIndex(nb) <= t.held[p].key.bin < NBINS
  {
    assert FitOk(t, p);
    TreeIndexMonotone(nb, t.held[p].size);
  }

  /** An exact fit ends the search. */
  lemma FinishExact(t: Tries, nb: nat, cur: Spot)
    requires TreesOk(t) && RingsOk(t) && (cur.Spot? ==> cur.k in t.slot && cur.k.lvl >= -1)
    ensures Finishing(t, nb, 0, cur)
  {
  }

  /** The first walk ends with a right subtree left over. */
  lemma FinishRest(t: Tries, nb: nat, rsize: nat, rest: Spot)
    requires SizeOk(nb) && Searching(t, nb, TreeIndex(nb), rsize, Nowhere, rest) && rest.Spot?
    ensures Finishing(t, nb, rsize, rest)
  {
    forall p {:trigger InSub(t, p, rest.k)} | InSub(t, p, rest.k) ensures nb <= t.held[p].size {
      SubBetween(t, p, rest.k);
    }
    forall p {:trigger Candidate(t, nb, p)} | Candidate(t, nb, p)
      ensures Seen(t, nb, rsize, p) || Within(t, rest, p) || rest.k.bin < t.held[p].key.bin
    {
      CandidateBin(t, nb, p);
    }
  }

  /** The first walk ends with a fit and nothing left over. */
  lemma FinishFound(t: Tries, nb: nat, rsize: nat, v: int)
    requires SizeOk(nb) && Searching(t, nb, TreeIndex(nb), rsize, Nowhere, Nowhere)
    requires IsNode(t, v) && t.held[v].size == nb + rsize && t.held[v].key.bin == TreeIndex(nb)
    ensures Finishing(t, nb, rsize, Nowhere)
  {
    forall p {:trigger Candidate(t, nb, p)} | Candidate(t, nb, p) ensures Seen(t, nb, rsize, p) {
      CandidateBin(t, nb, p);
      if t.held[p].key.bin != TreeIndex(nb) {
        LaterBinLarger(t, v, p);
      }
    }
  }

  /** The root of bin `i`, no earlier bin holding a candidate. */
  lemma FinishRoot(t: Tries, nb: nat, rsize: nat, i: nat)
    requires TreesOk(t) && RingsOk(t) && i < NBINS && RootKey(i) in t.slot
    requires forall p {:trigger Candidate(t, nb, p)} :: Candidate(t, nb, p) ==> i <= t.held[p].key.bin
    requires forall p {:trigger IsNode(t, p)} :: IsNode(t, p) && t.held[p].key.bin == i ==> nb <= t.held[p].size
    ensures Finishing(t, nb, rsize, Spot(RootKey(i)))
  {
    forall p {:trigger Candidate(t, nb, p)} | Candidate(t, nb, p)
      ensures Within(t, Spot(RootKey(i)), p) || i < t.held[p].key.bin
    {
      if t.held[p].key.bin == i {
        RootCovers(t, p);
      }
    }
    forall p {:trigger InSub(t, p, RootKey(i))} | InSub(t, p, RootKey(i)) ensures nb <= t.held[p].size {
      assert IsNode(t, p);
    }
  }

  /** Nothing in the bin of `nb` fits, and `i` is the first non-empty bin after it. */
  lemma FinishNextBin(t: Tries, nb: nat, rsize: nat, i: nat)
    requires SizeOk(nb) && Searching(t, nb, TreeIndex(nb), rsize, Nowhere, Nowhere) && nb + rsize >= SPACE
    requires TreeIndex(nb) < i <= NBINS && (i < NBINS ==> RootKey(i) in t.slot)
    requires forall j :: TreeIndex(nb) < j < i ==> RootKey(j) !in t.slot
    ensures Finishing(t, nb, rsize, if i < NBINS then Spot(RootKey(i)) else Nowhere)
  {
    forall p {:trigger Candidate(t, nb, p)} | Candidate(t, nb, p) ensures i <= t.held[p].key.bin < NBINS {
      CandidateBin(t, nb, p);
      assert FitOk(t, p);
      RootCovers(t, p);
    }
    if i < NBINS {
      forall p {:trigger IsNode(t, p)} | IsNode(t, p) && t.held[p].key.bin == i ensures nb <= t.held[p].size {
        assert FitOk(t, p);
        if t.held[p].size < nb {
          TreeIndexMonotone(t.held[p].size, nb);
        }
      }
      FinishRoot(t, nb, rsize, i);
    }
  }

  /** `leftmost_child` */
  function Leftmost(t: Tries, k: Key): Spot {
    if ChildKey(k, 0) in t.slot then Spot(ChildKey(k, 0)) else Onward(t, k, 1)
  }

  /** Everything below a right child is past the left one. */
  lemma RightOfLeft(t: Tries, k: Key, p: int)
    requires TreesOk(t) && RingsOk(t) && k.lvl >= 0 && ChildKey(k, 1) in t.slot && InSub(t, p, ChildKey(k, 1))
    ensures Hi(ChildKey(k, 0)) <= t.held[p].size
  {
    SubBetween(t, p, ChildKey(k, 1));
    Halves(k);
  }

  lemma LeftmostCovers(t: Tries, k: Key, p: int)
    requires TreesOk(t) && RingsOk(t) && k in t.slot && InSub(t, p, k) && p != t.slot[k]
    ensures Within(t, Leftmost(t, k), p)
  {
    var e := ChildCovers(t, p, k);
    if e == 1 {
      RightOfLeft(t, k, p);
    }
  }

  lemma FinishCovers(t: Tries, nb: nat, rsize: nat, k: Key, p: int)
    requires Finishing(t, nb, rsize, Spot(k)) && Candidate(t, nb, p) && t.slot[k] in t.held
    requires nb <= t.held[t.slot[k]].size && Seen(t, nb, rsize, t.slot[k])
    ensures Seen(t, nb, rsize, p) || Within(t, Leftmost(t, k), p)
  {
    var x := t.slot[k];
    if InSub(t, p, k) {
      if p != x {
        LeftmostCovers(t, k, p);
      }
    } else if !Seen(t, nb, rsize, p) {
      assert KeyOk(t, k);
      if k.bin < t.held[p].key.bin {
        LaterBinLarger(t, x, p);
      } else {
        assert Below(k, k);
        SubBetween(t, x, k);
      }
    }
  }

  lemma AllAtLeastChild(t: Tries, nb: nat, k: Key, c: nat)
    requires AllAtLeast(t, nb, k) && c <= 1
    ensures AllAtLeast(t, nb, ChildKey(k, c))
  {
    forall p {:trigger InSub(t, p, ChildKey(k, c))} | InSub(t, p, ChildKey(k, c)) ensures nb <= t.held[p].size {
      assert InSub(t, p, k);
    }
  }

  /** One step of the second walk, the current node being accounted for. */
  lemma FinishStep(t: Tries, nb: nat, rsize: nat, k: Key)
    requires Finishing(t, nb, rsize, Spot(k)) && t.slot[k] in t.held
    requires nb <= t.held[t.slot[k]].size ==> Seen(t, nb, rsize, t.slot[k])
    ensures Finishing(t, nb, rsize, Leftmost(t, k))
  {
    assert KeyOk(t, k);
    assert ChildKey(k, 0) in t.slot ==> KeyOk(t, ChildKey(k, 0));
    assert ChildKey(k, 1) in t.slot ==> KeyOk(t, ChildKey(k, 1));
    if rsize != 0 {
      assert Below(k, k) && InSub(t, t.slot[k], k);
      AllAtLeastChild(t, nb, k, 0);
      AllAtLeastChild(t, nb, k, 1);
      forall p {:trigger Candidate(t, nb, p)} | Candidate(t, nb, p)
        ensures Seen(t, nb, rsize, p) || Within(t, Leftmost(t, k), p)
      {
        FinishCovers(t, nb, rsize, k, p);
      }
    }
  }

  lemma FinishLess(t: Tries, nb: nat, rsize: nat, less: nat, cur: Spot)
    requires Finishing(t, nb, rsize, cur) && less <= rsize
    ensures Finishing(t, nb, less, cur)
  {
  }

  /** No chunk in any trie fits better than one that leaves `rsize`. */
  ghost predicate BestFit(t: Tries, nb: nat, rsize: nat) {
    forall p :: p in t.held && nb <= t.held[p].size ==> nb + rsize <= t.held[p].size
  }

  /** When both walks have ended, the least remainder is that of a best fit. */
  lemma FinishedIsBest(t: Tries, nb: nat, rsize: nat)
    requires Finishing(t, nb, rsize, Nowhere) && Settled(t)
    ensures BestFit(t, nb, rsize)
  {
    forall p | p in t.held && nb <= t.held[p].size ensures nb + rsize <= t.held[p].size {
      assert RingOk(t, p);
      var h := t.node[t.held[p].size];
      assert Candidate(t, nb, h);
    }
  }

  // ---- the rightmost leaf below a node

  lemma RightStep(t: Tries, x: int, r: int, c: nat)
    requires TreesOk(t) && RingsOk(t) && IsNode(t, x) && InSub(t, r, t.held[x].key) && c <= 1
    requires ChildKey(t.held[r].key, c) in t.slot
    ensures var d := t.slot[ChildKey(t.held[r].key, c)];
            && d in t.held && InSub(t, d, t.held[x].key) && t.held[d].key == ChildKey(t.held[r].key, c)
            && d != x && Fits(t.held[d].size, t.held[x].key)
  {
    var k := ChildKey(t.held[r].key, c);
    assert KeyOk(t, k);
    BelowChild(t.held[r].key, t.held[x].key, c);
    assert NodeOk(t, x);
    SubBetween(t, t.slot[k], t.held[x].key);
  }
}
