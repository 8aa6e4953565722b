/** `dlmalloc`: which free chunk serves a request. */
module Dlmalloc {
  import opened BinMaps
  import opened Bits
  import opened Blocks
  import opened Growth
  import opened Layout
  import opened Malloc
  import opened MallocState
  import opened Memory
  import opened Regions
  import opened Segments
  import opened Sizes
  import opened SysMalloc
  import opened TreeMalloc
  import SmallBins
  import TreeBins
  import TreeSearch

  // ---- the next small bin, through the bits at and above the index

  lemma {:induction false} ShiftedBit(x: nat, i: nat, k: nat)
    ensures BitAt(x * Pow2(i), k) <==> k >= i && BitAt(x, k - i)
  {
    if i > 0 {
      var y := x * Pow2(i - 1);
      assert x * Pow2(i) == 2 * y;
      if k > 0 {
        ShrInner(2 * y, k - 1);
        ShiftedBit(x, i - 1, k - 1);
      }
    }
  }

  lemma {:induction false} ScanSame(a: BinMap, b: BinMap, i: nat, j: nat)
    requires i <= j <= WIDTH && (forall k :: i <= k < j ==> !BitAt(a, k))
    requires forall k :: j <= k < WIDTH ==> BitAt(a, k) == BitAt(b, k)
    ensures Scan(a, i) == Scan(b, j)
    decreases WIDTH - i
  {
    if i < WIDTH {
      if i < j {
        ScanSame(a, b, i + 1, j);
      } else if !BitAt(a, i) {
        ScanSame(a, b, i + 1, j + 1);
      }
    }
  }

  /** `(smallbits << idx) & left_bits(idx2bit(idx))`, with `smallbits` the map shifted down by `idx` */
  function BitsAbove(smallbits: nat, idx: nat): nat
    requires idx < WIDTH
  {
    And(smallbits * Pow2(idx), LeftBits(Idx2Bit(idx)))
  }

  lemma BitsAboveBit(m: BinMap, idx: nat, k: nat)
    requires idx < WIDTH && k < WIDTH
    ensures BitAt(BitsAbove(Shr(m, idx), idx), k) <==> idx < k && BitAt(m, k)
  {
    hide Shr, Pow2, And, LeftBits, Idx2Bit;
    var x := Shr(m, idx);
    AndBit(x * Pow2(idx), LeftBits(Idx2Bit(idx)), k);
    LeftBitsBit(idx, k);
    ShiftedBit(x, idx, k);
    if k >= idx {
      ShrShr(m, idx, k - idx);
    }
  }

  lemma BitsAboveRange(m: BinMap, idx: nat)
    requires idx < WIDTH
    ensures BitsAbove(Shr(m, idx), idx) < Pow2(WIDTH)
  {
    hide Shr, And, LeftBits, Idx2Bit;
    AndBound(Shr(m, idx) * Pow2(idx), LeftBits(Idx2Bit(idx)));
    ShrBounds(m, idx);
  }

  lemma NotZero(l: nat, k: nat)
    requires BitAt(l, k)
    ensures l != 0
  {
    if l == 0 {
      ZeroBits(k);
    }
  }

  /** The search finds the first marked bin above `idx`. */
  lemma NextSmall(m: BinMap, idx: nat)
    requires idx < WIDTH && Scan(m, idx + 1) < WIDTH
    ensures var l := BitsAbove(Shr(m, idx), idx);
            0 < l < Pow2(WIDTH) && LeastBit(l) > 0 && Bit2Idx(LeastBit(l)) == Scan(m, idx + 1)
  {
    hide BitsAbove, Shr, Pow2, LeastBit, Bit2Idx, BitAt;
    var l := BitsAbove(Shr(m, idx), idx);
    var s := Scan(m, idx + 1);
    BitsAboveRange(m, idx);
    BitsAboveBit(m, idx, s);
    NotZero(l, s);
    forall k | 0 <= k < WIDTH ensures BitAt(l, k) <==> idx < k && BitAt(m, k) {
      BitsAboveBit(m, idx, k);
    }
    ScanSame(l, m, 0, idx + 1);
    FirstMarked(l);
  }

  /** Some bit at or above `idx` is set just when the shifted map is not zero. */
  lemma ShiftedEmpty(m: BinMap, idx: nat)
    requires idx < WIDTH
    ensures Shr(m, idx) == 0 <==> Scan(m, idx) == WIDTH
  {
    var s := Scan(m, idx);
    if s < WIDTH {
      ShrShr(m, idx, s - idx);
      if Shr(m, idx) == 0 {
        ZeroBits(s - idx);
      }
    } else if Shr(m, idx) != 0 {
      ShrMonotoneBelow(m, idx);
      var k := SomeBit(WIDTH, Shr(m, idx));
      ShrShr(m, idx, k);
      HighBitsClear(m, idx + k);
      assert BitAt(m, idx + k);
    }
  }

  /** The two lowest bits of the shifted map. */
  lemma ShiftedBits(m: BinMap, idx: nat)
    ensures Shr(m, idx) % 4 == 0 <==> !BitAt(m, idx) && !BitAt(m, idx + 1)
    ensures Shr(m, idx) % 2 == 1 <==> BitAt(m, idx)
  {
  }

  lemma {:induction false} ShrMonotoneBelow(x: nat, i: nat)
    ensures Shr(x, i) <= x
  {
    if i > 0 {
      ShrMonotoneBelow(x, i - 1);
    }
  }

  lemma HighBitsClear(m: BinMap, k: nat)
    ensures BitAt(m, k) ==> k < WIDTH
  {
    if k >= WIDTH {
      NoHighBits(WIDTH, m, k);
    }
  }

  // ---- the policy

  ghost predicate HasBinned(L: Chunks, s: int) { exists q {:trigger BinnedOf(L, q, s)} :: BinnedOf(L, q, s) }

  /** Some binned chunk fits, and better than the designated victim. */
  ghost predicate BeatsDv(L: Chunks, nb: int, dvsize: int) {
    exists q {:trigger q in L} :: q in L && L[q].kind.Binned? && nb <= L[q].size && (dvsize < nb || L[q].size < dvsize)
  }

  /** The heap can serve a request of `nb` bytes without the system. */
  ghost predicate HeapServes(L: Chunks, dvsize: int, topsize: int, nb: int) {
    BeatsDv(L, nb, dvsize) || nb <= dvsize || nb < topsize
  }

  /** Where a request of `nb` bytes is served: for a small one, a chunk of that size or one word longer,
      then the designated victim, then the best binned chunk; for a large one, the best fit among the binned
      chunks and the designated victim; then the top chunk. */
  ghost predicate Placement(L: Chunks, dv: int, dvsize: int, top: int, topsize: int, nb: int, p: int) {
    if nb < MIN_LARGE && HasBinned(L, nb) then BinnedOf(L, p, nb)
    else if nb < MIN_LARGE && nb + 8 < MIN_LARGE && HasBinned(L, nb + 8) then BinnedOf(L, p, nb + 8)
    else if nb < MIN_LARGE && nb <= dvsize then p == dv
    else if BeatsDv(L, nb, dvsize) then BestBinned(L, nb, p)
    else if nb <= dvsize then p == dv
    else p == top
  }

  /** A bit of `smallmap` tells whether a chunk of that size is binned. */
  lemma BitMeansBinned(m: MState, i: nat)
    requires m.Stored() && m.Indexed() && i < NBINS
    ensures BitAt(m.smallmap, i) <==> HasBinned(m.L, 8 * i)
  {
    SmallBins.BitMeansNonEmpty(m.rings, i);
    if BitAt(m.smallmap, i) {
      var p :| p in m.rings.held && SmallIndex(m.rings.held[p].size) == i;
      assert SmallBins.EntryOk(m.rings, p) && BinnedAt(m.L, m.rings, m.tries, p);
      assert BinnedOf(m.L, p, 8 * i);
    }
    if q :| BinnedOf(m.L, q, 8 * i) {
      HeldBySize(m, q);
      assert BinnedAt(m.L, m.rings, m.tries, q);
    }
  }

  /** No marked bin from `idx` up to `i`: no small chunk fits a request of `8 * idx` bytes better than bin `i`. */
  lemma SmallestBin(m: MState, idx: nat, i: nat)
    requires m.Stored() && m.Indexed() && idx <= i <= NBINS && forall k :: idx <= k < i ==> !BitAt(m.smallmap, k)
    ensures forall q {:trigger q in m.L} :: q in m.L && m.L[q].kind.Binned? && 8 * idx <= m.L[q].size ==>
              8 * i <= m.L[q].size
  {
    forall q {:trigger q in m.L} | q in m.L && m.L[q].kind.Binned? && 8 * idx <= m.L[q].size
      ensures 8 * i <= m.L[q].size
    {
      ChunkAt(m.L, m.S, q);
      var k := m.L[q].size / 8;
      if k < NBINS {
        assert BinnedOf(m.L, q, 8 * k);
        BitMeansBinned(m, k);
      }
    }
  }

  // ---- the designated victim

  /** The designated victim split, or used up. */
  method FromDv(m: MState, nb: int) returns (p: int)
    requires m.Valid() && nb % 8 == 0 && MIN_CHUNK <= nb <= m.dvsize
    modifies m`mem, m`L, m`staleHeads, m`staleFeet, m`dv, m`dvsize
    ensures m.Valid() && p == old(m.dv) && Gave(old(m.L), m.L, p, nb) && Quiet(old(m.mem), m.mem, old(m.L))
    ensures if nb + MIN_CHUNK <= old(m.dvsize) then m.dv == p + nb && m.dvsize == old(m.dvsize) - nb
            else m.dv == 0 && m.dvsize == 0
  {
    hide Tiled, Tagged, Bins, RingsStored, TriesStored, OffState, LeastOk, Added, Quiet, Cut, MState.Indexed;
    var rsize := m.dvsize - nb;
    p := m.dv;
    assert RoleOk(m.L, m.dv, m.top, {}, m.dv);
    ChunkAt(m.L, m.S, p);
    if rsize >= MIN_CHUNK {
      DvCut(m.L, m.S, m.dv, m.dvsize, m.top, m.topsize, nb);
      m.dv := p + nb;
      m.dvsize := rsize;
      TakeFront(m, p, nb, rsize);
    } else {
      var dvs := m.dvsize;
      DvUsed(m.L, m.dv, m.dvsize, m.top, m.topsize);
      m.dvsize := 0;
      m.dv := 0;
      TakeWhole(m, p, dvs);
    }
    QuietAdded(old(m.mem), m.mem, old(m.L), m.L, p);
  }

  lemma DvCut(L: Chunks, S: Spans, dv: int, dvsize: int, top: int, topsize: int, nb: int)
    requires Roles(L, dv, dvsize, top, topsize, {}) && Tiled(L, S) && nb % 8 == 0 && MIN_CHUNK <= nb
    requires nb + MIN_CHUNK <= dvsize
    ensures dv in L && CanCut(L, S, dv, nb, Live) && Roles(Cut(L, dv, nb, Live), dv + nb, dvsize - nb, top, topsize, {})
    ensures Added(L, Cut(L, dv, nb, Live), dv) && Cut(L, dv, nb, Live)[dv].size == nb
    ensures Cut(L, dv, nb, Live)[dv].kind.Live?
  {
    assert RoleOk(L, dv, top, {}, dv);
    ChunkAt(L, S, dv);
    RolesCut(L, S, dv, dvsize, top, topsize, {}, dv, nb);
    AddedFront(L, S, dv, nb);
    assert top in L ==> RoleOk(L, dv, top, {}, top);
  }

  lemma DvUsed(L: Chunks, dv: int, dvsize: int, top: int, topsize: int)
    requires Roles(L, dv, dvsize, top, topsize, {}) && dvsize > 0
    ensures dv in L && Roles(Reuse(L, dv, Live), 0, 0, top, topsize, {}) && Added(L, Reuse(L, dv, Live), dv)
  {
    assert RoleOk(L, dv, top, {}, dv);
    RolesReuse(L, dv, dvsize, top, topsize, {}, dv, Live);
    assert {} - {dv} == {};
    AddedWhole(L, dv);
  }

  // ---- small requests

  /** With bins `idx` and `idx + 1` empty, the next marked bin holds the best fit, or only tree chunks fit. */
  lemma AboveIndex(m: MState, idx: nat)
    requires m.Stored() && m.Indexed() && idx < NBINS && !BitAt(m.smallmap, idx)
    ensures var i := Scan(m.smallmap, idx + 1);
            && Scan(m.smallmap, idx) == i
            && (i < NBINS ==> idx < i && BitAt(m.smallmap, i) && HasBinned(m.L, 8 * i))
            && (forall q {:trigger q in m.L} :: q in m.L && m.L[q].kind.Binned? && 8 * idx <= m.L[q].size ==>
                    8 * i <= m.L[q].size)
  {
    var i := Scan(m.smallmap, idx + 1);
    SmallestBin(m, idx, i);
    if i < NBINS {
      BitMeansBinned(m, i);
    }
  }

  lemma NoTree(m: MState)
    requires m.Stored() && m.Indexed() && m.treemap == 0
    ensures forall q {:trigger q in m.L} :: q in m.L && m.L[q].kind.Binned? ==> m.L[q].size < MIN_LARGE
  {
    ghost var t := m.tries;
    forall q {:trigger q in m.L} | q in m.L && m.L[q].kind.Binned? ensures m.L[q].size < MIN_LARGE {
      assert BinnedAt(m.L, m.rings, t, q);
      if q in t.held {
        assert TreeBins.RingOk(t, q);
        var h := t.node[t.held[q].size];
        TreeSearch.RootCovers(t, h);
        assert TreeBins.RootOk(t, t.held[h].key.bin);
        ZeroBits(t.held[h].key.bin);
      } else {
        assert SmallBins.EntryOk(m.rings, q);
      }
    }
  }

  lemma SomeTree(m: MState, nb: nat)
    requires m.Stored() && m.Indexed() && m.treemap != 0 && nb < MIN_LARGE && m.dvsize < nb
    ensures BeatsDv(m.L, nb, m.dvsize)
  {
    ghost var t := m.tries;
    FirstMarked(m.treemap);
    var i := Scan(m.treemap, 0);
    assert TreeBins.RootOk(t, i);
    assert TreeBins.KeyOk(t, TreeBins.RootKey(i));
    var q := t.slot[TreeBins.RootKey(i)];
    assert BinnedAt(m.L, m.rings, t, q);
    assert q in m.L;
  }

  /** Among chunks of one size, a small bin gives the youngest and a tree bin the oldest. */
  ghost predicate FirstServed(r: SmallBins.Rings, t: TreeBins.Tries, p: int) {
    (p in r.held ==> Youngest(r, p)) && (p in t.held ==> Oldest(t, p))
  }

  lemma ServedOnce(m: MState, p: int)
    requires m.Stored()
    ensures Youngest(m.rings, p) || Oldest(m.tries, p) ==> FirstServed(m.rings, m.tries, p)
    ensures p in m.L && !m.L[p].kind.Binned? ==> FirstServed(m.rings, m.tries, p)
  {
    assert BinnedAt(m.L, m.rings, m.tries, p);
  }

  /** The designated victim and the top chunk are in no bin. */
  lemma ServedOutside(m: MState)
    requires m.Valid()
    ensures m.dv != 0 ==> FirstServed(m.rings, m.tries, m.dv)
    ensures m.top != 0 ==> FirstServed(m.rings, m.tries, m.top)
    ensures (m.dvsize > 0 ==> m.dv != 0) && (m.topsize > 0 ==> m.top != 0)
  {
    if m.dv != 0 {
      assert RoleOk(m.L, m.dv, m.top, {}, m.dv);
      ServedOnce(m, m.dv);
    }
    if m.top != 0 {
      assert RoleOk(m.L, m.dv, m.top, {}, m.top);
      ServedOnce(m, m.top);
    }
  }

  /** The bins, for a small request: null when the designated victim or the top chunk must serve it. */
  method FromBins(m: MState, nb: nat) returns (p: int)
    requires m.Valid() && nb % 8 == 0 && MIN_CHUNK <= nb < MIN_LARGE
    modifies m`mem, m`smallmap, m`treemap, m`L, m`rings, m`tries, m`staleHeads, m`staleFeet, m`dv, m`dvsize
    ensures m.Valid() && Quiet(old(m.mem), m.mem, old(m.L))
    ensures p != 0 ==>
              Gave(old(m.L), m.L, p, nb) && Placement(old(m.L), old(m.dv), old(m.dvsize), m.top, m.topsize, nb, p)
    ensures p != 0 ==> BeatsDv(old(m.L), nb, old(m.dvsize)) || nb <= old(m.dvsize)
    ensures p == 0 ==> unchanged(m) && (nb > m.dvsize ==> !BeatsDv(m.L, nb, m.dvsize))
    ensures p == 0 ==> !HasBinned(m.L, nb) && (nb + 8 < MIN_LARGE ==> !HasBinned(m.L, nb + 8))
    ensures p != 0 ==> FirstServed(old(m.rings), old(m.tries), p)
  {
    hide MState.Stored, Added, MState.Indexed, FirstServed, Youngest, Oldest;
    forall q ensures Youngest(m.rings, q) || Oldest(m.tries, q) ==> FirstServed(m.rings, m.tries, q) {
      ServedOnce(m, q);
    }
    hide Scan, BitsAbove, LeastBit, Bit2Idx, Shr, BitAt, HasBinned;
    var idx := nb / 8;
    var smallbits := Shr(m.smallmap, idx);
    ShiftedEmpty(m.smallmap, idx);
    ShiftedBits(m.smallmap, idx);
    BitMeansBinned(m, idx);
    HighBitsClear(m.smallmap, idx + 1);
    if idx + 1 < NBINS {
      BitMeansBinned(m, idx + 1);
    }
    if smallbits % 4 != 0 {
      var i := if smallbits % 2 == 0 then idx + 1 else idx;
      p := FromExactBin(m, i, nb);
    } else if nb > m.dvsize {
      AboveIndex(m, idx);
      if smallbits != 0 {
        NextSmall(m.smallmap, idx);
        var i := Bit2Idx(LeastBit(BitsAbove(smallbits, idx)));
        p := FromLargerBin(m, i, nb);
      } else if m.treemap != 0 {
        SomeTree(m, nb);
        p := TMallocSmall(m, nb);
      } else {
        NoTree(m);
        p := 0;
      }
    } else {
      p := 0;
    }
  }

  // ---- dlmalloc

  lemma PlaceDv(L: Chunks, dv: int, dvsize: int, top: int, topsize: int, nb: int)
    requires nb <= dvsize
    requires nb < MIN_LARGE ==> !HasBinned(L, nb) && (nb + 8 < MIN_LARGE ==> !HasBinned(L, nb + 8))
    requires nb >= MIN_LARGE ==> !BeatsDv(L, nb, dvsize)
    ensures Placement(L, dv, dvsize, top, topsize, nb, dv)
  {
  }

  lemma PlaceTop(L: Chunks, dv: int, dvsize: int, top: int, topsize: int, nb: int)
    requires dvsize < nb && !BeatsDv(L, nb, dvsize)
    ensures Placement(L, dv, dvsize, top, topsize, nb, top)
  {
    assert forall q, s {:trigger BinnedOf(L, q, s)} :: s >= nb && BinnedOf(L, q, s) ==> q in L;
  }

  lemma PlaceBest(L: Chunks, dv: int, dvsize: int, top: int, topsize: int, nb: int, p: int)
    requires nb >= MIN_LARGE && BestBinned(L, nb, p) && (dvsize < nb || L[p].size < dvsize)
    ensures BeatsDv(L, nb, dvsize) && Placement(L, dv, dvsize, top, topsize, nb, p)
  {
    assert p in L;
  }

  lemma DvIsBest(L: Chunks, nb: int, dvsize: int)
    requires DvFitsBest(L, nb, dvsize)
    ensures !BeatsDv(L, nb, dvsize)
  {
  }

  lemma NoLarge(m: MState, nb: int)
    requires m.Stored() && m.Indexed() && m.treemap == 0 && nb >= MIN_LARGE
    ensures DvFitsBest(m.L, nb, m.dvsize)
  {
    NoTree(m);
  }

  /** The tree bins, for a large request: null when the designated victim fits at least as well. */
  method FromTrees(m: MState, nb: nat) returns (p: int)
    requires m.Valid() && TreeBins.SizeOk(nb)
    modifies m`mem, m`smallmap, m`treemap, m`L, m`rings, m`tries, m`staleHeads, m`staleFeet
    ensures m.Valid() && Quiet(old(m.mem), m.mem, old(m.L))
    ensures p != 0 ==> Gave(old(m.L), m.L, p, nb) && Placement(old(m.L), m.dv, m.dvsize, m.top, m.topsize, nb, p)
    ensures p != 0 <==> BeatsDv(old(m.L), nb, m.dvsize)
    ensures p != 0 ==> FirstServed(old(m.rings), old(m.tries), p)
    ensures p == 0 ==> unchanged(m)
  {
    hide MState.Stored, Added, Roles, MState.Indexed, FirstServed, Youngest, Oldest;
    forall q ensures Oldest(m.tries, q) ==> FirstServed(m.rings, m.tries, q) {
      ServedOnce(m, q);
    }
    hide Placement, BeatsDv, DvFitsBest, BestBinned;
    p := 0;
    if m.treemap != 0 {
      p := TMallocLarge(m, nb);
    } else {
      NoLarge(m, nb);
    }
    if p != 0 {
      PlaceBest(old(m.L), m.dv, m.dvsize, m.top, m.topsize, nb, p);
    } else {
      DvIsBest(m.L, nb, m.dvsize);
    }
  }

  /** The bins and the designated victim; null when neither serves. */
  method FromFree(m: MState, bytes: nat, nb: nat) returns (p: int)
    requires m.Valid() && m.Booked() && nb % 8 == 0 && MIN_CHUNK <= nb < SPACE
    requires (bytes <= MAX_SMALL_REQUEST <==> nb < MIN_LARGE)
    modifies m`mem, m`smallmap, m`treemap, m`L, m`rings, m`tries, m`staleHeads, m`staleFeet, m`dv, m`dvsize
    ensures m.Valid() && m.Booked() && Quiet(old(m.mem), m.mem, old(m.L))
    ensures p != 0 ==>
              Gave(old(m.L), m.L, p, nb) && Placement(old(m.L), old(m.dv), old(m.dvsize), m.top, m.topsize, nb, p)
    ensures p != 0 <==> BeatsDv(old(m.L), nb, old(m.dvsize)) || nb <= old(m.dvsize)
    ensures p != 0 ==> FirstServed(old(m.rings), old(m.tries), p)
    ensures p == 0 ==> unchanged(m)
  {
    hide MState.Stored, Gave, Quiet, MState.Indexed, TopEnds, SegsOk, DirectOk, Total, Placement, BeatsDv, HasBinned;
    hide MState.Listed, FirstServed, Roles;
    ServedOutside(m);
    if bytes <= MAX_SMALL_REQUEST {
      p := FromBins(m, nb);
    } else {
      p := FromTrees(m, nb);
    }
    if p == 0 && nb <= m.dvsize {
      PlaceDv(m.L, m.dv, m.dvsize, m.top, m.topsize, nb);
      p := FromDv(m, nb);
    }
    if p != 0 {
      KeepBooks(m, old(m.L), p, nb);
    }
  }

  /** A request padded, or the marker of one too large. */
  function PaddedSize(bytes: nat): nat {
    if bytes < MAX_REQUEST then Request2Size(bytes) else SPACE - 1
  }

  /** A request can be served: by the heap, by a region of its own, or by a new segment. */
  ghost predicate CanServe(m: MState, bytes: nat, direct: Offer, offer: Offer)
    reads m
  {
    var nb := PaddedSize(bytes);
    && bytes < MAX_REQUEST
    && (|| HeapServes(m.L, m.dvsize, m.topsize, nb)
        || DirectServes(nb, m.topsize, m.footprint, m.footprintLimit, direct)
        || SegmentServes(nb, m.footprint, m.footprintLimit, offer))
  }

  /** `dlmalloc`.  The result is a chunk, whose memory begins two words further, or null. */
  method DlMalloc(m: MState, bytes: nat, direct: Offer, offer: Offer) returns (p: int)
    requires m.Valid() && m.Booked() && bytes < SPACE
    requires OfferOk(m.S, m.alien, direct, RegionSize(PaddedSize(bytes)))
    requires OfferOk(m.S, m.alien, offer, SegmentSize(PaddedSize(bytes)))
    modifies m
    ensures m.alien == old(m.alien)
    ensures m.Valid() && m.Booked() && Quiet(old(m.mem), m.mem, old(m.L))
    ensures var nb := PaddedSize(bytes);
            if bytes < MAX_REQUEST && HeapServes(old(m.L), old(m.dvsize), old(m.topsize), nb) then
              && p != 0 && Gave(old(m.L), m.L, p, nb)
              && Placement(old(m.L), old(m.dv), old(m.dvsize), old(m.top), old(m.topsize), nb, p)
              && FirstServed(old(m.rings), old(m.tries), p)
              && m.segs == old(m.segs) && m.footprint == old(m.footprint) && m.maxFootprint == old(m.maxFootprint)
            else if DirectServes(nb, old(m.topsize), old(m.footprint), old(m.footprintLimit), direct) then
              && p != 0 && GaveMapped(old(m.L), m.L, p, nb) && ZeroPayload(m.mem, m.L, p)
              && SysMalloc.MappedFor(old(m.segs), old(m.footprint), old(m.maxFootprint), nb, direct, p, m)
            else if SegmentServes(nb, old(m.footprint), old(m.footprintLimit), offer) then
              && p != 0 && Gave(old(m.L), m.L, p, nb)
              && SysMalloc.SegmentFor(old(m.segs), old(m.top), old(m.footprint), old(m.maxFootprint), nb, offer, p, m)
            else p == 0 && unchanged(m)
  {
    hide MState.Stored, Gave, Quiet, GaveMapped, MState.Indexed, SegsOk, DirectOk, Total, Placement, BeatsDv, HasBinned;
    hide RegionSize, SegmentSize, ZeroPayload, FreeRegion, Affordable, MState.Valid, MState.Listed;
    hide SysMalloc.MappedFor, SysMalloc.SegmentFor, FirstServed;
    ServedOutside(m);
    var nb := PaddedSize(bytes);
    PaddingHolds(bytes);
    p := 0;
    if bytes < MAX_REQUEST {
      p := FromFree(m, bytes, nb);
      if p == 0 && nb < m.topsize {
        PlaceTop(m.L, m.dv, m.dvsize, m.top, m.topsize, nb);
        p := FromTop(m, nb);
      }
    }
    if p == 0 {
      p := SysMalloc.SysAlloc(m, nb, direct, offer);
    }
  }
}
