/** `tmalloc_large` and `tmalloc_small`: best fit in the tree bins. */
module TreeMalloc {
  import opened Bits
  import opened BinMaps
  import opened Blocks
  import opened Layout
  import opened Malloc
  import opened MallocState
  import opened Memory
  import opened Sizes
  import opened TreeOps
  import opened TreeSearch
  import opened Words
  import opened TB = TreeBins

  /** Unsigned `size - nb` */
  function Rem(size: int, nb: int): int {
    (size - nb) % SPACE
  }

  /** `v` is the best node so far and leaves `rsize`; a null `v` goes with the initial `-nb`. */
  ghost predicate Best(t: Tries, nb: nat, v: int, rsize: nat) {
    if v == 0 then rsize == SPACE - nb else IsNode(t, v) && t.held[v].size == nb + rsize
  }

  /** A node pointer and the spot it stands for. */
  predicate Stands(t: Tries, p: int, at: Spot) {
    if at.Nowhere? then p == 0 else at.k in t.slot && t.slot[at.k] == p && p != 0
  }

  lemma RemValue(s: nat, nb: nat)
    requires s < SPACE && nb < SPACE
    ensures Rem(s, nb) == (if nb <= s then s - nb else SPACE + s - nb) < SPACE
  {
  }

  /** The size of a node, read from memory, and its remainder. */
  method Weigh(m: MState, p: int, nb: nat) returns (trem: nat)
    requires m.Stored() && m.Clean() && TB.Valid(m.tries) && IsNode(m.tries, p) && nb < SPACE
    ensures trem == Rem(m.tries.held[p].size, nb) && trem < SPACE
    ensures nb <= m.tries.held[p].size ==> trem == m.tries.held[p].size - nb
    ensures nb > m.tries.held[p].size ==> trem >= SPACE - nb
  {
    hide MState.Stored, SmallBins.Valid, TreesOk, Settled, Rem;
    EmbedSelf(m);
    ReadNode(m, m.tries, p);
    assert FitOk(m.tries, p);
    var s := ReadSize(m, p);
    RemValue(s, nb);
    trem := Rem(s, nb);
  }

  lemma SpotNode(t: Tries, at: Spot, p: int)
    requires TB.Valid(t) && Stands(t, p, at) && p != 0
    ensures at.Spot? && IsNode(t, p) && t.held[p].key == at.k && -1 <= at.k.lvl <= 63
  {
    assert KeyOk(t, at.k);
  }

  /** The second walk: down the leftmost path. */
  method Finish(m: MState, nb: nat, t0: int, v0: int, rsize0: nat, ghost at0: Spot) returns (v: int, rsize: nat)
    requires m.Stored() && m.Clean() && TB.Valid(m.tries) && nb < SPACE
    requires Finishing(m.tries, nb, rsize0, at0) && Stands(m.tries, t0, at0) && Best(m.tries, nb, v0, rsize0)
    requires rsize0 <= SPACE - nb
    ensures Best(m.tries, nb, v, rsize) && BestFit(m.tries, nb, rsize)
  {
    var t := t0;
    ghost var at := at0;
    v, rsize := v0, rsize0;
    while t != 0
      invariant Finishing(m.tries, nb, rsize, at) && Stands(m.tries, t, at) && Best(m.tries, nb, v, rsize)
      invariant 0 <= rsize <= SPACE - nb
      decreases if at.Spot? then at.k.lvl + 2 else 0
    {
      SpotNode(m.tries, at, t);
      var trem := Weigh(m, t, nb);
      if trem < rsize {
        FinishLess(m.tries, nb, rsize, trem, at);
        rsize := trem;
        v := t;
      }
      FinishStep(m.tries, nb, rsize, at.k);
      t := LeftmostChild(m, t, at.k);
      at := Leftmost(m.tries, at.k);
    }
    FinishedIsBest(m.tries, nb, rsize);
  }

  /** `leftmost_child` */
  method LeftmostChild(m: MState, t: int, ghost k: Key) returns (c: int)
    requires m.Stored() && TB.Valid(m.tries) && k in m.tries.slot && m.tries.slot[k] == t
    ensures Stands(m.tries, c, Leftmost(m.tries, k))
  {
    EmbedSelf(m);
    ReadChild(m, m.tries, k, 0);
    ReadChild(m, m.tries, k, 1);
    c := if At(m.mem, t + LEFT) != 0 then At(m.mem, t + LEFT) else At(m.mem, t + RIGHT);
  }

  /** Where the first walk leaves the search: done with this bin, or at a subtree to finish in. */
  ghost predicate WalkedBin(t: Tries, nb: nat, p: int, v: int, rsize: nat, at: Spot) {
    && Best(t, nb, v, rsize) && rsize <= SPACE - nb && Stands(t, p, at)
    && if v == 0
            && p == 0 then Searching(t, nb, TreeIndex(nb), rsize, Nowhere, Nowhere) else Finishing(t, nb, rsize, at)
  }

  /** The first walk: towards a node of size `nb`, remembering the deepest right subtree not taken. */
  method WalkBin(m: MState, nb: nat, idx: nat) returns (t: int, v: int, rsize: nat, ghost at: Spot)
    requires m.Stored() && m.Clean() && TB.Valid(m.tries) && SizeOk(nb) && idx == TreeIndex(nb) < NBINS
    ensures WalkedBin(m.tries, nb, t, v, rsize, at)
  {
    ghost var T := m.tries;
    v, rsize := 0, SPACE - nb;
    at := if RootKey(idx) in T.slot then Spot(RootKey(idx)) else Nowhere;
    SearchStart(T, nb, rsize);
    assert RootOk(T, idx) && RootWord(m.mem, T, idx);
    t := At(m.mem, TreeBin(idx));
    assert RootKey(idx) in T.slot ==> KeyOk(T, RootKey(idx));
    NoNull(T);
    if t == 0 {
      return;
    }
    var sizebits := Shl(nb, 63 - TopBit(idx));
    var rst := 0;
    ghost var rest := Nowhere;
    while true
      invariant Searching(T, nb, idx, rsize, at, rest) && Stands(T, t, at) && t != 0 && Stands(T, rst, rest)
      invariant Best(T, nb, v, rsize) && 0 < rsize <= SPACE - nb
      invariant (v != 0 ==> IsNode(T, v) && T.held[v].key.bin == idx)
      invariant at.Spot? && sizebits == Shl(nb, 63 - at.k.lvl) && at.k.lvl <= 63
      decreases at.k.lvl + 1
    {
      ghost var k := at.k;
      SpotNode(T, at, t);
      var trem := Weigh(m, t, nb);
      if trem < rsize {
        SearchLess(T, nb, idx, rsize, trem, at, rest);
        v := t;
        rsize := trem;
        if rsize == 0 {
          FinishExact(T, nb, at);
          return;
        }
      }
      SearchLvl(T, nb, k);
      SearchStep(T, nb, rsize, k, rest);
      var rt, c := Branch(m, t, nb, sizebits, k);
      if rt != 0 && rt != c {
        rst := rt;
      }
      rest := NewRest(T, k, Side(nb, k.lvl), rest);
      at := Onward(T, k, Side(nb, k.lvl));
      if c == 0 {
        EndWalk(T, nb, v, rsize, rest);
        t := rst;
        at := rest;
        return;
      }
      t := c;
      sizebits := (2 * sizebits) % SPACE;
    }
  }

  lemma NoNull(t: Tries)
    requires TB.Valid(t)
    ensures 0 !in t.held
  {
    assert 0 in t.held ==> FitOk(t, 0);
  }

  lemma EndWalk(t: Tries, nb: nat, v: int, rsize: nat, rest: Spot)
    requires SizeOk(nb) && Searching(t, nb, TreeIndex(nb), rsize, Nowhere, rest) && Best(t, nb, v, rsize)
    requires v != 0 ==> IsNode(t, v) && t.held[v].key.bin == TreeIndex(nb)
    ensures rest.Spot? ==> Finishing(t, nb, rsize, rest)
    ensures rest.Nowhere? && v != 0 ==> Finishing(t, nb, rsize, Nowhere)
  {
    if rest.Spot? {
      FinishRest(t, nb, rsize, rest);
    } else if v != 0 {
      FinishFound(t, nb, rsize, v);
    }
  }

  /** The right child of a node, and the child on the side of the current size bit. */
  method Branch(m: MState, t: int, nb: nat, sizebits: nat, ghost k: Key) returns (rt: int, c: int)
    requires m.Stored() && TB.Valid(m.tries) && k in m.tries.slot && m.tries.slot[k] == t
    requires 0 <= k.lvl <= 63 && nb < SPACE && sizebits == Shl(nb, 63 - k.lvl)
    ensures Stands(m.tries, c, Onward(m.tries, k, Side(nb, k.lvl))) && Stands(m.tries, rt, Onward(m.tries, k, 1))
    ensures Side(nb, k.lvl) == 0 && rt != 0 ==> rt != c
  {
    EmbedSelf(m);
    SideBit(nb, k.lvl);
    ReadChild(m, m.tries, k, 0);
    ReadChild(m, m.tries, k, 1);
    rt := At(m.mem, t + RIGHT);
    c := ChildWord(m.mem, t, sizebits / 0x8000_0000_0000_0000);
    assert ChildKey(k, 0) in m.tries.slot ==> KeyOk(m.tries, ChildKey(k, 0));
    assert ChildKey(k, 1) in m.tries.slot ==> KeyOk(m.tries, ChildKey(k, 1));
  }

  /** The best-fitting node over all tree bins for a large request, or null. */
  method BestLarge(m: MState, nb: nat) returns (v: int, rsize: nat)
    requires m.Stored() && m.Clean() && m.Indexed() && SizeOk(nb)
    ensures Best(m.tries, nb, v, rsize) && BestFit(m.tries, nb, rsize)
  {
    ghost var T := m.tries;
    FitsRoot(nb);
    var idx := TreeIndex(nb);
    var t, v0, rsize0, at := WalkBin(m, nb, idx);
    if t == 0 && v0 == 0 {
      t, at := NextBin(m, nb, idx, rsize0);
    }
    v, rsize := Finish(m, nb, t, v0, rsize0, at);
  }

  /** The root of the next non-empty bin, found with the bit tricks on `treemap`. */
  method NextBin(m: MState, nb: nat, idx: nat, rsize: nat) returns (t: int, ghost at: Spot)
    requires m.Stored() && m.Indexed() && SizeOk(nb) && idx == TreeIndex(nb) < NBINS
    requires Searching(m.tries, nb, idx, rsize, Nowhere, Nowhere) && rsize == SPACE - nb
    ensures Finishing(m.tries, nb, rsize, at) && Stands(m.tries, t, at)
  {
    ghost var T := m.tries;
    NextMarked(m.treemap, idx);
    ghost var s := Scan(m.treemap, idx + 1);
    forall j | idx < j < s ensures RootKey(j) !in T.slot {
      assert RootOk(T, j);
    }
    NoNull(T);
    t := 0;
    var leftbits := And(LeftBits(Idx2Bit(idx)), m.treemap);
    if leftbits != 0 {
      var i := Bit2Idx(LeastBit(leftbits));
      assert RootOk(T, i) && RootWord(m.mem, T, i);
      assert KeyOk(T, RootKey(i));
      t := At(m.mem, TreeBin(i));
    }
    FinishNextBin(T, nb, rsize, s);
    at := if s < NBINS then Spot(RootKey(s)) else Nowhere;
  }

  // ---- allocation

  /** No binned chunk that fits is smaller than the one at `p`. */
  ghost predicate BestBinned(L: Chunks, nb: int, p: int) {
    && p in L && L[p].kind.Binned? && nb <= L[p].size
    && forall q {:trigger q in L} :: q in L && L[q].kind.Binned? && nb <= L[q].size ==> L[p].size <= L[q].size
  }

  /** Every binned chunk that fits is in a tree bin. */
  ghost predicate NoSmallFit(L: Chunks, nb: int) {
    forall q {:trigger q in L} :: q in L && L[q].kind.Binned? && nb <= L[q].size ==> MIN_LARGE <= L[q].size
  }

  lemma BestOverall(m: MState, nb: nat, v: int, rsize: nat)
    requires m.Stored() && m.Indexed() && NoSmallFit(m.L, nb) && BestFit(m.tries, nb, rsize)
    requires v in m.tries.held && m.tries.held[v].size == nb + rsize
    ensures BestBinned(m.L, nb, v)
  {
    assert BinnedAt(m.L, m.rings, m.tries, v);
    forall q {:trigger q in m.L} | q in m.L && m.L[q].kind.Binned? && nb <= m.L[q].size
      ensures m.L[v].size <= m.L[q].size
    {
      HeldBySize(m, q);
      assert BinnedAt(m.L, m.rings, m.tries, q);
    }
  }

  /** Of the chunks of its size, `x` has been in its bin the longest. */
  ghost predicate Oldest(t: Tries, x: int) {
    && x in t.held
    && forall p {:trigger p in t.held} :: p in t.held && p != x && t.held[p].size == t.held[x].size ==>
            t.held[x].stamp < t.held[p].stamp
  }

  /** The node that the search found is a good address, and the oldest of its size. */
  lemma TakenNode(m: MState, v: int)
    requires m.Valid() && IsNode(m.tries, v)
    ensures OkAddress(m, v) && Oldest(m.tries, v)
  {
    assert BinnedAt(m.L, m.rings, m.tries, v);
    ChunkAddressOk(m, v);
    forall p {:trigger p in m.tries.held} | p in m.tries.held && p != v && m.tries.held[p].size == m.tries.held[v].size
      ensures m.tries.held[v].stamp < m.tries.held[p].stamp
    {
      OldestInTree(m.tries, v, p);
    }
  }

  /** A tree chunk in hand. */
  method TakeLarge(m: MState, v: int)
    requires m.Valid() && v in m.tries.held
    modifies m`mem, m`treemap, m`L, m`tries
    ensures m.Stored() && m.Indexed() && m.Cast({v}) && v in m.L && v in old(m.L)
    ensures m.L[v] == old(m.L)[v].(kind := Loose, flag := false)
    ensures SameLive(old(m.L), m.L) && Quiet(old(m.mem), m.mem, m.L)
  {
    assert BinnedAt(m.L, m.rings, m.tries, v);
    assert RoleOk(m.L, m.dv, m.top, {}, v);
    ChunkAt(m.L, m.S, v);
    RolesReuse(m.L, m.dv, m.dvsize, m.top, m.topsize, {}, v, Loose);
    SameLiveReuse(m.L, v, Loose);
    UnlinkLarge(m, v);
    assert {} + {v} == {v};
  }

  /** The chunk `v`, unlinked, handed out; a remainder large enough for a chunk is left loose. */
  method Carve(m: MState, v: int, nb: int, rsize: int) returns (ghost loose: set<int>)
    requires m.Valid() && v in m.tries.held && m.tries.held[v].size == nb + rsize && nb % 8 == 0 && MIN_CHUNK <= nb
    requires 0 <= rsize
    modifies m`mem, m`treemap, m`L, m`tries, m`staleHeads, m`staleFeet
    ensures m.Stored() && m.Indexed() && m.Clean() && m.Cast(loose)
    ensures loose == if rsize < MIN_CHUNK then {} else {v + nb}
    ensures Gave(old(m.L), m.L, v, nb) && Quiet(old(m.mem), m.mem, old(m.L))
    ensures rsize >= MIN_CHUNK ==> v + nb in m.L && m.L[v + nb].kind.Loose? && m.L[v + nb].size == rsize
  {
    assert BinnedAt(m.L, m.rings, m.tries, v);
    TakeLarge(m, v);
    ghost var L1, mem1 := m.L, m.mem;
    QuietWithin(old(m.mem), mem1, old(m.L), L1);
    if rsize < MIN_CHUNK {
      GiveWhole(m, v, rsize + nb);
      loose := {};
    } else {
      GiveFront(m, v, nb, rsize);
      loose := {v + nb};
    }
    AddedTrans(old(m.L), L1, m.L, m.L, v);
    QuietWithin(mem1, m.mem, old(m.L), m.L);
  }

  /** Whether the best node beats the designated victim, by the unsigned comparison. */
  lemma Compared(m: MState, nb: nat, v: int, rsize: nat)
    requires m.Valid() && SizeOk(nb) && BestFit(m.tries, nb, rsize) && Best(m.tries, nb, v, rsize)
    ensures v != 0 && rsize < Rem(m.dvsize, nb) ==> BestBinned(m.L, nb, v) && (m.dvsize < nb || m.L[v].size < m.dvsize)
    ensures !(v != 0 && rsize < Rem(m.dvsize, nb)) ==> DvFitsBest(m.L, nb, m.dvsize)
  {
    Fitting(m, nb, rsize);
    if m.dv != 0 {
      ChunkAt(m.L, m.S, m.dv);
    }
    if v != 0 {
      assert FitOk(m.tries, v) && BinnedAt(m.L, m.rings, m.tries, v);
      BestOverall(m, nb, v, rsize);
      RemCompares(m.dvsize, nb, rsize);
    }
  }

  lemma RemCompares(dvsize: nat, nb: nat, rsize: nat)
    requires dvsize < SPACE && nb + rsize < SPACE
    ensures rsize < Rem(dvsize, nb) <==> dvsize < nb || nb + rsize < dvsize
  {
  }

  lemma Fitting(m: MState, nb: nat, rsize: nat)
    requires m.Valid() && SizeOk(nb) && BestFit(m.tries, nb, rsize)
    ensures forall q {:trigger q in m.L} :: q in m.L && m.L[q].kind.Binned? && nb <= m.L[q].size ==>
              nb + rsize <= m.L[q].size < SPACE
  {
    forall q {:trigger q in m.L} | q in m.L && m.L[q].kind.Binned? && nb <= m.L[q].size
      ensures nb + rsize <= m.L[q].size < SPACE
    {
      HeldBySize(m, q);
      assert BinnedAt(m.L, m.rings, m.tries, q) && FitOk(m.tries, q);
    }
  }

  /** Every binned chunk that fits is at least as large as the designated victim, which fits too. */
  ghost predicate DvFitsBest(L: Chunks, nb: int, dvsize: int) {
    forall q {:trigger q in L} :: q in L && L[q].kind.Binned? && nb <= L[q].size ==> nb <= dvsize <= L[q].size
  }

  /** `tmalloc_large` */
  method TMallocLarge(m: MState, nb: nat) returns (p: int)
    requires m.Valid() && SizeOk(nb)
    modifies m`mem, m`smallmap, m`treemap, m`L, m`rings, m`tries, m`staleHeads, m`staleFeet
    ensures m.Valid() && Quiet(old(m.mem), m.mem, old(m.L))
    ensures p != 0 ==>
              BestBinned(old(m.L), nb, p) && (m.dvsize < nb || old(m.L)[p].size < m.dvsize)
                  && Gave(old(m.L), m.L, p, nb)
    ensures p != 0 ==> Oldest(old(m.tries), p)
    ensures p == 0 ==> DvFitsBest(m.L, nb, m.dvsize) && unchanged(m)
  {
    var v, rsize := BestLarge(m, nb);
    Compared(m, nb, v, rsize);
    if v != 0 && rsize < Rem(m.dvsize, nb) {
      TakenNode(m, v);
      assert OkAddress(m, v) && OkNext(v, v + nb);   // RTCHECK
      ghost var loose := Carve(m, v, nb, rsize);
      if rsize >= MIN_CHUNK {
        BinRest(m, v + nb, rsize, old(m.L), v, nb);
      }
      p := v;
    } else {
      p := 0;
    }
  }

  /** The remainder of a split goes to its bin. */
  method BinRest(m: MState, r: int, rsize: int, ghost L0: Chunks, ghost v: int, ghost nb: int)
    requires m.Stored() && m.Indexed() && m.Clean() && m.Cast({r}) && Gave(L0, m.L, v, nb)
    requires r in m.L && m.L[r].kind.Loose? && m.L[r].size == rsize
    modifies m`mem, m`smallmap, m`treemap, m`L, m`rings, m`tries
    ensures m.Valid() && Gave(L0, m.L, v, nb) && Quiet(old(m.mem), m.mem, L0)
  {
    InsertChunk(m, r, rsize, {r});
    assert {r} - {r} == {};
    SameLiveReuse(old(m.L), r, Binned);
    AddedTrans(L0, L0, old(m.L), m.L, v);
    QuietWithin(old(m.mem), m.mem, L0, m.L);
  }

  /** The root of the first non-empty tree bin, for a request that any tree chunk serves. */
  lemma FirstRoot(m: MState, nb: nat, i: nat)
    requires m.Stored() && m.Indexed() && nb < MIN_LARGE && i == Scan(m.treemap, 0) < NBINS
    ensures RootKey(i) in m.tries.slot && At(m.mem, TreeBin(i)) == m.tries.slot[RootKey(i)]
    ensures forall rsize: nat :: Finishing(m.tries, nb, rsize, Spot(RootKey(i)))
  {
    ghost var t := m.tries;
    assert RootOk(t, i) && RootWord(m.mem, t, i);
    forall p {:trigger IsNode(t, p)} | IsNode(t, p) ensures nb <= t.held[p].size && i <= t.held[p].key.bin {
      assert FitOk(t, p);
      RootCovers(t, p);
      assert RootOk(t, t.held[p].key.bin);
    }
    forall p {:trigger Candidate(t, nb, p)} | Candidate(t, nb, p) ensures i <= t.held[p].key.bin {
      assert IsNode(t, p);
    }
    forall rsize: nat ensures Finishing(t, nb, rsize, Spot(RootKey(i))) {
      FinishRoot(t, nb, rsize, i);
    }
  }

  /** The smallest node of the first non-empty tree bin. */
  method BestSmall(m: MState, nb: nat) returns (v: int, rsize: nat)
    requires m.Stored() && m.Clean() && m.Indexed() && nb < MIN_LARGE && m.treemap != 0
    ensures v != 0 && Best(m.tries, nb, v, rsize) && BestFit(m.tries, nb, rsize)
  {
    FirstMarked(m.treemap);
    var i := Bit2Idx(LeastBit(m.treemap));
    FirstRoot(m, nb, i);
    var t := At(m.mem, TreeBin(i));
    ghost var k := RootKey(i);
    NoNull(m.tries);
    assert KeyOk(m.tries, k);
    SpotNode(m.tries, Spot(k), t);
    assert FitOk(m.tries, t);
    var size := Weigh(m, t, nb);
    FinishStep(m.tries, nb, size, k);
    var c := LeftmostChild(m, t, k);
    v, rsize := Finish(m, nb, c, t, size, Leftmost(m.tries, k));
    assert nb + rsize <= m.tries.held[t].size;
  }

  lemma NodeChunk(m: MState, v: int)
    requires m.Stored() && v in m.tries.held
    ensures v in m.L && m.L[v].size == m.tries.held[v].size
  {
    assert BinnedAt(m.L, m.rings, m.tries, v);
  }

  /** `tmalloc_small` */
  method TMallocSmall(m: MState, nb: nat) returns (p: int)
    requires m.Valid() && nb % 8 == 0 && MIN_CHUNK <= nb < MIN_LARGE && m.treemap != 0 && NoSmallFit(m.L, nb)
    requires m.dvsize < nb
    modifies m`mem, m`smallmap, m`treemap, m`L, m`rings, m`tries, m`staleHeads, m`staleFeet, m`dv, m`dvsize
    ensures m.Valid() && Quiet(old(m.mem), m.mem, old(m.L))
    ensures p != 0 && BestBinned(old(m.L), nb, p) && Gave(old(m.L), m.L, p, nb) && Oldest(old(m.tries), p)
    ensures if nb + MIN_CHUNK <= old(m.L)[p].size then m.dv == p + nb && m.dvsize == old(m.L)[p].size - nb
            else m.dv == old(m.dv) && m.dvsize == old(m.dvsize)
  {
    hide MState.Stored, MState.Indexed, Roles, BestBinned, Oldest, OkAddress;
    var v, rsize := BestSmall(m, nb);
    NodeChunk(m, v);
    BestOverall(m, nb, v, rsize);
    TakenNode(m, v);
    assert OkAddress(m, v) && OkNext(v, v + nb);   // RTCHECK
    ghost var loose := Carve(m, v, nb, rsize);
    if rsize >= MIN_CHUNK {
      ghost var L1, mem1 := m.L, m.mem;
      ReplaceDv(m, v + nb, rsize);
      AddedTrans(old(m.L), old(m.L), L1, m.L, v);
      QuietWithin(mem1, m.mem, old(m.L), m.L);
    }
    p := v;
  }
}
