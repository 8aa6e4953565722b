/** `dlmalloc`: allocation from the bins, the designated victim and the top chunk. */
module Malloc {
  import opened BinOps
  import opened Bits
  import opened Blocks
  import opened Layout
  import opened MallocState
  import opened Memory
  import opened Sizes
  import opened TreeOps
  import SB = SmallBins
  import Words

  // ---- live chunks across an operation

  ghost predicate SameLive(L: Chunks, M: Chunks) { LiveWithin(L, M) && LiveWithin(M, L) }

  /** `p` is live in `M` and was not in `L`; nothing else changed among the live chunks. */
  ghost predicate Added(L: Chunks, M: Chunks, p: int) {
    && p in M && Owned(M[p].kind) && !M[p].flag && !(p in L && Owned(L[p].kind)) && LiveWithin(L, M)
    && forall b {:trigger b in M} :: b in M && Owned(M[b].kind) && b != p ==> b in L && Owned(L[b].kind)
  }

  lemma SameLiveReuse(L: Chunks, p: int, k: Kind)
    requires p in L && !Owned(L[p].kind) && !Owned(k)
    ensures SameLive(L, Reuse(L, p, k))
  {
  }

  lemma SameLiveTrans(L: Chunks, M: Chunks, N: Chunks)
    requires SameLive(L, M) && SameLive(M, N)
    ensures SameLive(L, N)
  {
  }

  lemma AddedWhole(L: Chunks, p: int)
    requires p in L && !Owned(L[p].kind)
    ensures Added(L, Reuse(L, p, Live), p)
  {
  }

  lemma AddedFront(L: Chunks, S: Spans, p: int, n: nat)
    requires CanCut(L, S, p, n, Live) && !Owned(L[p].kind)
    ensures Added(L, Cut(L, p, n, Live), p) && Cut(L, p, n, Live)[p].size == n && Cut(L, p, n, Live)[p].kind.Live?
  {
    CutFresh(L, S, p, n, Live);
    ChunkAt(L, S, p);
  }

  lemma AddedTrans(L: Chunks, L1: Chunks, M1: Chunks, M: Chunks, p: int)
    requires SameLive(L, L1) && Added(L1, M1, p) && SameLive(M1, M)
    ensures Added(L, M, p) && M[p].size == M1[p].size && M[p].kind == M1[p].kind
  {
  }

  /** `p` is handed out for a request of `nb` bytes, with less than a minimum chunk to spare. */
  ghost predicate Gave(L: Chunks, M: Chunks, p: int, nb: int) {
    Added(L, M, p) && M[p].kind.Live? && nb <= M[p].size < nb + MIN_CHUNK
  }

  // ---- insert_chunk and unlink_chunk

  /** `insert_chunk` */
  method InsertAny(m: MState, p: int, s: int)
    requires m.Stored() && m.Indexed() && m.Clean() && p in m.L && m.L[p].kind.Loose? && m.L[p].size == s
    modifies m`mem, m`smallmap, m`treemap, m`L, m`rings, m`tries
    ensures m.Stored() && m.Indexed() && m.L == Reuse(old(m.L), p, Binned) && Quiet(old(m.mem), m.mem, m.L)
  {
    ChunkAt(m.L, m.S, p);
    if IsSmall(s) {
      InsertSmall(m, p, s);
    } else {
      InsertLarge(m, p, s);
    }
  }

  method InsertChunk(m: MState, p: int, s: int, ghost loose: set<int>)
    requires m.Stored() && m.Indexed() && m.Clean() && m.Cast(loose) && p in m.L && m.L[p].kind.Loose?
    requires m.L[p].size == s
    modifies m`mem, m`smallmap, m`treemap, m`L, m`rings, m`tries
    ensures m.Stored() && m.Indexed() && m.Cast(loose - {p})
    ensures m.L == Reuse(old(m.L), p, Binned) && Quiet(old(m.mem), m.mem, m.L)
  {
    ChunkAt(m.L, m.S, p);
    RolesReuse(m.L, m.dv, m.dvsize, m.top, m.topsize, loose, p, Binned);
    assert RoleOk(m.L, m.dv, m.top, loose, p);
    InsertAny(m, p, s);
  }

  /** `unlink_chunk` */
  method UnlinkAny(m: MState, p: int, s: int)
    requires m.Stored() && m.Indexed() && p in m.L && m.L[p].kind.Binned? && m.L[p].size == s
    modifies m`mem, m`smallmap, m`treemap, m`L, m`rings, m`tries
    ensures m.Stored() && m.Indexed() && m.L == Reuse(old(m.L), p, Loose) && Quiet(old(m.mem), m.mem, m.L)
  {
    ChunkAt(m.L, m.S, p);
    HeldBySize(m, p);
    assert BinnedAt(m.L, m.rings, m.tries, p);
    if IsSmall(s) {
      UnlinkSmall(m, p, s);
    } else {
      UnlinkLarge(m, p);
    }
  }

  /** A binned chunk is in the bins its size says. */
  lemma HeldBySize(m: MState, p: int)
    requires m.Stored() && m.Indexed() && p in m.L && m.L[p].kind.Binned?
    ensures IsSmall(m.L[p].size) <==> p in m.rings.held
    ensures !IsSmall(m.L[p].size) <==> p in m.tries.held
  {
    assert BinnedAt(m.L, m.rings, m.tries, p);
    if p in m.rings.held {
      assert SB.EntryOk(m.rings, p);
    }
  }

  lemma DvBinned(L: Chunks, dv: int, dvsize: int, top: int, topsize: int, loose: set<int>)
    requires Roles(L, dv, dvsize, top, topsize, loose) && dvsize != 0
    ensures dv in L && L[dv].kind.Victim? && dv !in loose
    ensures var M := Reuse(L, dv, Loose);
            && dv in M && M[dv] == L[dv].(kind := Loose, flag := false) && L[dv].size == dvsize
            && Reuse(M, dv, Binned) == Reuse(L, dv, Binned)
    ensures Roles(Reuse(L, dv, Binned), 0, 0, top, topsize, loose)
  {
    assert RoleOk(L, dv, top, loose, dv);
    RolesReuse(L, dv, dvsize, top, topsize, loose, dv, Binned);
    assert loose - {dv} == loose;
  }

  /** The designated victim goes to a small bin. */
  method BinDv(m: MState, ghost loose: set<int>)
    requires m.Stored() && m.Indexed() && m.Clean() && m.Cast(loose) && IsSmall(m.dvsize) && m.dvsize != 0
    modifies m`mem, m`smallmap, m`L, m`rings, m`dv, m`dvsize, m`staleHeads, m`staleFeet
    ensures m.Stored() && m.Indexed() && m.Clean() && m.Cast(loose) && m.dv == 0 && m.dvsize == 0
    ensures old(m.dv) in old(m.L) && old(m.L)[old(m.dv)].kind.Victim? && m.L == Reuse(old(m.L), old(m.dv), Binned)
    ensures Quiet(old(m.mem), m.mem, m.L)
  {
    hide MState.Stored, Quiet, Roles, MState.Indexed, Reuse, IsSmall;
    var d, s := m.dv, m.dvsize;
    DvBinned(m.L, d, s, m.top, m.topsize, loose);
    DvLoose(m, loose);
    InsertSmall(m, d, s);
    m.dv := 0;
    m.dvsize := 0;
  }

  /** The designated victim taken in hand. */
  ghost method DvLoose(m: MState, loose: set<int>)
    requires m.Stored() && m.Clean() && m.Cast(loose) && m.dvsize != 0
    modifies m`L, m`staleHeads, m`staleFeet
    ensures m.Stored() && m.Clean() && m.dv in old(m.L) && m.dv !in loose && old(m.L)[m.dv].kind.Victim?
    ensures old(m.L)[m.dv].size == m.dvsize && m.L == Reuse(old(m.L), m.dv, Loose)
  {
    assert RoleOk(m.L, m.dv, m.top, loose, m.dv);
    NextAt(m.L, m.S, m.dv);
    GhostReuse(m, m.dv, Loose);
  }

  /** What becomes of the chunks when one in hand becomes the designated victim or goes into a bin. */
  lemma LooseSettles(L: Chunks, S: Spans, dv: int, dvsize: int, top: int, topsize: int, p: int, k: Kind)
    requires Tiled(L, S) && Roles(L, dv, dvsize, top, topsize, {p}) && p in L && L[p].kind.Loose?
    requires (k.Victim? && dv == 0) || k.Binned?
    ensures var M := Reuse(L, p, k);
            && Roles(M, if k.Victim? then p else dv, if k.Victim? then L[p].size else dvsize, top, topsize, {})
            && SameLive(L, M) && p in M && M[p] == L[p].(kind := k)
    ensures Pin(L, p) && Next(L, p) in L && InUse(L[Next(L, p)].kind) && L[p].size > 0 && 0 !in L
  {
    hide Tiled, SameLive;
    NextAt(L, S, p);
    assert RoleOk(L, dv, top, {p}, p);
    RolesReuse(L, dv, dvsize, top, topsize, {p}, p, k);
    assert {p} - {p} == {};
    SameLiveReuse(L, p, k);
  }

  /** A loose chunk becomes the designated victim, there being none. */
  method SetDv(m: MState, p: int, s: int)
    requires m.Stored() && m.Indexed() && m.Clean() && m.Cast({p}) && p in m.L && m.L[p].kind.Loose? && m.L[p].size == s
    requires m.dv == 0
    modifies m`L, m`dv, m`dvsize, m`staleHeads, m`staleFeet
    ensures m.Valid() && m.dv == p && m.dvsize == s && m.L == Reuse(old(m.L), p, Victim)
  {
    hide MState.Stored, MState.Indexed, Roles, Reuse, Pin, SameLive;
    StoredTiled(m);
    LooseSettles(m.L, m.S, m.dv, m.dvsize, m.top, m.topsize, p, Victim);
    GhostReuse(m, p, Victim);
    m.dvsize := s;
    m.dv := p;
  }

  /** `replace_dv`: the old victim goes to a small bin, `p` is the new one. */
  method ReplaceDv(m: MState, p: int, s: int)
    requires m.Stored() && m.Indexed() && m.Clean() && m.Cast({p}) && p in m.L && m.L[p].kind.Loose? && m.L[p].size == s
    requires IsSmall(m.dvsize)
    modifies m`mem, m`smallmap, m`L, m`rings, m`dv, m`dvsize, m`staleHeads, m`staleFeet
    ensures m.Valid() && m.dv == p && m.dvsize == s && SameLive(old(m.L), m.L) && Quiet(old(m.mem), m.mem, m.L)
  {
    hide Tiled, Tagged;
    if m.dvsize != 0 {
      BinDv(m, {p});
    }
    ghost var L1 := m.L;
    SetDv(m, p, s);
    SameLiveReuse(L1, p, Victim);
    QuietWithin(old(m.mem), m.mem, m.L, L1);
    if old(m.dvsize) != 0 {
      SameLiveReuse(old(m.L), old(m.dv), Binned);
      SameLiveTrans(old(m.L), L1, m.L);
    }
  }

  // ---- requests served from a small bin

  predicate BinnedOf(L: Chunks, p: int, s: int) { p in L && L[p].kind.Binned? && L[p].size == s }

  /** Of the chunks of its size, `x` has been in its bin the shortest time. */
  ghost predicate Youngest(r: SB.Rings, x: int) {
    && x in r.held
    && forall p {:trigger p in r.held} :: p in r.held && p != x && r.held[p].size == r.held[x].size ==>
            r.held[p].stamp < r.held[x].stamp
  }

  lemma FrontIsYoungest(r: SB.Rings, i: nat, x: int)
    requires SB.Valid(r) && x in r.held && r.held[x].size == 8 * i && Words.At(r.fd, SB.Header(i)) == x
    ensures Youngest(r, x)
  {
    forall p {:trigger p in r.held} | p in r.held && p != x && r.held[p].size == r.held[x].size
      ensures r.held[p].stamp < r.held[x].stamp
    {
      SB.FirstIsYoungest(r, p);
    }
  }

  /** The front chunk of small bin `i`, in hand. */
  method PopSmall(m: MState, i: nat) returns (p: int)
    requires m.Valid() && i < NBINS && BitAt(m.smallmap, i)
    modifies m`mem, m`smallmap, m`L, m`rings
    ensures m.Stored() && m.Indexed() && m.Cast({p}) && p in m.L && m.L[p].kind.Loose? && m.L[p].size == 8 * i
    ensures BinnedOf(old(m.L), p, 8 * i) && Youngest(old(m.rings), p)
    ensures SameLive(old(m.L), m.L) && Quiet(old(m.mem), m.mem, m.L)
  {
    p := FirstSmall(m, i);
    FrontIsYoungest(m.rings, i, p);
    assert SB.HeaderOk(m.rings, i);
    ChunkAt(m.L, m.S, p);
    assert BinnedAt(m.L, m.rings, m.tries, p);
    assert RoleOk(m.L, m.dv, m.top, {}, p);
    RolesReuse(m.L, m.dv, m.dvsize, m.top, m.topsize, {}, p, Loose);
    SameLiveReuse(m.L, p, Loose);
    UnlinkFirstSmall(m, SB.Header(i), p, i);
    assert {} + {p} == {p};
  }

  /** A loose chunk handed out whole. */
  method GiveWhole(m: MState, p: int, s: int)
    requires m.Stored() && m.Indexed() && m.Clean() && m.Cast({p}) && p in m.L && m.L[p].kind.Loose? && m.L[p].size == s
    modifies m`mem, m`L, m`staleHeads, m`staleFeet
    ensures m.Valid() && Added(old(m.L), m.L, p) && m.L[p].size == s && m.L[p].kind.Live?
    ensures Quiet(old(m.mem), m.mem, m.L)
  {
    ChunkAt(m.L, m.S, p);
    assert RoleOk(m.L, m.dv, m.top, {p}, p);
    RolesReuse(m.L, m.dv, m.dvsize, m.top, m.topsize, {p}, p, Live);
    assert {p} - {p} == {};
    AddedWhole(m.L, p);
    TakeWhole(m, p, s);
  }

  /** The front of a loose chunk handed out, the rest loose. */
  method GiveFront(m: MState, p: int, nb: int, rsize: int)
    requires m.Stored() && m.Indexed() && m.Clean() && m.Cast({p}) && p in m.L && m.L[p].kind.Loose?
    requires m.L[p].size == nb + rsize
    requires nb % 8 == 0 && MIN_CHUNK <= nb && MIN_CHUNK <= rsize
    modifies m`mem, m`L, m`staleHeads, m`staleFeet
    ensures m.Stored() && m.Indexed() && m.Clean() && m.Cast({p + nb}) && Added(old(m.L), m.L, p) && m.L[p].size == nb
    ensures m.L[p].kind.Live?
    ensures p + nb in m.L && m.L[p + nb].kind.Loose? && m.L[p + nb].size == rsize && Quiet(old(m.mem), m.mem, m.L)
  {
    ChunkAt(m.L, m.S, p);
    NextAt(m.L, m.S, p);
    RolesCut(m.L, m.S, m.dv, m.dvsize, m.top, m.topsize, {p}, p, nb);
    assert {p} - {p} + {p + nb} == {p + nb};
    assert RoleOk(m.L, m.dv, m.top, {p}, p);
    AddedFront(m.L, m.S, p, nb);
    CutFresh(m.L, m.S, p, nb, Live);
    TakeFront(m, p, nb, rsize);
  }

  /** Remainderless fit to a small bin. */
  method FromExactBin(m: MState, i: nat, nb: int) returns (p: int)
    requires m.Valid() && i < NBINS && BitAt(m.smallmap, i) && nb <= 8 * i < nb + MIN_CHUNK
    modifies m`mem, m`smallmap, m`L, m`rings, m`staleHeads, m`staleFeet
    ensures m.Valid() && Gave(old(m.L), m.L, p, nb) && Quiet(old(m.mem), m.mem, old(m.L))
    ensures BinnedOf(old(m.L), p, 8 * i) && Youngest(old(m.rings), p)
  {
    hide Youngest;
    p := PopSmall(m, i);
    ghost var L1 := m.L;
    QuietWithin(old(m.mem), m.mem, old(m.L), L1);
    ghost var mem1 := m.mem;
    GiveWhole(m, p, 8 * i);
    AddedTrans(old(m.L), L1, m.L, m.L, p);
    QuietWithin(mem1, m.mem, old(m.L), m.L);
  }

  /** The smallest larger small bin, its remainder becoming the designated victim. */
  method FromLargerBin(m: MState, i: nat, nb: int) returns (p: int)
    requires m.Valid() && i < NBINS && BitAt(m.smallmap, i) && MIN_CHUNK <= nb <= 8 * i && nb % 8 == 0 && m.dvsize < nb
    modifies m`mem, m`smallmap, m`L, m`rings, m`dv, m`dvsize, m`staleHeads, m`staleFeet
    ensures m.Valid() && Gave(old(m.L), m.L, p, nb) && Quiet(old(m.mem), m.mem, old(m.L))
    ensures BinnedOf(old(m.L), p, 8 * i) && Youngest(old(m.rings), p)
    ensures if nb + MIN_CHUNK <= 8 * i then m.dv == p + nb && m.dvsize == 8 * i - nb
            else m.dv == old(m.dv) && m.dvsize == old(m.dvsize)
  {
    hide Tiled, Tagged, RingsStored, LeastOk, MState.Stored, MState.Indexed, TriesStored, OffState, Foreign, Roles;
    hide Youngest;
    var rsize := 8 * i - nb;
    if rsize < MIN_CHUNK {
      p := FromExactBin(m, i, nb);
    } else {
      p := PopSmall(m, i);
      ghost var L1, mem1 := m.L, m.mem;
      QuietWithin(old(m.mem), mem1, old(m.L), L1);
      GiveFront(m, p, nb, rsize);
      ghost var L2, mem2 := m.L, m.mem;
      QuietWithin(mem1, mem2, old(m.L), L2);
      ReplaceDv(m, p + nb, rsize);
      AddedTrans(old(m.L), L1, L2, m.L, p);
      QuietWithin(mem2, m.mem, old(m.L), m.L);
    }
  }
}
