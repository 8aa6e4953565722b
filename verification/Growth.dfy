/** Growing the heap: the first segment, a segment extended at its end, a segment extended at its front. */
module Growth {
  import opened Blocks
  import opened Free
  import opened Layout
  import opened Malloc
  import opened MallocState
  import opened Memory
  import opened Records
  import opened Regions
  import opened Segments
  import opened Sizes
  import opened Words
  import SmallBins

  // ---- the list of segments after a change

  lemma SegsPush(S: Spans, segs: seq<Span>, ids: seq<nat>, direct: set<nat>, h: nat, x: Span)
    requires SegsOk(S, segs, ids, direct) && h !in S && Whole(x.size) && x.lead == 0
    ensures SegsOk(S[h := x], [x] + segs, [h] + ids, direct)
  {
    var T, s', i' := S[h := x], [x] + segs, [h] + ids;
    forall i {:trigger SegAt(T, s', i', direct, i)} | 0 <= i < |s'| ensures SegAt(T, s', i', direct, i) {
      assert NameOk(S, ids, direct, h);
      assert i > 0 ==> SegAt(S, segs, ids, direct, i - 1);
    }
    forall i, j {:trigger i'[i], i'[j]} | 0 <= i < j < |i'| ensures i'[i] != i'[j] {
      assert SegAt(S, segs, ids, direct, j - 1);
    }
    forall g {:trigger NameOk(T, i', direct, g)} ensures NameOk(T, i', direct, g) {
      assert NameOk(S, ids, direct, g);
      assert g in i' <==> g == h || g in ids;
    }
  }

  lemma SegsSet(S: Spans, segs: seq<Span>, ids: seq<nat>, direct: set<nat>, k: nat, x: Span)
    requires SegsOk(S, segs, ids, direct) && k < |segs| && Whole(x.size) && x.lead == 0
    ensures SegsOk(S[ids[k] := x], segs[k := x], ids, direct) && ids[k] in S
  {
    var T, s' := S[ids[k] := x], segs[k := x];
    assert SegAt(S, segs, ids, direct, k);
    forall i {:trigger SegAt(T, s', ids, direct, i)} | 0 <= i < |s'| ensures SegAt(T, s', ids, direct, i) {
      assert SegAt(S, segs, ids, direct, i);
      assert i < k ==> ids[i] != ids[k];
      assert k < i ==> ids[k] != ids[i];
    }
    forall g {:trigger NameOk(T, ids, direct, g)} ensures NameOk(T, ids, direct, g) {
      assert NameOk(S, ids, direct, g);
    }
  }

  lemma SegsDirect(S: Spans, segs: seq<Span>, ids: seq<nat>, direct: set<nat>, h: nat, x: Span)
    requires SegsOk(S, segs, ids, direct) && h !in S
    ensures SegsOk(S[h := x], segs, ids, direct + {h})
  {
    var T := S[h := x];
    forall i {:trigger SegAt(T, segs, ids, direct + {h}, i)} | 0 <= i < |segs|
      ensures SegAt(T, segs, ids, direct + {h}, i)
    {
      assert SegAt(S, segs, ids, direct, i);
    }
    forall g {:trigger NameOk(T, ids, direct + {h}, g)} ensures NameOk(T, ids, direct + {h}, g) {
      assert NameOk(S, ids, direct, g);
    }
  }

  lemma SegsUndirect(S: Spans, segs: seq<Span>, ids: seq<nat>, direct: set<nat>, h: nat)
    requires SegsOk(S, segs, ids, direct) && h in direct
    ensures h in S && SegsOk(S - {h}, segs, ids, direct - {h})
  {
    var T := S - {h};
    assert NameOk(S, ids, direct, h);
    forall i {:trigger SegAt(T, segs, ids, direct - {h}, i)} | 0 <= i < |segs|
      ensures SegAt(T, segs, ids, direct - {h}, i)
    {
      assert SegAt(S, segs, ids, direct, i);
    }
    forall g {:trigger NameOk(T, ids, direct - {h}, g)} ensures NameOk(T, ids, direct - {h}, g) {
      if g in ids {
        var i :| 0 <= i < |ids| && ids[i] == g;
        assert SegAt(S, segs, ids, direct, i);
      }
      assert NameOk(S, ids, direct, g);
    }
  }

  lemma SegsRegion(S: Spans, segs: seq<Span>, ids: seq<nat>, direct: set<nat>, h: nat, x: Span)
    requires SegsOk(S, segs, ids, direct) && h in direct
    ensures SegsOk(S[h := x], segs, ids, direct)
  {
    SegsUndirect(S, segs, ids, direct, h);
    SegsDirect(S - {h}, segs, ids, direct - {h}, h, x);
    assert S[h := x] == (S - {h})[h := x] && direct == direct - {h} + {h};
  }

  /** A name for a new region. */
  lemma {:induction false} NewName(X: set<nat>) returns (n: nat)
    ensures forall x :: x in X ==> x < n
  {
    if X == {} {
      n := 0;
    } else {
      var x :| x in X;
      var k := NewName(X - {x});
      n := if k <= x then x + 1 else k;
      assert forall y :: y in X ==> y == x || y in X - {x};
    }
  }

  // ---- init_top and the top chunk

  const TRIM_THRESHOLD: int := 0x20_0000

  /** `init_top` */
  method InitTop(m: MState, p: int, psize: int)
    requires m.Stored() && p in m.L && m.L[p].kind.Top? && m.L[p].size == psize + TOP_FOOT
    modifies m`mem, m`staleHeads, m`staleTails, m`top, m`topsize, m`trimCheck
    ensures m.Stored() && m.staleHeads == old(m.staleHeads) - {p} && m.staleTails == old(m.staleTails) - {p}
    ensures m.top == p && m.topsize == psize
    ensures Quiet(old(m.mem), m.mem, m.L) && m.trimCheck == TRIM_THRESHOLD
  {
    ChunkAt(m.L, m.S, p);
    m.top := p;
    m.topsize := psize;
    PutHead(m, p, psize + 1);
    PutInside(m, p, psize + HEAD, TOP_FOOT);
    FixTail(m, p);
    m.trimCheck := TRIM_THRESHOLD;
  }

  /** The front of the top chunk handed out. */
  method SplitTop(m: MState, nb: int) returns (p: int)
    requires m.Valid() && nb % 8 == 0 && MIN_CHUNK <= nb < m.topsize
    modifies m`mem, m`L, m`staleHeads, m`staleFeet, m`top, m`topsize
    ensures m.Valid() && p == old(m.top) && m.top == p + nb && m.topsize == old(m.topsize) - nb
    ensures p in old(m.L) && Gave(old(m.L), m.L, p, nb) && Quiet(old(m.mem), m.mem, old(m.L))
  {
    hide Quiet, Tiled, Tagged, Bins, RingsStored, TriesStored, OffState, LeastOk, MState.Indexed;
    p := m.top;
    var rsize := m.topsize - nb;
    SplitTopRoles(m.L, m.S, m.dv, m.dvsize, p, m.topsize, nb);
    m.topsize := rsize;
    m.top := p + nb;
    TakeTop(m, p, nb, rsize);
    QuietWithin(old(m.mem), m.mem, old(m.L), m.L);
  }

  lemma SplitTopRoles(L: Chunks, S: Spans, dv: int, dvsize: int, top: int, topsize: int, nb: int)
    requires Roles(L, dv, dvsize, top, topsize, {}) && Tiled(L, S) && nb % 8 == 0 && MIN_CHUNK <= nb < topsize
    ensures top in L && L[top].kind.Top? && CanCut(L, S, top, nb, Live)
    ensures Roles(Cut(L, top, nb, Live), dv, dvsize, top + nb, topsize - nb, {})
    ensures Added(L, Cut(L, top, nb, Live), top) && Cut(L, top, nb, Live)[top].size == nb
    ensures Cut(L, top, nb, Live)[top].kind.Live?
  {
    ChunkAt(L, S, top);
    assert RoleOk(L, dv, top, {}, top);
    assert dv in L ==> RoleOk(L, dv, top, {}, dv);
    RolesCut(L, S, dv, dvsize, top, topsize, {}, top, nb);
    AddedFront(L, S, top, nb);
  }

  // ---- the first segment

  const MAX_RELEASE_CHECK_RATE: int := 4095

  /** No chunk is binned before there is a segment. */
  lemma NothingHeld(m: MState)
    requires m.Stored() && m.L == map[]
    ensures m.rings.held == map[]
  {
    forall p ensures p !in m.rings.held {
      assert BinnedAt(m.L, m.rings, m.tries, p);
    }
  }

  lemma HeadersFree(r: SmallBins.Rings, r': SmallBins.Rings)
    requires SmallBins.Valid(r) && r.held == map[] && r'.held == map[] && r'.binmap == r.binmap
    ensures SmallBins.Valid(r')
  {
    forall i {:trigger SmallBins.HeaderOk(r', i)} | 0 <= i < NBINS ensures SmallBins.HeaderOk(r', i) {
      assert SmallBins.HeaderOk(r, i);
    }
  }

  /** Every header leads to itself. */
  ghost predicate SelfLinked(r: SmallBins.Rings) {
    forall i {:trigger SmallBins.Header(i)} :: 0 <= i < NBINS ==>
      At(r.fd, SmallBins.Header(i)) == At(r.bk, SmallBins.Header(i)) == SmallBins.Header(i)
  }

  /** `init_bins` */
  method InitBins(m: MState)
    requires m.Stored() && m.Indexed() && m.rings.held == map[]
    modifies m`mem, m`rings
    ensures m.Stored() && m.Indexed() && Quiet(old(m.mem), m.mem, m.L)
    ensures SelfLinked(m.rings)
  {
    hide MState.Stored;
    var i := 0;
    while i < NBINS
      invariant 0 <= i <= NBINS && m.Stored() && m.Indexed() && m.rings.held == map[] && Quiet(old(m.mem), m.mem, m.L)
      invariant forall j {:trigger SmallBins.Header(j)} :: 0 <= j < i ==>
                  At(m.rings.fd, SmallBins.Header(j)) == At(m.rings.bk, SmallBins.Header(j)) == SmallBins.Header(j)
    {
      ghost var r := m.rings;
      var b := SmallBins.Header(i);
      PutFd(m, b, b);
      PutBk(m, b, b);
      HeadersFree(r, m.rings);
      i := i + 1;
    }
  }

  method Lower(m: MState, a: int)
    requires m.Stored()
    modifies m`leastAddr
    ensures m.Stored() && m.leastAddr <= a
  {
    if a < m.leastAddr {
      m.leastAddr := a;
    }
    assert LeastOk(m.S, m.leastAddr) by {
      forall h {:trigger LeastAt(m.S, m.leastAddr, h)} | h in m.S ensures LeastAt(m.S, m.leastAddr, h) {
        assert LeastAt(m.S, old(m.leastAddr), h);
      }
    }
  }

  lemma FirstRoles(L: Chunks, dv: int, dvsize: int, topsize: int, h: nat, base: int, size: nat)
    requires Roles(L, dv, dvsize, 0, topsize, {}) && L == map[] && TOP_FOOT < size && 0 < base
    ensures base in AddChunk(L, h, base, size, Top) && AddChunk(L, h, base, size, Top)[base] == Chunk(size, 0, Top, h)
    ensures Roles(AddChunk(L, h, base, size, Top), dv, dvsize, base, size - TOP_FOOT, {})
  {
  }

  lemma EmptyHeap(m: MState, n: int)
    requires m.Valid() && m.Owing(n) && m.top == 0
    ensures m.L == map[] && m.S == map[] && m.direct == {} && m.footprint == n && m.rings.held == map[]
  {
    NothingHeld(m);
    forall h ensures h !in m.S {
      assert h in m.S ==> SpanOk(m.L, m.S, h);
    }
    forall h ensures h !in m.direct {
      assert NameOk(m.S, m.ids, m.direct, h);
    }
  }

  /** `least_addr` of a heap without segments. */
  method SetLeast(m: MState, a: int)
    requires m.Stored() && m.S == map[]
    modifies m`leastAddr
    ensures m.Stored() && m.leastAddr <= a
  {
    if m.leastAddr == 0 || a < m.leastAddr {
      m.leastAddr := a;
    }
  }

  /** A list of one. */
  lemma FirstChained(base: int, size: nat, notes: Notes)
    ensures Chained(Seg(base, size, 0), [Span(base, size)], [0], [0], notes)
  {
  }

  /** The first region, all of it top chunk. */
  method FirstSpace(m: MState, tbase: int, tsize: nat)
    requires m.Valid() && m.L == map[] && m.S == map[] && m.top == 0
    requires Fresh(m.S, m.alien, tbase, tsize) && TOP_FOOT < tsize && m.leastAddr <= tbase
    modifies m`mem, m`L, m`S, m`staleTails, m`staleHeads, m`staleFeet, m`top, m`topsize, m`trimCheck
    ensures m.Valid() && m.top == tbase > 0 && m.topsize == tsize - TOP_FOOT
    ensures m.L == AddChunk(old(m.L), 0, tbase, tsize, Top) && m.S == AddSpan(old(m.S), 0, tbase, tsize)
  {
    hide MState.Stored, AddChunk, AddSpan, MState.Indexed, Roles;
    FirstRoles(m.L, m.dv, m.dvsize, m.topsize, 0, tbase, tsize);
    GhostAdd(m, 0, tbase, tsize, Top);
    DropFoot(m, tbase);
    InitTop(m, tbase, tsize - TOP_FOOT);
  }

  /** The first top chunk. */
  method FirstTop(m: MState, tbase: int, tsize: nat)
    requires m.Valid() && m.L == map[] && m.S == map[] && m.direct == {} && m.top == 0
    requires Fresh(m.S, m.alien, tbase, tsize) && TOP_FOOT < tsize && m.leastAddr <= tbase
    requires m.footprint == tsize <= m.maxFootprint && Whole(tsize)
    modifies m`mem, m`seg, m`segs, m`ids, m`links, m`L, m`S, m`staleTails, m`staleHeads, m`staleFeet, m`top, m`topsize
    modifies m`trimCheck
    ensures m.Valid() && m.Booked() && m.topsize == tsize - TOP_FOOT && NoneLive(m.L)
    ensures m.segs == [Span(tbase, tsize)] && m.top == tbase
  {
    hide MState.Stored, MState.Owing, NoneLive, AddChunk, AddSpan, MState.Indexed, Chained, Roles, Whole;
    FirstSpace(m, tbase, tsize);
    m.seg := Seg(tbase, tsize, 0);
    m.segs, m.ids, m.links := [Span(tbase, tsize)], [0], [0];
    FirstChained(tbase, tsize, m.notes);
    FirstBooked(m, old(m.L), old(m.S), tbase, tsize);
  }

  method FirstWords(m: MState, tbase: int)
    requires m.Stored() && m.Indexed() && m.S == map[] && m.rings.held == map[]
    modifies m`mem, m`rings, m`leastAddr, m`releaseChecks
    ensures m.Stored() && m.Indexed() && m.leastAddr <= tbase && m.releaseChecks == MAX_RELEASE_CHECK_RATE
    ensures SelfLinked(m.rings)
  {
    hide MState.Stored, MState.Indexed;
    SetLeast(m, tbase);
    m.releaseChecks := MAX_RELEASE_CHECK_RATE;
    InitBins(m);
  }

  ghost predicate NoneLive(L: Chunks) {
    forall b {:trigger b in L} :: b in L ==> !Owned(L[b].kind)
  }

  /** First-time initialization. */
  method First(m: MState, tbase: int, tsize: nat)
    requires m.Valid() && m.Owing(tsize) && m.top == 0 && Fresh(m.S, m.alien, tbase, tsize) && TOP_FOOT < tsize
    requires Whole(tsize)
    modifies m`mem, m`rings, m`leastAddr, m`seg, m`segs, m`ids, m`links, m`releaseChecks, m`L, m`S, m`staleTails
    modifies m`staleHeads, m`staleFeet, m`top, m`topsize, m`trimCheck
    ensures m.Valid() && m.Booked() && m.topsize == tsize - TOP_FOOT && NoneLive(old(m.L)) && NoneLive(m.L)
    ensures m.segs == [Span(tbase, tsize)] && m.top == tbase && m.releaseChecks == MAX_RELEASE_CHECK_RATE
    ensures SelfLinked(m.rings)
  {
    hide MState.Stored, Total, Roles, MState.Indexed, SegsOk, DirectOk, Quiet, MState.Listed, SelfLinked;
    EmptyHeap(m, tsize);
    FirstWords(m, tbase);
    FirstTop(m, tbase, tsize);
  }

  lemma FirstBooked(m: MState, L0: Chunks, S0: Spans, base: int, size: nat)
    requires L0 == map[] && S0 == map[] && m.L == AddChunk(L0, 0, base, size, Top) && m.S == AddSpan(S0, 0, base, size)
    requires m.segs == [Span(base, size)] && m.ids == [0] && m.direct == {} && m.Listed()
    requires m.top == base > 0 && m.topsize == size - TOP_FOOT && m.footprint == size <= m.maxFootprint && Whole(size)
    ensures m.Booked() && NoneLive(m.L)
  {
    TotalPut(S0, 0, Span(base, size));
    assert S0 - {0} == S0;
  }

  // ---- a segment extended at its end

  /** The segments and their names. */
  lemma SegHome(m: MState, n: int, k: nat)
    requires m.Valid() && m.Owing(n) && k < |m.segs|
    ensures |m.ids| == |m.segs| && m.ids[k] in m.S && m.S[m.ids[k]] == m.segs[k] && m.ids[k] !in m.direct
    ensures m.segs[k].base in m.L && m.L[m.segs[k].base].home == m.ids[k] && !m.L[m.segs[k].base].kind.Mapped?
    ensures m.segs[k].base % 8 == 0 && m.segs[k].End() <= SPACE && Whole(m.segs[k].size) && m.segs[k].lead == 0
  {
    assert SegAt(m.S, m.segs, m.ids, m.direct, k);
    assert SpanOk(m.L, m.S, m.ids[k]);
  }

  lemma TopHome(m: MState, n: int)
    requires m.Valid() && m.Owing(n) && m.top != 0
    ensures m.segs != [] && m.top in m.L && m.L[m.top].kind.Top? && m.L[m.top].home == m.ids[0]
    ensures m.top + m.topsize + TOP_FOOT == m.segs[0].End() && m.L[m.top].size == m.topsize + TOP_FOOT
  {
    SegHome(m, n, 0);
    ChunkAt(m.L, m.S, m.top);
    assert RoleOk(m.L, m.dv, m.top, {}, m.top);
    SpanHolds(m.L, m.S, m.ids[0]);
    assert m.L[m.top].home != m.ids[0] ==> SpansApart(m.S, m.L[m.top].home, m.ids[0]);
  }

  /** The segment that holds the top chunk is the newest. */
  lemma HoldsTop(m: MState, n: int, k: nat)
    requires m.Valid() && m.Owing(n) && m.top != 0 && k < |m.segs| && m.segs[k].base <= m.top < m.segs[k].End()
    ensures k == 0
  {
    TopHome(m, n);
    SegHome(m, n, 0);
    SegHome(m, n, k);
    ChunkAt(m.L, m.S, m.top);
    assert k != 0 ==> m.ids[0] != m.ids[k];
    assert k != 0 ==> SpansApart(m.S, m.ids[0], m.ids[k]);
  }

  lemma RolesResize(L: Chunks, dv: int, dvsize: int, top: int, topsize: int, size: int)
    requires Roles(L, dv, dvsize, top, topsize, {}) && top != 0 && 0 <= size
    ensures top in L && Roles(Resize(L, top, size + TOP_FOOT), dv, dvsize, top, size, {})
    ensures Beside(L, 0, Resize(L, top, size + TOP_FOOT), 0)
  {
    var M := Resize(L, top, size + TOP_FOOT);
    assert RoleOk(L, dv, top, {}, top);
    assert dv in L ==> RoleOk(L, dv, top, {}, dv);
    forall q {:trigger RoleOk(M, dv, top, {}, q)} | q in M ensures RoleOk(M, dv, top, {}, q) {
      assert RoleOk(L, dv, top, {}, q);
    }
  }

  /** The newest segment and the accounts after a change of the size of the top chunk. */
  lemma ResizeBooked(S: Spans, segs: seq<Span>, ids: seq<nat>, direct: set<nat>, L: Chunks, top: int, size: nat)
    requires SegsOk(S, segs, ids, direct) && segs != [] && top in L && L[top].home == ids[0] && ids[0] in S
    requires S[ids[0]] == segs[0]
    requires segs[0].base <= top && Whole(top + size - segs[0].base)
    ensures var x := Span(segs[0].base, top + size - segs[0].base);
            && SegsOk(ResizeSpan(L, S, top, size), segs[0 := x], ids, direct)
            && Total(ResizeSpan(L, S, top, size)) == Total(S) - segs[0].size + x.size
  {
    hide Total, Whole;
    var x := Span(segs[0].base, top + size - segs[0].base);
    SegsSet(S, segs, ids, direct, 0, x);
    TotalOf(S, ids[0]);
    TotalPut(S, ids[0], x);
  }

  lemma DirectKept(L: Chunks, p: int, M: Chunks, q: int, direct: set<nat>)
    requires DirectOk(L, direct) && Beside(L, p, M, q) && (q in M ==> !M[q].kind.Mapped?)
    ensures DirectOk(M, direct)
  {
  }

  /** The books after a change of the size of the top chunk. */
  lemma ResizeBooks(m: MState, L: Chunks, S: Spans, segs: seq<Span>)
    requires SegsOk(S, segs, m.ids, m.direct) && DirectOk(L, m.direct) && Beside(L, 0, m.L, 0) && 0 !in m.L
    requires segs != [] && m.top != 0 && m.top in L && L[m.top].home == m.ids[0] && m.ids[0] in S
    requires S[m.ids[0]] == segs[0]
    requires 0 <= m.topsize && segs[0].base <= m.top && m.S == ResizeSpan(L, S, m.top, m.topsize + TOP_FOOT)
    requires m.segs == segs[0 := Span(segs[0].base, m.top + m.topsize + TOP_FOOT - segs[0].base)] && m.Listed()
    requires m.footprint == Total(S) - segs[0].size + m.segs[0].size <= m.maxFootprint && Whole(m.segs[0].size)
    ensures m.Booked()
  {
    ResizeBooked(S, segs, m.ids, m.direct, L, m.top, m.topsize + TOP_FOOT);
    DirectKept(L, 0, m.L, 0, m.direct);
  }

  lemma LongerTop(c: Chunk, p: int, n: nat)
    requires ShapeOk(c, p) && c.kind.Top? && n % 8 == 0
    ensures ShapeOk(c.(size := c.size + n), p) && TOP_FOOT < c.size
  {
  }

  lemma AppendOk(m: MState, tsize: nat)
    requires m.Valid() && m.Owing(tsize) && m.top != 0 && m.segs != [] && Fresh(m.S, m.alien, m.segs[0].End(), tsize)
    ensures m.top in m.L && 0 < m.topsize && CanResize(m.L, m.S, m.top, m.topsize + tsize + TOP_FOOT)
    ensures m.segs[0].base <= m.top && Fresh(m.S, m.alien, Next(m.L, m.top), tsize)
  {
    hide MState.Stored, MState.Indexed, MState.Listed, SegsOk, DirectOk, Total, Tiled, OffAliens, ShapeOk;
    TopHome(m, tsize);
    SegHome(m, tsize, 0);
    StoredTiled(m);
    ChunkAt(m.L, m.S, m.top);
    LongerTop(m.L[m.top], m.top, tsize);
  }

  /** The new space follows the segment of the top chunk, whose record is at `sp`. */
  method Append(m: MState, sp: int, tsize: nat, ghost k: nat)
    requires m.Valid() && m.Owing(tsize) && m.top != 0 && k < |m.segs| && m.segs[k].base <= m.top < m.segs[k].End()
    requires Fresh(m.S, m.alien, m.segs[k].End(), tsize) && Whole(tsize) && Found(m, sp, k)
    modifies m`mem, m`seg, m`segs, m`notes, m`L, m`S, m`staleTails, m`staleHeads, m`staleFeet, m`top, m`topsize
    modifies m`trimCheck
    ensures m.Valid() && m.Booked() && m.topsize == old(m.topsize) + tsize && m.top == old(m.top)
    ensures m.segs == old(m.segs)[0 := Span(old(m.segs)[0].base, old(m.segs)[0].size + tsize)]
    ensures Beside(old(m.L), 0, m.L, 0) && Quiet(old(m.mem), m.mem, m.L)
  {
    hide MState.Stored, Beside, Quiet, MState.Indexed, MState.Listed;
    hide Resize, CanResize, ResizeSpan, Fresh, SegsOk, DirectOk, Total;
    HoldsTop(m, tsize, k);
    TopHome(m, tsize);
    SegHome(m, tsize, 0);
    AppendOk(m, tsize);
    RecordReads(m, k);
    var s := ReadSeg(m.seg, m.mem, sp);
    GrowTop(m, m.topsize + tsize);
    WholeSum(m.segs[k].size, tsize);
    ghost var mem1 := m.mem;
    SetSpan(m, sp, s.base, s.size + tsize, k);
    QuietAgain(old(m.mem), mem1, m.mem, m.L);
    ResizeBooks(m, old(m.L), old(m.S), old(m.segs));
  }

  /** The top chunk and its segment made longer or shorter. */
  method GrowTop(m: MState, size: nat)
    requires m.Stored() && m.Clean() && m.Indexed() && m.Cast({}) && m.top != 0 && m.top in m.L
    requires CanResize(m.L, m.S, m.top, size + TOP_FOOT)
    requires m.topsize < size ==> Fresh(m.S, m.alien, Next(m.L, m.top), size + TOP_FOOT - m.L[m.top].size)
    modifies m`mem, m`L, m`S, m`staleTails, m`staleHeads, m`staleFeet, m`top, m`topsize, m`trimCheck
    ensures m.Valid() && m.topsize == size && m.top == old(m.top) && m.trimCheck == TRIM_THRESHOLD
    ensures m.top in old(m.L) && m.L == Resize(old(m.L), m.top, size + TOP_FOOT)
    ensures m.top in old(m.L) && old(m.L)[m.top].home in old(m.S) && old(m.S)[old(m.L)[m.top].home].base <= m.top
    ensures m.S == ResizeSpan(old(m.L), old(m.S), m.top, size + TOP_FOOT)
    ensures Beside(old(m.L), 0, m.L, 0) && Quiet(old(m.mem), m.mem, m.L)
  {
    hide MState.Stored, Beside, Quiet, MState.Indexed;
    var p := m.top;
    RolesResize(m.L, m.dv, m.dvsize, p, m.topsize, size);
    assert RoleOk(m.L, m.dv, p, {}, p);
    GhostResize(m, p, size + TOP_FOOT);
    InitTop(m, p, size);
  }

  // ---- a segment extended at its front

  /** `nb` bytes handed out at the front of `n` new bytes, the rest still to be freed. */
  function Fronted(L: Chunks, S: Spans, h: nat, n: nat, nb: nat): Chunks
    requires h in S && S[h].base in L && nb <= n
  {
    Cut(Prepend(L, S, h, n), S[h].base - n, nb, Live)
  }

  ghost predicate CanFront(L: Chunks, S: Spans, h: nat, n: nat, nb: nat) {
    CanPrepend(L, S, h, n) && nb % 8 == 0 && MIN_CHUNK <= nb && nb + MIN_CHUNK <= n
  }

  lemma FrontCut(L: Chunks, S: Spans, h: nat, n: nat, nb: nat)
    requires CanFront(L, S, h, n, nb)
    ensures CanCut(Prepend(L, S, h, n), PrependSpan(S, h, n), S[h].base - n, nb, Live)
    ensures Prepend(L, S, h, n)[S[h].base - n].kind.Live?
    ensures var p, q, M := S[h].base - n, S[h].base - n + nb, Fronted(L, S, h, n, nb);
            && p !in L && q !in L && p in M && M[p] == Chunk(nb, 0, Live, h) && q in M
            && M[q] == Chunk(n - nb, nb, Live, h)
            && Pin(M, q) && Pin(M, p) && p > 0
            && (forall b {:trigger b in M} :: b in M <==> b in L || b == p || b == q)
            && (forall b {:trigger b in L} :: b in L ==>
                    M[b].size == L[b].size && M[b].kind == L[b].kind && M[b].home == L[b].home
                        && M[b].flag == L[b].flag)
  {
    var b := S[h].base;
    PrependFresh(L, S, h, n);
    PrependTiled(L, S, h, n);
    ChunkAt(L, S, b);
    CutFresh(Prepend(L, S, h, n), PrependSpan(S, h, n), b - n, nb, Live);
  }

  lemma FrontRoles(L: Chunks, S: Spans, h: nat, n: nat, nb: nat, dv: int, dvsize: int, top: int, topsize: int)
    requires CanFront(L, S, h, n, nb) && Roles(L, dv, dvsize, top, topsize, {}) && top != 0
    ensures Roles(Fronted(L, S, h, n, nb), dv, dvsize, top, topsize, {}) && dv != S[h].base - n + nb
  {
    FrontCut(L, S, h, n, nb);
    var M := Fronted(L, S, h, n, nb);
    assert RoleOk(L, dv, top, {}, top);
    assert dv in L ==> RoleOk(L, dv, top, {}, dv);
    forall q {:trigger RoleOk(M, dv, top, {}, q)} | q in M ensures RoleOk(M, dv, top, {}, q) {
      assert q in L ==> RoleOk(L, dv, top, {}, q);
    }
  }

  /** The front chunk is the one live chunk added, once the rest is freed. */
  lemma FrontAdded(L: Chunks, S: Spans, h: nat, n: nat, nb: nat, M: Chunks)
    requires CanFront(L, S, h, n, nb) && Beside(Fronted(L, S, h, n, nb), S[h].base - n + nb, M, 0) && 0 !in M
    ensures Added(L, M, S[h].base - n) && S[h].base - n in M && M[S[h].base - n].size == nb
    ensures M[S[h].base - n].kind.Live? && LiveWithin(L, Fronted(L, S, h, n, nb))
  {
    FrontCut(L, S, h, n, nb);
  }

  /** New memory in front of a segment: the request is served from it, the rest is joined to the
      first chunk of the old segment. */
  method PrependChunk(m: MState, ghost h: nat, tbase: int, tsize: nat, nb: nat)
    requires m.Valid() && CanFront(m.L, m.S, h, tsize, nb) && m.S[h].base == tbase + tsize && m.top != 0
    requires Fresh(m.S, m.alien, tbase, tsize) && m.leastAddr <= tbase
    modifies m`mem, m`smallmap, m`treemap, m`L, m`S, m`staleTails, m`rings, m`tries, m`staleHeads, m`staleFeet, m`dv
    modifies m`dvsize, m`top, m`topsize
    ensures m.Valid() && m.S == PrependSpan(old(m.S), h, tsize) && m.top + m.topsize == old(m.top + m.topsize)
    ensures m.top != 0
    ensures Added(old(m.L), m.L, tbase) && m.L[tbase].size == nb && m.L[tbase].kind.Live?
    ensures Quiet(old(m.mem), m.mem, old(m.L))
  {
    hide MState.Stored, Beside, Quiet, MState.Indexed, Cut, Prepend, LiveWithin, Added, Fresh, RingsStored, Closed;
    hide Landed, SameRecords, PrependSpan;
    var q := tbase + nb;
    FrontCut(m.L, m.S, h, tsize, nb);
    FrontRoles(m.L, m.S, h, tsize, nb, m.dv, m.dvsize, m.top, m.topsize);
    GhostPrepend(m, h, tsize);
    GhostCut(m, tbase, nb, Live);
    ghost var L2 := m.L;
    assert m.staleFeet == {} && m.staleTails == {};
    PutHead(m, tbase, nb + 2 + 1);
    ghost var mem2 := m.mem;
    var large, grown := Forward(m, q, tsize - nb, tbase + tsize);
    FrontAdded(old(m.L), old(m.S), h, tsize, nb, m.L);
    QuietWithin(old(m.mem), mem2, old(m.L), L2);
    QuietAdded(mem2, m.mem, old(m.L), m.L, tbase);
    QuietAgain(old(m.mem), mem2, m.mem, old(m.L));
  }

  lemma QuietAdded(mem: Words, mem': Words, L: Chunks, M: Chunks, p: int)
    requires Quiet(mem, mem', M) && Added(L, M, p)
    ensures Quiet(mem, mem', L)
  {
    QuietWithin(mem, mem', L, M);
  }

  lemma QuietAgain(mem: Words, mem': Words, mem'': Words, L: Chunks)
    requires Quiet(mem, mem', L) && Quiet(mem', mem'', L)
    ensures Quiet(mem, mem'', L)
  {
  }
}
