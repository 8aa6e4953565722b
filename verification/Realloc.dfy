/** `try_realloc_chunk` and `dlrealloc`: a chunk made larger or smaller. */
module Realloc {
  import opened Blocks
  import opened Calloc
  import opened Client
  import opened Dlfree
  import opened Dlmalloc
  import opened Free
  import opened Growth
  import opened Layout
  import opened Malloc
  import opened MallocState
  import opened Memory
  import opened Mremap
  import opened Segments
  import opened Sizes
  import opened SysMalloc
  import opened Words

  // ---- the boundary between a chunk and the top chunk moved

  function ShiftTop(L: Chunks, p: int, nb: nat): Chunks
    requires p in L && Next(L, p) in L && nb <= L[p].size + L[Next(L, p)].size
  {
    var n := Next(L, p);
    (L - {n})[p := L[p].(size := nb, flag := false)][p + nb := Chunk(L[p].size + L[n].size - nb, nb, Top, L[p].home)]
  }

  ghost predicate CanShift(L: Chunks, S: Spans, p: int, nb: nat) {
    && Tiled(L, S) && p in L && L[p].kind.Live? && Next(L, p) in L && L[Next(L, p)].kind.Top?
    && L[p].size < nb && nb % 8 == 0 && TOP_FOOT < L[p].size + L[Next(L, p)].size - nb
  }

  lemma ShiftFresh(L: Chunks, S: Spans, p: int, nb: nat)
    requires CanShift(L, S, p, nb)
    ensures p + nb !in L && p + nb > p && L[Next(L, p)].prv == L[p].size && L[Next(L, p)].home == L[p].home
  {
    NextAt(L, S, p);
    var n := Next(L, p);
    ChunkAt(L, S, n);
    assert p + nb in L ==> ChunkOk(L, S, p + nb);
    assert p + nb in L ==> Apart(L, n, p + nb);
  }

  lemma ShiftPlace(L: Chunks, S: Spans, p: int, nb: nat, q: int)
    requires CanShift(L, S, p, nb) && q in ShiftTop(L, p, nb)
    ensures ChunkOk(ShiftTop(L, p, nb), S, q) && Guarded(ShiftTop(L, p, nb), q)
  {
    ShiftFresh(L, S, p, nb);
    NextAt(L, S, p);
    ChunkAt(L, S, p);
    ChunkAt(L, S, Next(L, p));
    if q != p + nb {
      ChunkAt(L, S, q);
      assert q != p && q != Next(L, p) ==> Apart(L, q, Next(L, p));
    }
  }

  lemma ShiftTiled(L: Chunks, S: Spans, p: int, nb: nat)
    requires CanShift(L, S, p, nb)
    ensures Tiled(ShiftTop(L, p, nb), S)
  {
    var M, n := ShiftTop(L, p, nb), Next(L, p);
    ShiftFresh(L, S, p, nb);
    ChunkAt(L, S, n);
    ChunkAt(L, S, p);
    forall h {:trigger SpanOk(M, S, h)} | h in S ensures SpanOk(M, S, h) {
      assert SpanOk(L, S, h);
    }
    forall q {:trigger ChunkOk(M, S, q)} | q in M ensures ChunkOk(M, S, q) {
      ShiftPlace(L, S, p, nb, q);
    }
    forall q {:trigger Guarded(M, q)} | q in M ensures Guarded(M, q) {
      ShiftPlace(L, S, p, nb, q);
    }
    forall q, t {:trigger Apart(M, q, t)} | q in M && t in M && q != t ensures Apart(M, q, t) {
      var r := p + nb;
      assert q != r && t != r ==> Apart(L, q, t);
      assert q != p && q != r ==> Apart(L, q, p) && Apart(L, q, n);
      assert t != p && t != r ==> Apart(L, t, p) && Apart(L, t, n);
    }
  }

  lemma ShiftRetags(L: Chunks, S: Spans, p: int, nb: nat)
    requires CanShift(L, S, p, nb)
    ensures Retags(L, ShiftTop(L, p, nb), {p, p + nb}, {}) && SameBinned(L, ShiftTop(L, p, nb))
  {
    var M := ShiftTop(L, p, nb);
    ShiftFresh(L, S, p, nb);
    NextAt(L, S, p);
    forall q {:trigger HeadKept(L, M, q)} | q in M && q !in {p, p + nb} ensures HeadKept(L, M, q) {
      ChunkAt(L, S, q);
      assert q != Next(L, p) && q != p ==> Apart(L, q, Next(L, p));
    }
    forall q {:trigger FootKept(L, M, q)} | q in M ensures FootKept(L, M, q) {
      if q != p + nb {
        ChunkAt(L, S, q);
        assert q != Next(L, p) && q != p ==> Apart(L, q, Next(L, p));
      }
    }
  }

  lemma ShiftTails(mem: Words, L: Chunks, S: Spans, T: set<int>, p: int, nb: nat, notes: Notes)
    requires CanShift(L, S, p, nb) && Tailed(mem, L, T, notes) && Next(L, p) !in T
    ensures Tailed(mem, ShiftTop(L, p, nb), T, notes)
  {
    var M, n := ShiftTop(L, p, nb), Next(L, p);
    ShiftFresh(L, S, p, nb);
    forall q {:trigger TailOk(mem, M, q, notes)} | q in M && q !in T ensures TailOk(mem, M, q, notes) {
      if Last(M[q].kind) {
        var q' := if q == p + nb then n else q;
        assert TailOk(mem, L, q', notes);
        TailMoves(mem, L, q', M, q, notes);
      }
    }
  }

  lemma ShiftRoles(L: Chunks, S: Spans, dv: int, dvsize: int, top: int, topsize: int, p: int, nb: nat)
    requires CanShift(L, S, p, nb) && Roles(L, dv, dvsize, top, topsize, {}) && top == Next(L, p)
    ensures Roles(ShiftTop(L, p, nb), dv, dvsize, p + nb, L[p].size + topsize - nb, {})
    ensures Beside(L, p, ShiftTop(L, p, nb), p)
  {
    var M := ShiftTop(L, p, nb);
    ShiftFresh(L, S, p, nb);
    ChunkAt(L, S, p);
    assert RoleOk(L, dv, top, {}, top);
    assert dv in L ==> RoleOk(L, dv, top, {}, dv);
    forall q {:trigger RoleOk(M, dv, p + nb, {}, q)} | q in M ensures RoleOk(M, dv, p + nb, {}, q) {
      assert q in L ==> RoleOk(L, dv, top, {}, q);
    }
  }

  // ---- a live chunk split, and its end freed

  /** The chunk at `p` is still live, now of `nb` bytes; nothing else changed among the live chunks. */
  ghost predicate Resized(L: Chunks, M: Chunks, p: int, nb: int) {
    && Beside(L, p, M, p) && p in M && M[p].kind.Live? && nb <= M[p].size < nb + MIN_CHUNK
    && (M[p].flag ==> p in L && L[p].flag)
  }

  lemma CutHeads(L: Chunks, S: Spans, p: int, n: nat)
    requires CanCut(L, S, p, n, Live) && L[p].kind.Live?
    ensures var M := Cut(L, p, n, Live);
            && p in M && p + n in M && M[p].kind.Live? && M[p + n].kind.Live? && M[p].size == n
            && M[p + n].size == L[p].size - n
            && Pin(M, p + n) && Pin(M, p) == Pin(L, p) && !M[p].flag && !M[p + n].flag
    ensures !Last(L[p].kind) && Next(L, p) in L
  {
    CutFresh(L, S, p, n, Live);
    CutPin(L, S, p, n, Live, p);
    ChunkAt(L, S, p);
  }

  lemma SplitBeside(L: Chunks, S: Spans, p: int, n: nat, M: Chunks)
    requires CanCut(L, S, p, n, Live) && L[p].kind.Live? && Beside(Cut(L, p, n, Live), p + n, M, 0) && 0 !in M
    ensures Resized(L, M, p, n) && M[p].size == n
  {
    var C := Cut(L, p, n, Live);
    CutFresh(L, S, p, n, Live);
    CutHeads(L, S, p, n);
    forall b {:trigger b in L} | b in L && Owned(L[b].kind) && b != p
      ensures b in M && M[b].kind == L[b].kind && M[b].size == L[b].size && M[b].home == L[b].home
      ensures M[b].flag == L[b].flag
    {
      assert b in C;
    }
    forall b {:trigger b in M} | b in M && Owned(M[b].kind) && b != p ensures b in L && Owned(L[b].kind) {
      assert b in C;
    }
  }

  lemma CutRolesLive(L: Chunks, S: Spans, dv: int, dvsize: int, top: int, topsize: int, p: int, n: nat)
    requires CanCut(L, S, p, n, Live) && L[p].kind.Live? && Roles(L, dv, dvsize, top, topsize, {})
    ensures Roles(Cut(L, p, n, Live), dv, dvsize, top, topsize, {})
  {
    ChunkAt(L, S, p);
    assert RoleOk(L, dv, top, {}, p);
    RolesCut(L, S, dv, dvsize, top, topsize, {}, p, n);
  }

  /** `set_inuse` of the two parts */
  method SplitLive(m: MState, p: int, nb: int, rsize: int)
    requires m.Valid() && p in m.L && m.L[p].kind.Live? && m.L[p].size == nb + rsize && nb % 8 == 0 && MIN_CHUNK <= nb
    requires MIN_CHUNK <= rsize
    modifies m`mem, m`L, m`staleHeads, m`staleFeet
    ensures m.Valid() && CanCut(old(m.L), m.S, p, nb, Live) && m.L == Cut(old(m.L), p, nb, Live)
    ensures Quiet(old(m.mem), m.mem, m.L)
    ensures p + nb in m.L && m.L[p + nb].kind.Live? && m.L[p + nb].size == rsize
  {
    hide Tagged, Bins, RingsStored, TriesStored, OffState, LeastOk, Cut, Quiet, MState.Indexed;
    ChunkAt(m.L, m.S, p);
    CutHeads(m.L, m.S, p, nb);
    CutRolesLive(m.L, m.S, m.dv, m.dvsize, m.top, m.topsize, p, nb);
    HeadBits(m.L, m.S, p);
    HeadAt(m, p);
    var w := At(m.mem, p + HEAD);
    GhostCut(m, p, nb, Live);
    PutHead(m, p, w % 2 + nb + 2);
    ghost var mem1 := m.mem;
    PutHead(m, p + nb, rsize + 2 + 1);
    QuietAgain(old(m.mem), mem1, m.mem, m.L);
    assert m.staleFeet == {} && m.staleTails == {};
  }

  lemma ResizedBooks(m: MState, L: Chunks, p: int, nb: int, top: int, topsize: int)
    requires SegsOk(m.S, m.segs, m.ids, m.direct) && DirectOk(L, m.direct) && Resized(L, m.L, p, nb) && m.Cast({})
    requires TopEnds(m.segs, top, topsize) && top > 0 && topsize >= 0 && m.top + m.topsize == top + topsize
    requires m.Listed()
    requires m.footprint == Total(m.S) <= m.maxFootprint
    ensures m.Booked()
  {
    DirectKept(L, p, m.L, p, m.direct);
  }

  /** The tail of a live chunk is freed. */
  method FreeTail(m: MState, p: int, nb: int, rsize: int)
    requires m.Valid() && p in m.L && m.L[p].kind.Live? && m.L[p].size == nb + rsize && nb % 8 == 0
    requires MIN_CHUNK <= nb && MIN_CHUNK <= rsize
    modifies m`mem, m`smallmap, m`treemap, m`L, m`rings, m`tries, m`staleHeads, m`staleFeet, m`dv, m`dvsize, m`top
    modifies m`topsize
    ensures m.Valid() && Resized(old(m.L), m.L, p, nb) && m.L[p].size == nb && Quiet(old(m.mem), m.mem, m.L)
    ensures m.top + m.topsize == old(m.top + m.topsize)
  {
    hide MState.Stored, MState.Indexed, Cut, Quiet, Beside, Resized, Roles, CanCut, Disposed;
    SplitLive(m, p, nb, rsize);
    ghost var L1, mem1 := m.L, m.mem;
    var large, grown := Dispose(m, p + nb, rsize);
    NullIsFree(m);
    SplitBeside(old(m.L), m.S, p, nb, m.L);
    QuietTrans(old(m.mem), L1, mem1, p + nb, m.L, m.mem);
  }

  lemma TopSomewhere(m: MState, p: int)
    requires m.Valid() && p in m.L
    ensures m.top > 0 && m.topsize > 0
  {
    ChunkAt(m.L, m.S, m.top);
    TopPositive(m);
  }

  method SplitOff(m: MState, p: int, nb: int, rsize: int)
    requires m.Valid() && m.Booked() && p in m.L && m.L[p].kind.Live? && m.L[p].size == nb + rsize && nb % 8 == 0
    requires MIN_CHUNK <= nb && MIN_CHUNK <= rsize
    modifies m`mem, m`smallmap, m`treemap, m`L, m`rings, m`tries, m`staleHeads, m`staleFeet, m`dv, m`dvsize, m`top
    modifies m`topsize
    ensures m.Valid() && m.Booked() && Resized(old(m.L), m.L, p, nb) && m.L[p].size == nb
    ensures Quiet(old(m.mem), m.mem, m.L)
  {
    hide MState.Stored, MState.Indexed, MState.Listed, Quiet, Resized, SegsOk, DirectOk, Total, TopEnds, Roles;
    TopSomewhere(m, p);
    FreeTail(m, p, nb, rsize);
    ResizedBooks(m, old(m.L), p, nb, old(m.top), old(m.topsize));
  }

  // ---- growing into the top chunk

  /** Old payloads are kept when the payload at `p` only grows. */
  lemma QuietGrown(mem: Words, mem': Words, L: Chunks, M: Chunks, p: int)
    requires Quiet(mem, mem', M) && Beside(L, p, M, p) && p in M && M[p].kind.Live?
    requires (p in L ==> L[p].kind.Live? && L[p].size <= M[p].size)
    ensures Quiet(mem, mem', L)
  {
    forall b, a {:trigger InPayload(L, b, a)} | InPayload(L, b, a) ensures At(mem', a) == At(mem, a) {
      assert InPayload(M, b, a);
    }
  }

  /** `set_inuse` of the chunk and the head of the new top chunk */
  method ShiftHeads(m: MState, p: int, nb: nat, newtopsize: int)
    requires m.Valid() && p in m.L && m.L[p].kind.Live? && Next(m.L, p) == m.top
    requires nb % 8 == 0 && m.L[p].size < nb && 0 < newtopsize == m.L[p].size + m.topsize - nb
    modifies m`mem, m`L, m`S, m`staleTails, m`staleHeads, m`staleFeet
    ensures m.Stored() && m.Clean() && m.S == old(m.S) && Next(old(m.L), p) in old(m.L)
    ensures m.L == ShiftTop(old(m.L), p, nb)
    ensures Quiet(old(m.mem), m.mem, m.L)
  {
    hide Tiled, Tagged, Bins, RingsStored, TriesStored, OffState, LeastOk, Quiet, Beside, ShiftTop, Roles;
    hide MState.Indexed;
    ShiftOk(m, p, nb);
    HeadBits(m.L, m.S, p);
    HeadAt(m, p);
    var w := At(m.mem, p + HEAD);
    assert m.staleFeet + {} == {};
    ShiftTails(m.mem, m.L, m.S, m.staleTails, p, nb, m.notes);
    Relocate(m, ShiftTop(m.L, p, nb), m.S, {p, p + nb}, {}, m.staleTails);
    PutHead(m, p, w % 2 + nb + 2);
    ghost var mem1 := m.mem;
    PutHead(m, p + nb, newtopsize + 1);
    QuietAgain(old(m.mem), mem1, m.mem, m.L);
  }

  method IntoTopSpace(m: MState, p: int, oldsize: int, nb: nat)
    requires m.Valid() && m.Booked() && p in m.L && m.L[p].kind.Live? && m.L[p].size == oldsize && p + oldsize == m.top
    requires nb % 8 == 0 && oldsize < nb < oldsize + m.topsize
    modifies m`mem, m`L, m`S, m`staleTails, m`staleHeads, m`staleFeet, m`top, m`topsize
    ensures m.Valid() && m.Booked() && m.S == old(m.S) && Resized(old(m.L), m.L, p, nb)
    ensures Quiet(old(m.mem), m.mem, old(m.L))
  {
    hide Tiled, Tagged, Bins, RingsStored, TriesStored, OffState, LeastOk, Quiet, Beside, SegsOk, DirectOk, Total;
    hide ShiftTop, MState.Indexed, CanShift, Retags, SameBinned, Pin, MState.Listed;
    var newtopsize := oldsize + m.topsize - nb;
    TopPositive(m);
    ChunkAt(m.L, m.S, m.top);
    ShiftOk(m, p, nb);
    ShiftHeads(m, p, nb, newtopsize);
    m.top := p + nb;
    m.topsize := newtopsize;
    QuietGrown(old(m.mem), m.mem, old(m.L), m.L, p);
    ResizedBooks(m, old(m.L), p, nb, old(m.top), old(m.topsize));
  }

  lemma ShiftOk(m: MState, p: int, nb: nat)
    requires m.Valid() && p in m.L && m.L[p].kind.Live? && Next(m.L, p) == m.top && nb % 8 == 0
    requires m.L[p].size < nb < m.L[p].size + m.topsize
    ensures CanShift(m.L, m.S, p, nb) && Tiled(ShiftTop(m.L, p, nb), m.S) && p > 0
    ensures Retags(m.L, ShiftTop(m.L, p, nb), {p, p + nb}, {}) && SameBinned(m.L, ShiftTop(m.L, p, nb))
    ensures Roles(ShiftTop(m.L, p, nb), m.dv, m.dvsize, p + nb, m.L[p].size + m.topsize - nb, {})
    ensures Beside(m.L, p, ShiftTop(m.L, p, nb), p)
    ensures var M := ShiftTop(m.L, p, nb);
            && p in M && M[p].kind.Live? && M[p].size == nb && Pin(M, p) == Pin(m.L, p) && !M[p].flag
            && p + nb in M && M[p + nb].kind.Top? && M[p + nb].size == m.L[p].size + m.topsize - nb + TOP_FOOT
            && Pin(M, p + nb) && !M[p + nb].flag
  {
    NextAt(m.L, m.S, p);
    assert RoleOk(m.L, m.dv, m.top, {}, m.top);
    ShiftFresh(m.L, m.S, p, nb);
    ShiftTiled(m.L, m.S, p, nb);
    ShiftRetags(m.L, m.S, p, nb);
    ShiftRoles(m.L, m.S, m.dv, m.dvsize, m.top, m.topsize, p, nb);
    ChunkAt(m.L, m.S, p);
  }

  // ---- growing into a free chunk

  /** The chunk at `p` takes over the chunk behind it. */
  function Absorbed(L: Chunks, p: int): Chunks
    requires p in L && Next(L, p) in L
  {
    Join(Reuse(L, Next(L, p), Live), p)
  }

  lemma AbsorbOk(L: Chunks, S: Spans, p: int)
    requires Tiled(L, S) && p in L && L[p].kind.Live? && Next(L, p) in L && InHand(L[Next(L, p)].kind)
    ensures var n, M := Next(L, p), Absorbed(L, p); var e := Next(L, n);
            && Linked(L, n, e) && InUse(L[e].kind) && e in M && Pin(M, e) && M[e] == L[e].(prv := M[e].prv)
            && p in M && M[p].kind.Live? && M[p].size == L[p].size + L[n].size && Pin(M, p) == Pin(L, p) && !M[p].flag
            && n !in M && e != p && e != n
            && Beside(L, p, M, p)
    ensures CanJoin(Reuse(L, Next(L, p), Live), S, p)
  {
    hide Linked;
    var n := Next(L, p);
    NextAt(L, S, p);
    NextAt(L, S, n);
    ReuseTiled(L, S, n, Live);
    var K := Reuse(L, n, Live);
    NextAt(K, S, p);
    NextAt(K, S, n);
    JoinPin(K, S, p, p);
    JoinPin(K, S, p, Next(L, n));
    ReusePin(L, S, n, p);
  }

  lemma ReusePin(L: Chunks, S: Spans, n: int, p: int)
    requires Tiled(L, S) && n in L && p in L && !Last(L[n].kind) && Next(L, p) == n
    ensures Pin(Reuse(L, n, Live), p) == Pin(L, p)
  {
    ChunkAt(L, S, p);
    ChunkAt(L, S, n);
  }

  lemma AbsorbRoles(L: Chunks, S: Spans, dv: int, dvsize: int, top: int, topsize: int, p: int)
    requires Tiled(L, S) && p in L && L[p].kind.Live? && Next(L, p) in L && InHand(L[Next(L, p)].kind)
    requires if Next(L, p) == dv then Roles(L, dv, dvsize, top, topsize, {})
            else Roles(L, dv, dvsize, top, topsize, {Next(L, p)})
    ensures var d := Next(L, p) == dv;
            Roles(Absorbed(L, p), if d then 0 else dv, if d then 0 else dvsize, top, topsize, {})
  {
    var n := Next(L, p);
    var loose := if n == dv then {} else {n};
    AbsorbOk(L, S, p);
    NextAt(L, S, n);
    ChunkAt(L, S, p);
    assert RoleOk(L, dv, top, loose, n) && RoleOk(L, dv, top, loose, p);
    RolesReuse(L, dv, dvsize, top, topsize, loose, n, Live);
    assert loose - {n} == {};
    var K := Reuse(L, n, Live);
    var d, ds := if dv == n then 0 else dv, if dv == n then 0 else dvsize;
    assert RoleOk(K, d, top, {}, n) && RoleOk(K, d, top, {}, p);
    RolesJoin(K, S, d, ds, top, topsize, {}, p);
    assert {} - {p} == {};
  }

  ghost method GhostAbsorb(m: MState, p: int)
    requires m.Stored() && m.Clean() && p in m.L && m.L[p].kind.Live? && Next(m.L, p) in m.L
    requires InHand(m.L[Next(m.L, p)].kind)
    modifies m`L, m`staleHeads, m`staleFeet
    ensures m.Stored() && m.L == Absorbed(old(m.L), p)
    ensures var e := Next(old(m.L), Next(old(m.L), p)); m.staleHeads == {p, e} && m.staleFeet == {e}
  {
    hide Tagged, Bins, RingsStored, TriesStored, OffState, LeastOk, Join;
    var n := Next(m.L, p);
    AbsorbOk(m.L, m.S, p);
    GhostReuse(m, n, Live);
    GhostJoin(m, p);
    ForgetHead(m, n);
  }

  /** The head of a chunk that is no more is not stale. */
  ghost method ForgetHead(m: MState, q: int)
    requires m.Stored() && q !in m.L
    modifies m`staleHeads
    ensures m.Stored() && m.staleHeads == old(m.staleHeads) - {q}
  {
    m.staleHeads := m.staleHeads - {q};
    forall x {:trigger HeadOk(m.mem, m.L, x)} | x in m.L && x !in m.staleHeads ensures HeadOk(m.mem, m.L, x) {
    }
  }

  /** `set_inuse` of a chunk together with the free chunk behind it */
  method Absorb(m: MState, p: int, newsize: int)
    requires m.Stored() && m.Clean() && p in m.L && m.L[p].kind.Live? && Next(m.L, p) in m.L
    requires InHand(m.L[Next(m.L, p)].kind)
    requires newsize == m.L[p].size + m.L[Next(m.L, p)].size
    modifies m`mem, m`L, m`staleHeads, m`staleFeet
    ensures m.Stored() && m.Clean() && m.L == Absorbed(old(m.L), p) && Quiet(old(m.mem), m.mem, m.L)
  {
    hide Tiled, Tagged, Bins, RingsStored, TriesStored, OffState, LeastOk, Quiet, Absorbed, Beside;
    AbsorbOk(m.L, m.S, p);
    var e := p + newsize;
    HeadBits(m.L, m.S, p);
    HeadAt(m, p);
    HeadBits(m.L, m.S, e);
    HeadAt(m, e);
    NextPin(m.L, m.S, Next(m.L, p));
    var w, x := At(m.mem, p + HEAD), At(m.mem, e + HEAD);
    GhostAbsorb(m, p);
    PutHead(m, p, w % 2 + newsize + 2);
    ghost var mem1 := m.mem;
    PutHead(m, e, x - x % 2 + 1);
    QuietAgain(old(m.mem), mem1, m.mem, m.L);
    DropFoot(m, e);
  }

  lemma NextPin(L: Chunks, S: Spans, n: int)
    requires Tiled(L, S) && n in L && InHand(L[n].kind)
    ensures Next(L, n) in L && !Pin(L, Next(L, n)) && !L[Next(L, n)].kind.Mapped?
  {
    NextAt(L, S, n);
  }

  // ---- growing into the designated victim

  /** The layout after the chunk at `p` has taken the front of the designated victim. */
  function DvShifted(L: Chunks, p: int, nb: nat): Chunks
    requires p in L && Next(L, p) in L && p in Absorbed(L, p) && nb <= Absorbed(L, p)[p].size
  {
    Reuse(Cut(Absorbed(L, p), p, nb, Live), p + nb, Victim)
  }

  ghost predicate CanDvShift(L: Chunks, S: Spans, p: int, nb: nat) {
    && Tiled(L, S) && p in L && L[p].kind.Live? && Next(L, p) in L && L[Next(L, p)].kind.Victim?
    && nb % 8 == 0 && MIN_CHUNK <= nb && nb + MIN_CHUNK <= L[p].size + L[Next(L, p)].size
  }

  lemma DvShiftOk(L: Chunks, S: Spans, p: int, nb: nat)
    requires CanDvShift(L, S, p, nb)
    ensures var n := Next(L, p); var e, A := Next(L, n), Absorbed(L, p);
            && p in A && A[p].size == L[p].size + L[n].size && A[p].kind.Live? && CanCut(A, S, p, nb, Live) && e in L
            && InUse(L[e].kind)
            && var M := DvShifted(L, p, nb); var dsize := A[p].size - nb;
            && p in M && M[p].kind.Live? && M[p].size == nb && Pin(M, p) == Pin(L, p) && Beside(L, p, M, p)
            && !M[p].flag
            && p + nb in M && M[p + nb].kind.Victim? && M[p + nb].size == dsize && Pin(M, p + nb) && !M[p + nb].flag
            && e in M && M[e].prv == dsize && !Pin(M, e) && M[e] == L[e].(prv := dsize) && e != p && e != p + nb
  {
    var n := Next(L, p);
    var e, A := Next(L, n), Absorbed(L, p);
    AbsorbOk(L, S, p);
    ReuseTiled(L, S, n, Live);
    JoinTiled(Reuse(L, n, Live), S, p);
    ChunkAt(A, S, p);
    CutFresh(A, S, p, nb, Live);
    CutHeads(A, S, p, nb);
    CutPin(A, S, p, nb, Live, p);
    NextPin(L, S, n);
    assert Cut(A, p, nb, Live)[e] == A[e].(prv := A[p].size - nb);
    DvShiftBeside(L, S, p, nb);
  }

  lemma DvShiftBeside(L: Chunks, S: Spans, p: int, nb: nat)
    requires p in L && Next(L, p) in L && Beside(L, p, Absorbed(L, p), p) && CanCut(Absorbed(L, p), S, p, nb, Live)
    requires Absorbed(L, p)[p].kind.Live?
    ensures Beside(L, p, DvShifted(L, p, nb), p)
  {
    var A := Absorbed(L, p);
    var M := DvShifted(L, p, nb);
    CutFresh(A, S, p, nb, Live);
    CutHeads(A, S, p, nb);
    forall b {:trigger b in L} | b in L && Owned(L[b].kind) && b != p
      ensures b in M && M[b].kind == L[b].kind && M[b].size == L[b].size && M[b].home == L[b].home
      ensures M[b].flag == L[b].flag
    {
      assert b in A;
    }
    forall b {:trigger b in M} | b in M && Owned(M[b].kind) && b != p ensures b in L && Owned(L[b].kind) {
      assert b in A;
    }
  }

  lemma DvShiftRoles(L: Chunks, S: Spans, dvsize: int, top: int, topsize: int, p: int, nb: nat)
    requires CanDvShift(L, S, p, nb) && Roles(L, Next(L, p), dvsize, top, topsize, {})
    ensures p in Absorbed(L, p) && nb <= Absorbed(L, p)[p].size
    ensures Roles(DvShifted(L, p, nb), p + nb, L[p].size + dvsize - nb, top, topsize, {})
  {
    DvShiftOk(L, S, p, nb);
    AbsorbRoles(L, S, Next(L, p), dvsize, top, topsize, p);
    var A := Absorbed(L, p);
    CutRolesLive(A, S, 0, 0, top, topsize, p, nb);
    var C := Cut(A, p, nb, Live);
    CutTiled(A, S, p, nb, Live);
    CutHeads(A, S, p, nb);
    ChunkAt(C, S, p + nb);
    RolesReuse(C, 0, 0, top, topsize, {}, p + nb, Victim);
    assert {} - {p + nb} == {};
  }

  ghost method GhostDvShift(m: MState, p: int, nb: nat)
    requires m.Stored() && m.Clean() && CanDvShift(m.L, m.S, p, nb)
    modifies m`L, m`staleHeads, m`staleFeet
    ensures p in Absorbed(old(m.L), p) && nb <= Absorbed(old(m.L), p)[p].size
    ensures m.Stored() && m.L == DvShifted(old(m.L), p, nb)
    ensures var e := Next(old(m.L), Next(old(m.L), p)); m.staleHeads <= {p, p + nb, e} && m.staleFeet <= {e}
  {
    hide Tagged, Bins, RingsStored, TriesStored, OffState, LeastOk, Join, Cut, Beside;
    DvShiftOk(m.L, m.S, p, nb);
    var A := Absorbed(m.L, p);
    GhostAbsorb(m, p);
    CutHeads(A, m.S, p, nb);
    GhostCut(m, p, nb, Live);
    GhostReuse(m, p + nb, Victim);
  }

  /** The designated victim split behind a growing chunk. */
  method DvShiftHeads(m: MState, p: int, nb: nat, dsize: int)
    requires m.Stored() && m.Clean() && CanDvShift(m.L, m.S, p, nb)
    requires dsize == m.L[p].size + m.L[Next(m.L, p)].size - nb
    modifies m`mem, m`L, m`staleHeads, m`staleFeet
    ensures p in Absorbed(old(m.L), p) && nb <= Absorbed(old(m.L), p)[p].size
    ensures m.Stored() && m.Clean() && m.L == DvShifted(old(m.L), p, nb) && Quiet(old(m.mem), m.mem, m.L)
  {
    hide MState.Stored, Absorbed, Cut, Beside, Quiet, DvShifted;
    DvShiftOk(m.L, m.S, p, nb);
    var r, n := p + nb, p + nb + dsize;
    HeadBits(m.L, m.S, p);
    HeadAt(m, p);
    HeadBits(m.L, m.S, n);
    HeadAt(m, n);
    var w, x := At(m.mem, p + HEAD), At(m.mem, n + HEAD);
    NextPin(m.L, m.S, Next(m.L, p));
    GhostDvShift(m, p, nb);
    PutHead(m, p, w % 2 + nb + 2);
    ghost var mem1 := m.mem;
    PutHead(m, r, dsize + 1);
    ghost var mem2 := m.mem;
    PutFoot(m, n, dsize);
    ghost var mem3 := m.mem;
    PutHead(m, n, x - x % 2);
    QuietAgain(old(m.mem), mem1, mem2, m.L);
    QuietAgain(old(m.mem), mem2, mem3, m.L);
    QuietAgain(old(m.mem), mem3, m.mem, m.L);
  }

  method ShiftDv(m: MState, p: int, nb: nat, dsize: nat)
    requires m.Valid() && p in m.L && m.L[p].kind.Live? && Next(m.L, p) == m.dv && nb % 8 == 0 && m.L[p].size < nb
    requires MIN_CHUNK <= dsize == m.L[p].size + m.dvsize - nb
    modifies m`mem, m`L, m`staleHeads, m`staleFeet, m`dv, m`dvsize
    ensures m.Valid() && Resized(old(m.L), m.L, p, nb) && Quiet(old(m.mem), m.mem, m.L)
  {
    hide Tiled, Tagged, Bins, RingsStored, TriesStored, OffState, LeastOk, Tailed, Foreign, Quiet, Beside, Roles, Pin;
    hide MState.Indexed, Absorbed, DvShifted, Cut;
    DvBehind(m, p);
    DvShiftOk(m.L, m.S, p, nb);
    DvShiftRoles(m.L, m.S, m.dvsize, m.top, m.topsize, p, nb);
    DvShiftHeads(m, p, nb, dsize);
    m.dvsize := dsize;
    m.dv := p + nb;
  }

  method AbsorbDv(m: MState, p: int, nb: nat, newsize: nat)
    requires m.Valid() && p in m.L && m.L[p].kind.Live? && Next(m.L, p) == m.dv && m.L[p].size < nb
    requires nb <= newsize == m.L[p].size + m.dvsize < nb + MIN_CHUNK
    modifies m`mem, m`L, m`staleHeads, m`staleFeet, m`dv, m`dvsize
    ensures m.Valid() && Resized(old(m.L), m.L, p, nb) && Quiet(old(m.mem), m.mem, m.L)
  {
    hide Tiled, Tagged, Bins, RingsStored, TriesStored, OffState, LeastOk, Tailed, Foreign, Quiet, Beside, Roles, Pin;
    hide MState.Indexed, Absorbed;
    DvBehind(m, p);
    AbsorbOk(m.L, m.S, p);
    AbsorbRoles(m.L, m.S, m.dv, m.dvsize, m.top, m.topsize, p);
    Absorb(m, p, newsize);
    m.dvsize := 0;
    m.dv := 0;
  }

  /** The designated victim behind the chunk gives up its front, or all of it. */
  method IntoDvSpace(m: MState, p: int, oldsize: int, nb: nat)
    requires m.Valid() && m.Booked() && p in m.L && m.L[p].kind.Live? && m.L[p].size == oldsize && p + oldsize == m.dv
    requires nb % 8 == 0 && oldsize < nb <= oldsize + m.dvsize
    modifies m`mem, m`L, m`staleHeads, m`staleFeet, m`dv, m`dvsize
    ensures m.Valid() && m.Booked() && Resized(old(m.L), m.L, p, nb) && Quiet(old(m.mem), m.mem, old(m.L))
  {
    hide MState.Stored, MState.Indexed, Quiet, Beside, SegsOk, DirectOk, Total, TopEnds, Roles, MState.Listed;
    var dsize := oldsize + m.dvsize - nb;
    if dsize >= MIN_CHUNK {
      ShiftDv(m, p, nb, dsize);
    } else {
      AbsorbDv(m, p, nb, oldsize + m.dvsize);
    }
    QuietGrown(old(m.mem), m.mem, old(m.L), m.L, p);
    SameTopBooks(m, old(m.L), p, nb);
  }

  lemma DvBehind(m: MState, p: int)
    requires m.Valid() && p in m.L && m.L[p].kind.Live? && Next(m.L, p) == m.dv
    ensures m.dv in m.L && m.L[m.dv].kind.Victim? && m.L[m.dv].size == m.dvsize && MIN_CHUNK <= m.L[p].size
  {
    NextAt(m.L, m.S, p);
    assert RoleOk(m.L, m.dv, m.top, {}, m.dv);
  }

  lemma SameTopBooks(m: MState, L: Chunks, p: int, nb: int)
    requires SegsOk(m.S, m.segs, m.ids, m.direct) && DirectOk(L, m.direct) && Resized(L, m.L, p, nb)
    requires TopEnds(m.segs, m.top, m.topsize) && m.Listed()
    requires m.footprint == Total(m.S) <= m.maxFootprint
    ensures m.Booked()
  {
    DirectKept(L, p, m.L, p, m.direct);
  }

  // ---- growing into a binned chunk

  /** The binned chunk behind `p`, in hand. */
  method UnlinkNext(m: MState, p: int, next: int, nextsize: int)
    requires m.Valid() && p in m.L && m.L[p].kind.Live? && Next(m.L, p) == next && next in m.L && m.L[next].kind.Binned?
    requires m.L[next].size == nextsize
    modifies m`mem, m`smallmap, m`treemap, m`L, m`rings, m`tries
    ensures m.Stored() && m.Indexed() && m.Cast({next}) && p in m.L && m.L[p] == old(m.L)[p] && next in m.L
    ensures m.L[next] == old(m.L)[next].(kind := Loose)
    ensures SameLive(old(m.L), m.L) && Quiet(old(m.mem), m.mem, m.L) && next != m.dv && Beside(old(m.L), p, m.L, p)
  {
    hide MState.Indexed, Tiled, Tagged, Bins, RingsStored, TriesStored, OffState, LeastOk, Tailed, Foreign, Roles;
    hide Quiet, Beside, SameLive, Reuse;
    NextLoose(m.L, m.S, m.dv, m.dvsize, m.top, m.topsize, p, next);
    UnlinkAny(m, next, nextsize);
  }

  /** The whole binned chunk taken over. */
  method TakeOver(m: MState, p: int, next: int, nextsize: int, newsize: int)
    requires m.Valid() && m.Booked() && p in m.L && m.L[p].kind.Live? && Next(m.L, p) == next && next in m.L
    requires m.L[next].kind.Binned?
    requires nextsize == m.L[next].size && newsize == m.L[p].size + nextsize
    modifies m`mem, m`smallmap, m`treemap, m`L, m`rings, m`tries, m`staleHeads, m`staleFeet
    ensures m.Valid() && m.Booked() && Beside(old(m.L), p, m.L, p) && p in m.L && m.L[p].kind.Live?
    ensures m.L[p].size == newsize && !m.L[p].flag
    ensures Quiet(old(m.mem), m.mem, old(m.L))
  {
    hide Tiled, Tagged, Bins, RingsStored, TriesStored, OffState, LeastOk, Quiet, Beside, SegsOk, DirectOk, Total;
    hide SameLive, MState.Indexed, Absorbed, Pin, MState.Listed;
    UnlinkNext(m, p, next, nextsize);
    ghost var L1, mem1 := m.L, m.mem;
    AbsorbOk(m.L, m.S, p);
    AbsorbRoles(m.L, m.S, m.dv, m.dvsize, m.top, m.topsize, p);
    Absorb(m, p, newsize);
    BesideTrans(old(m.L), p, L1, p, m.L, p);
    QuietSame(old(m.mem), mem1, old(m.L), L1);
    QuietGrown(mem1, m.mem, old(m.L), m.L, p);
    QuietAgain(old(m.mem), mem1, m.mem, old(m.L));
    TakenBooks(m, old(m.L), p);
  }

  lemma TakenBooks(m: MState, L: Chunks, p: int)
    requires SegsOk(m.S, m.segs, m.ids, m.direct) && DirectOk(L, m.direct) && Beside(L, p, m.L, p) && p in m.L
    requires m.L[p].kind.Live?
    requires TopEnds(m.segs, m.top, m.topsize) && m.footprint == Total(m.S) <= m.maxFootprint && m.Listed()
    ensures m.Booked()
  {
    DirectKept(L, p, m.L, p, m.direct);
  }

  method IntoNextSpace(m: MState, p: int, oldsize: int, next: int, nextsize: int, nb: nat)
    requires m.Valid() && m.Booked() && p in m.L && m.L[p].kind.Live? && m.L[p].size == oldsize && next == p + oldsize
    requires next in m.L && m.L[next].kind.Binned? && m.L[next].size == nextsize && nb % 8 == 0
    requires MIN_CHUNK <= oldsize < nb <= oldsize + nextsize
    modifies m`mem, m`smallmap, m`treemap, m`L, m`rings, m`tries, m`staleHeads, m`staleFeet, m`dv, m`dvsize, m`top
    modifies m`topsize
    ensures m.Valid() && m.Booked() && Resized(old(m.L), m.L, p, nb) && Quiet(old(m.mem), m.mem, old(m.L))
  {
    hide MState.Stored, Quiet, Beside, SegsOk, DirectOk, Total, TopEnds, MState.Indexed, MState.Listed;
    var rsize := oldsize + nextsize - nb;
    TakeOver(m, p, next, nextsize, oldsize + nextsize);
    if rsize >= MIN_CHUNK {
      ghost var L1, mem1 := m.L, m.mem;
      SplitOff(m, p, nb, rsize);
      BesideTrans(old(m.L), p, L1, p, m.L, p);
      QuietGrown(mem1, m.mem, old(m.L), m.L, p);
      QuietAgain(old(m.mem), mem1, m.mem, old(m.L));
    }
  }

  // ---- try_realloc_chunk

  /** Words that belong to the same client chunk before and after are the same. */
  ghost predicate Kept(mem: Words, mem': Words, L: Chunks, M: Chunks) {
    forall b, a {:trigger InPayload(L, b, a)} :: InPayload(L, b, a) && InPayload(M, b, a) ==> At(mem', a) == At(mem, a)
  }

  lemma QuietKeeps(mem: Words, mem': Words, L: Chunks, M: Chunks)
    requires Quiet(mem, mem', L) || Quiet(mem, mem', M)
    ensures Kept(mem, mem', L, M)
  {
    forall b, a {:trigger InPayload(L, b, a)} | InPayload(L, b, a) && InPayload(M, b, a)
      ensures At(mem', a) == At(mem, a)
    {
    }
  }

  /** The chunk at `p` can serve `nb` bytes without a new one: it is long enough, or together with the free
      space behind it, or the system resizes its region. */
  predicate FitsInPlace(L: Chunks, p: int, nb: nat, remap: Offer)
    requires p in L
  {
    var n := Next(L, p);
    if L[p].kind.Mapped? then Remaps(L[p], nb, remap)
    else nb <= L[p].size || (n in L && RoomIn(L[n], L[p].size, nb))
  }

  predicate RoomIn(c: Chunk, oldsize: int, nb: nat) {
    if c.kind.Top? then nb < oldsize + c.size - TOP_FOOT
    else (c.kind.Binned? || c.kind.Victim?) && nb <= oldsize + c.size
  }

  /** Resizing a chunk of a segment in place. */
  method ResizeLive(m: MState, p: int, nb: nat) returns (done: bool)
    requires m.Valid() && m.Booked() && p in m.L && m.L[p].kind.Live? && nb % 8 == 0 && MIN_CHUNK <= nb < SPACE
    modifies m
    ensures m.alien == old(m.alien)
    ensures m.Valid() && m.Booked() && m.S == old(m.S) && Kept(old(m.mem), m.mem, old(m.L), m.L)
    ensures if done then Resized(old(m.L), m.L, p, nb) else unchanged(m)
    ensures done <==> FitsInPlace(old(m.L), p, nb, Refused)
  {
    hide Tiled, Tagged, Bins, RingsStored, TriesStored, OffState, LeastOk, Quiet, Beside, SegsOk, DirectOk, Total, Kept;
    hide Roles, TopEnds, MState.Indexed, MState.Listed;
    BesideSame(m.L, m.mem, p);
    ChunkAt(m.L, m.S, p);
    LiveWords(m, p);
    var oldsize := ChunkSize(At(m.mem, p + HEAD));
    var next := p + oldsize;
    done := true;
    if oldsize >= nb {
      if oldsize - nb >= MIN_CHUNK {
        SplitOff(m, p, nb, oldsize - nb);
      }
    } else if next == m.top {
      done := oldsize + m.topsize > nb;
      if done {
        IntoTopSpace(m, p, oldsize, nb);
      }
    } else if next == m.dv {
      done := oldsize + m.dvsize >= nb;
      if done {
        IntoDvSpace(m, p, oldsize, nb);
      }
    } else if !CInUse(At(m.mem, next + HEAD)) {
      var nextsize := ChunkSize(At(m.mem, next + HEAD));
      done := oldsize + nextsize >= nb;
      if done {
        IntoNextSpace(m, p, oldsize, next, nextsize, nb);
      }
    } else {
      done := false;
    }
    QuietKeeps(old(m.mem), m.mem, old(m.L), m.L);
  }

  /** What the words of a live chunk and of the chunk behind it say. */
  lemma LiveWords(m: MState, p: int)
    requires m.Valid() && p in m.L && m.L[p].kind.Live?
    ensures var s := ChunkSize(At(m.mem, p + HEAD)); var n := p + s;
            && s == m.L[p].size && n in m.L && OkAddress(m, p) && OkAddress(m, n) && PInUse(At(m.mem, n + HEAD))
            && (CInUse(At(m.mem, n + HEAD)) <==> InUse(m.L[n].kind))
            && (n != m.top && n != m.dv && !InUse(m.L[n].kind) ==>
                    m.L[n].kind.Binned? && ChunkSize(At(m.mem, n + HEAD)) == m.L[n].size)
            && (n == m.top <==> m.L[n].kind.Top?) && (n == m.top ==> m.L[n].size == m.topsize + TOP_FOOT)
            && (n == m.dv <==> m.L[n].kind.Victim?) && (n == m.dv ==> m.L[n].size == m.dvsize)
  {
    NextAt(m.L, m.S, p);
    var n := Next(m.L, p);
    HeadBits(m.L, m.S, p);
    HeadAt(m, p);
    HeadBits(m.L, m.S, n);
    HeadAt(m, n);
    ChunkAddressOk(m, p);
    ChunkAddressOk(m, n);
    assert RoleOk(m.L, m.dv, m.top, {}, n);
  }

  /** The offset of a mapped chunk at `p` overruns the region that the system resizes. */
  predicate Overrunning(L: Chunks, p: int, nb: nat, remap: Offer) {
    p in L && L[p].kind.Mapped? && Overruns(L[p], nb, remap)
  }

  /** `try_realloc_chunk` */
  method TryRealloc(m: MState, p: int, nb: nat, remap: Offer) returns (newp: int)
    requires m.Valid() && m.Booked() && p in m.L && Owned(m.L[p].kind) && nb % 8 == 0 && MIN_CHUNK <= nb < SPACE
    requires RemapOk(m.S, m.alien, m.L[p].home, remap, RegionSize(nb))
    modifies m
    ensures m.alien == old(m.alien)
    ensures newp == 0 ==> unchanged(m)
    ensures 0 <= newp && (newp != 0 <==> FitsInPlace(old(m.L), p, nb, remap))
    ensures newp != 0 && old(m.L)[p].kind.Live? ==> newp == p && Resized(old(m.L), m.L, p, nb)
    ensures newp != 0 && old(m.L)[p].kind.Mapped? ==> newp == NewPlace(old(m.L)[p], p, nb, remap)
    ensures !Overrunning(old(m.L), p, nb, remap) ==> m.Valid() && m.Booked()
    ensures !Overrunning(old(m.L), p, nb, remap) && newp != 0 ==> Rehomed(old(m.mem), m.mem, old(m.L), m.L, p, newp, nb)
  {
    hide MState.Stored, Quiet, Beside, SegsOk, DirectOk, Total, Kept, MState.Indexed;
    hide MState.Booked, ChunkSize, RoomIn, Rehomed, RemapOk, Remaps, Overruns, RegionSize;
    OwnedWords(m, p);
    var w := At(m.mem, p + HEAD);
    ghost var next := p + ChunkSize(w);
    assert OkAddress(m, p) && IsInUse(w) && OkNext(p, next) && PInUse(At(m.mem, next + HEAD));   // RTCHECK
    if !PInUse(w) && !CInUse(w) {
      newp := MmapResize(m, p, nb, remap);
    } else {
      ChunkFacts(m, p);
      var done := ResizeLive(m, p, nb);
      newp := if done then p else 0;
      if done {
        HeldInPlace(old(m.mem), m.mem, old(m.L), m.L, p, nb);
      }
    }
  }

  // ---- dlrealloc

  /** `memcpy(dst, src, n)` */
  function Copied(mem: Words, dst: int, src: int, n: nat): Words {
    if n == 0 then mem else Copied(mem, dst, src, n - 1)[dst + n - 1 := At(mem, src + n - 1)]
  }

  lemma {:induction false} CopiedAt(mem: Words, dst: int, src: int, n: nat, a: int)
    ensures At(Copied(mem, dst, src, n), a) == if dst <= a < dst + n then At(mem, src + (a - dst)) else At(mem, a)
  {
    if n > 0 {
      CopiedAt(mem, dst, src, n - 1, a);
    }
  }

  /** Resizing in place keeps the contents. */
  lemma HeldInPlace(mem: Words, mem': Words, L: Chunks, M: Chunks, p: int, nb: nat)
    requires p in L && L[p].kind.Live? && Resized(L, M, p, nb) && Kept(mem, mem', L, M)
    ensures Rehomed(mem, mem', L, M, p, p, nb)
  {
    var n := Min(Usable(L[p]), Usable(M[p]));
    forall i {:trigger SameCell(mem, mem', p, p, i)} | 0 <= i < n ensures SameCell(mem, mem', p, p, i) {
      assert InPayload(L, p, p + FD + i) && InPayload(M, p, p + FD + i);
    }
    forall b, a {:trigger InPayload(L, b, a)} | InPayload(L, b, a) && b != p ensures At(mem', a) == At(mem, a) {
      assert InPayload(M, b, a);
    }
  }

  /** The contents copied into a new chunk. */
  method CopyTo(m: MState, q: int, p: int, n: nat)
    requires m.Valid() && m.Booked() && p in m.L && Owned(m.L[p].kind) && q in m.L && Owned(m.L[q].kind) && p != q
    requires n <= Usable(m.L[p]) && n <= Usable(m.L[q])
    modifies m`mem
    ensures m.Valid() && m.Booked() && Moved(old(m.mem), m.mem, p, q, n) && OthersKept(old(m.mem), m.mem, m.L, q)
  {
    hide MState.Stored, Copied, MState.Indexed;
    ghost var c := Copied(m.mem, q + FD, p + FD, n);
    forall a {:trigger At(c, a)}
      ensures At(c, a) == if q + FD <= a < q + FD + n then At(m.mem, p + a - q) else At(m.mem, a)
    {
      CopiedAt(m.mem, q + FD, p + FD, n, a);
    }
    Store(m, q, Copied(m.mem, q + FD, p + FD, n));
  }

  lemma MovedOn(mem: Words, mem1: Words, mem2: Words, L: Chunks, p: int, q: int, n: int)
    requires Quiet(mem, mem1, L) && Moved(mem1, mem2, p, q, n) && p in L && Owned(L[p].kind) && n <= Usable(L[p])
    ensures Moved(mem, mem2, p, q, n)
  {
    forall i {:trigger SameCell(mem, mem2, p, q, i)} | 0 <= i < n ensures SameCell(mem, mem2, p, q, i) {
      assert SameCell(mem1, mem2, p, q, i) && InPayload(L, p, p + FD + i);
    }
  }

  lemma MovedStays(mem: Words, mem1: Words, mem2: Words, M: Chunks, p: int, q: int, n: int)
    requires Moved(mem, mem1, p, q, n) && Quiet(mem1, mem2, M) && q in M && Owned(M[q].kind) && n <= Usable(M[q])
    ensures Moved(mem, mem2, p, q, n)
  {
    forall i {:trigger SameCell(mem, mem2, p, q, i)} | 0 <= i < n ensures SameCell(mem, mem2, p, q, i) {
      assert SameCell(mem, mem1, p, q, i) && InPayload(M, q, q + FD + i);
    }
  }

  lemma BesideMoved(L: Chunks, L1: Chunks, M: Chunks, p: int, q: int)
    requires Added(L, L1, q) && Beside(L1, p, M, 0) && p in L && Owned(L[p].kind) && 0 !in M && 0 !in L
    ensures Beside(L, p, M, q) && q in M && M[q].kind == L1[q].kind && M[q].size == L1[q].size
    ensures M[q].flag == L1[q].flag
  {
  }

  lemma OthersMoved(mem: Words, mem1: Words, mem2: Words, mem3: Words, L: Chunks, L1: Chunks, M: Chunks, p: int, q: int)
    requires Quiet(mem, mem1, L) && Added(L, L1, q) && OthersKept(mem1, mem2, L1, q) && Quiet(mem2, mem3, M)
    requires Beside(L, p, M, q) || LiveWithin(L, M)
    ensures OthersKept(mem, mem3, L, p)
  {
    forall b, a {:trigger InPayload(L, b, a)} | InPayload(L, b, a) && b != p ensures At(mem3, a) == At(mem, a) {
      assert InPayload(L1, b, a) && InPayload(M, b, a);
    }
  }

  /** A chunk `q` with room for `bytes` in place of `p`: the contents are kept, up to the shorter of the two
      sizes, and nothing else that belongs to the client changes.  If the system refused to take back the
      old chunk, that is still there. */
  ghost predicate Reallocated(mem: Words, mem': Words, L: Chunks, M: Chunks, p: int, q: int, bytes: nat,
      refused: bool) {
    && q in M && Owned(M[q].kind) && bytes <= Usable(M[q]) && OthersKept(mem, mem', L, p)
    && (p in L ==> Moved(mem, mem', p, q, Min(Usable(L[p]), bytes))) && (M[q].flag ==> p in L && L[p].flag)
    && (Beside(L, p, M, q) || (refused && Beside(L, 0, M, q) && Quiet(mem, mem', L) && !M[q].flag))
  }

  /** The system did not take back a mapped chunk. */
  predicate Refusing(L: Chunks, p: int, a: Answers) { p in L && L[p].kind.Mapped? && !a.unmapped }

  lemma RehomedServes(mem: Words, mem': Words, L: Chunks, M: Chunks, p: int, q: int, bytes: nat, refused: bool)
    requires bytes < MAX_REQUEST && Rehomed(mem, mem', L, M, p, q, Request2Size(bytes))
    ensures Reallocated(mem, mem', L, M, p, q, bytes, refused)
  {
    PaddingHolds(bytes);
    forall i {:trigger SameCell(mem, mem', p, q, i)} | 0 <= i < Min(Usable(L[p]), bytes)
      ensures SameCell(mem, mem', p, q, i)
    {
    }
  }

  /** The answers of the system that a call of `dlrealloc` may get. */
  ghost predicate ReallocOffers(L: Chunks, S: Spans, alien: Words, p: int, bytes: nat, direct: Offer, offer: Offer,
      remap: Offer) {
    && OfferOk(S, alien, direct, RegionSize(PaddedSize(bytes)))
    && OfferOk(S, alien, offer, SegmentSize(PaddedSize(bytes)))
    && (p in L ==> RemapOk(S, alien, L[p].home, remap, RegionSize(PaddedSize(bytes))))
  }

  /** A request to resize the chunk at `p` for which its offset overruns the resized region. */
  predicate Spoils(L: Chunks, p: int, bytes: nat, remap: Offer) {
    bytes < MAX_REQUEST && Overrunning(L, p, Request2Size(bytes), remap)
  }

  /** The chunk can be resized without a new chunk: where it is, or with its region. */
  predicate InPlace(L: Chunks, p: int, bytes: nat, remap: Offer) {
    p in L && bytes < MAX_REQUEST && FitsInPlace(L, p, Request2Size(bytes), remap)
  }

  /** The resized chunk: a chunk of a segment where it was, a mapped one with its region, and a new chunk only if
      neither is possible. */
  ghost predicate Settled(mem: Words, mem': Words, L: Chunks, M: Chunks, p: int, q: int, bytes: nat, remap: Offer) {
    if InPlace(L, p, bytes, remap) then
      var nb := Request2Size(bytes);
      if L[p].kind.Mapped? then q == NewPlace(L[p], p, nb, remap) && Rehomed(mem, mem', L, M, p, q, nb)
      else q == p && Resized(L, M, p, nb)
    else !(q in L && Owned(L[q].kind))
  }

  /** `dlrealloc`: null leaves everything as it was.  All is well unless the offset of a mapped chunk overruns
      the region that the system resizes. */
  method DlRealloc(m: MState, p: int, bytes: nat, direct: Offer, offer: Offer, remap: Offer, a: Answers)
    returns (q: int)
    requires m.Valid() && m.Booked() && bytes < SPACE && (p != 0 ==> p in m.L && Owned(m.L[p].kind))
    requires ReallocOffers(m.L, m.S, m.alien, p, bytes, direct, offer, remap)
    modifies m
    ensures m.alien == old(m.alien)
    ensures 0 <= q && (q != 0 <==> old(CanRealloc(m, p, bytes, direct, offer, remap)))
    ensures q == 0 ==> unchanged(m)
    ensures !Spoils(old(m.L), p, bytes, remap) ==> m.Valid() && m.Booked()
    ensures !Spoils(old(m.L), p, bytes, remap) && q != 0 ==>
              Reallocated(old(m.mem), m.mem, old(m.L), m.L, p, q, bytes, Refusing(old(m.L), p, a))
    ensures !Spoils(old(m.L), p, bytes, remap) && q != 0 ==>
              Settled(old(m.mem), m.mem, old(m.L), m.L, p, q, bytes, remap)
  {
    hide MState.Stored, Quiet, Beside, SegsOk, DirectOk, Total, TopEnds, MState.Indexed, Rehomed, Reallocated, Added;
    NullIsFree(m);
    hide Kept, Moved, OthersKept, RegionSize, SegmentSize, ZeroPayload, Fresh, RemapOk, Overruns, Remaps, HeapServes;
    hide DirectServes, SegmentServes, FitsInPlace, MState.Listed, Resized, NewPlace;
    if p == 0 {
      q := Allocate(m, bytes, direct, offer);
      if q != 0 {
        NewlyServed(old(m.L), m.L, q, bytes, old(m.mem), m.mem);
        NewChunk(old(m.L), m.L, q, bytes);
      }
    } else if bytes >= MAX_REQUEST {
      q := 0;
    } else {
      var nb := Request2Size(bytes);
      PaddingHolds(bytes);
      q := TryRealloc(m, p, nb, remap);
      if q == 0 {
        q := Relocated(m, p, bytes, direct, offer, a);
      } else if !Overrunning(old(m.L), p, nb, remap) {
        RehomedServes(old(m.mem), m.mem, old(m.L), m.L, p, q, bytes, Refusing(old(m.L), p, a));
      }
    }
  }

  lemma NewChunk(L: Chunks, M: Chunks, q: int, bytes: nat)
    requires Served(L, M, q, bytes)
    ensures !(q in L && Owned(L[q].kind))
  {
  }

  lemma NewlyServed(L: Chunks, M: Chunks, q: int, bytes: nat, mem: Words, mem': Words)
    requires Served(L, M, q, bytes) && Quiet(mem, mem', L) && 0 !in L
    ensures Reallocated(mem, mem', L, M, 0, q, bytes, false)
  {
  }

  /** A request to resize can be met: without a new chunk, or with one. */
  ghost predicate CanRealloc(m: MState, p: int, bytes: nat, direct: Offer, offer: Offer, remap: Offer)
    requires p != 0 ==> p in m.L
    reads m
  {
    || CanServe(m, bytes, direct, offer)
    || (p != 0 && bytes < MAX_REQUEST && FitsInPlace(m.L, p, Request2Size(bytes), remap))
  }

  /** A new chunk, the contents copied, the old chunk freed. */
  method Relocated(m: MState, p: int, bytes: nat, direct: Offer, offer: Offer, a: Answers) returns (q: int)
    requires m.Valid() && m.Booked() && bytes < MAX_REQUEST && p in m.L && Owned(m.L[p].kind)
    requires OfferOk(m.S, m.alien, direct, RegionSize(PaddedSize(bytes)))
    requires OfferOk(m.S, m.alien, offer, SegmentSize(PaddedSize(bytes)))
    modifies m
    ensures m.alien == old(m.alien)
    ensures m.Valid() && m.Booked()
    ensures 0 <= q && (q != 0 <==> old(CanServe(m, bytes, direct, offer)))
    ensures q == 0 ==> unchanged(m)
    ensures q != 0 ==> Reallocated(old(m.mem), m.mem, old(m.L), m.L, p, q, bytes, Refusing(old(m.L), p, a))
    ensures q != 0 ==> !(q in old(m.L) && Owned(old(m.L)[q].kind))
  {
    hide MState.Stored, Quiet, Beside, SegsOk, DirectOk, Total, TopEnds, MState.Indexed, Added, Kept, Moved, OthersKept;
    hide PaddedSize, RegionSize, SegmentSize, ZeroPayload, Fresh, CanServe, MState.Listed;
    ghost var L0, mem0 := m.L, m.mem;
    q := Allocate(m, bytes, direct, offer);
    if q != 0 {
      ghost var L1, mem1 := m.L, m.mem;
      AddedKeeps(L0, L1, p, q, bytes);
      NewChunk(L0, L1, q, bytes);
      var oc := Capacity(m, p);
      var n := Min(oc, bytes);
      CopyTo(m, q, p, n);
      ghost var mem2 := m.mem;
      MovedOn(mem0, mem1, mem2, L0, p, q, n);
      DlFree(m, p, a);
      if L0[p].kind.Mapped? && !a.unmapped {
        StillThere(mem0, mem1, mem2, L0, L1, p, q);
      } else {
        FreedOld(mem0, mem1, mem2, m.mem, L0, L1, m.L, p, q, n);
      }
    }
  }

  lemma AddedKeeps(L: Chunks, M: Chunks, p: int, q: int, bytes: nat)
    requires Served(L, M, q, bytes) && p in L && Owned(L[p].kind)
    ensures p in M && M[p] == L[p].(prv := M[p].prv) && q in M && Owned(M[q].kind) && !M[q].flag && p != q
    ensures bytes <= Usable(M[q])
  {
  }

  /** `chunksize(p) - overhead_for(p)` */
  method Capacity(m: MState, p: int) returns (oc: int)
    requires m.Valid() && p in m.L && Owned(m.L[p].kind)
    ensures oc == Usable(m.L[p]) >= 0
  {
    OwnedWords(m, p);
    ChunkAt(m.L, m.S, p);
    var w := At(m.mem, p + HEAD);
    oc := ChunkSize(w) - if !PInUse(w) && !CInUse(w) then 16 else OVERHEAD;
  }

  lemma StillThere(mem: Words, mem1: Words, mem2: Words, L: Chunks, M: Chunks, p: int, q: int)
    requires Quiet(mem, mem1, L) && Added(L, M, q) && OthersKept(mem1, mem2, M, q) && 0 !in L
    ensures Beside(L, 0, M, q) && OthersKept(mem, mem2, L, p) && Quiet(mem, mem2, L)
  {
    OthersMoved(mem, mem1, mem2, mem2, L, M, M, p, q);
    OthersMoved(mem, mem1, mem2, mem2, L, M, M, 0, q);
  }

  lemma FreedOld(mem: Words, mem1: Words, mem2: Words, mem3: Words, L: Chunks, L1: Chunks, M: Chunks, p: int, q: int,
                 n: int)
    requires Quiet(mem, mem1, L) && Added(L, L1, q) && OthersKept(mem1, mem2, L1, q) && Quiet(mem2, mem3, M)
    requires Removed(L1, M, p)
    requires p in L && Owned(L[p].kind) && 0 !in L && 0 !in M && Moved(mem, mem2, p, q, n) && n <= Usable(L1[q])
    ensures Beside(L, p, M, q) && q in M && M[q].kind == L1[q].kind && M[q].size == L1[q].size
    ensures M[q].flag == L1[q].flag
    ensures OthersKept(mem, mem3, L, p) && Moved(mem, mem3, p, q, n)
  {
    BesideMoved(L, L1, M, p, q);
    OthersMoved(mem, mem1, mem2, mem3, L, L1, M, p, q);
    MovedStays(mem, mem2, mem3, M, p, q, n);
  }
}
