/** `dlfree` and `dispose_chunk`: giving a chunk back, joined with its free neighbours. */
module Free {
  import opened Blocks
  import opened Layout
  import opened Malloc
  import opened MallocState
  import opened Memory
  import opened Sizes
  import opened Words

  /** The live chunks of `L` other than `p` are the live chunks of `M` other than `q`. */
  ghost predicate Beside(L: Chunks, p: int, M: Chunks, q: int) {
    && (forall b {:trigger b in L} :: b in L && Owned(L[b].kind) && b != p ==>
          b in M && b != q && M[b].kind == L[b].kind && M[b].size == L[b].size && M[b].home == L[b].home
              && M[b].flag == L[b].flag)
    && (forall b {:trigger b in M} :: b in M && Owned(M[b].kind) && b != q ==> b in L && b != p && Owned(L[b].kind))
  }

  /** The segment records are the same. */
  ghost predicate SameRecords(L: Chunks, M: Chunks) {
    && (forall b {:trigger b in L} :: b in L && L[b].kind.Record? ==>
            b in M && M[b].kind.Record? && M[b].size == L[b].size)
    && (forall b {:trigger b in M} :: b in M && M[b].kind.Record? ==> b in L && L[b].kind.Record?)
  }

  lemma RecordsTrans(L: Chunks, M: Chunks, N: Chunks)
    requires SameRecords(L, M) && SameRecords(M, N)
    ensures SameRecords(L, N)
  {
  }

  lemma BesideTrans(L: Chunks, p: int, M: Chunks, q: int, N: Chunks, r: int)
    requires Beside(L, p, M, q) && Beside(M, q, N, r)
    ensures Beside(L, p, N, r)
  {
  }

  lemma BesideReuse(L: Chunks, p: int, k: Kind)
    requires p in L && 0 !in L && !Owned(k)
    ensures Beside(L, p, Reuse(L, p, k), 0)
    ensures !Owned(L[p].kind) ==> Beside(L, 0, Reuse(L, p, k), 0)
    ensures !Last(L[p].kind) && !Last(k) ==> SameRecords(L, Reuse(L, p, k))
  {
  }

  lemma BesideKeep(L: Chunks, p: int, k: Kind, x: int)
    requires p in L && !Owned(L[p].kind) && !Owned(k)
    ensures Beside(L, x, Reuse(L, p, k), x)
    ensures !Last(L[p].kind) && !Last(k) ==> SameRecords(L, Reuse(L, p, k))
  {
  }

  lemma QuietTrans(mem: Words, L: Chunks, mem': Words, p: int, M: Chunks, mem'': Words)
    requires Quiet(mem, mem', L) && Quiet(mem', mem'', M) && Beside(L, p, M, 0) && 0 !in M
    ensures Quiet(mem, mem'', M)
  {
    forall b, a {:trigger InPayload(M, b, a)} | InPayload(M, b, a) ensures At(mem'', a) == At(mem, a) {
      assert InPayload(L, b, a);
    }
  }

  /** `p` is free again, and nothing else changed among the live chunks. */
  ghost predicate Removed(L: Chunks, M: Chunks, p: int) { Beside(L, p, M, 0) }

  /** `set_free_with_pinuse` */
  method SetFree(m: MState, p: int, s: int, next: int)
    requires m.Stored() && m.staleHeads <= {p} && m.staleFeet == {} && m.staleTails == {} && p in m.L
    requires m.L[p].kind.Live? && m.L[p].size == s
    requires Pin(m.L, p) && next == p + s && next in m.L && InUse(m.L[next].kind)
    modifies m`mem, m`L, m`staleHeads, m`staleFeet
    ensures m.Stored() && m.Clean() && m.L == Reuse(old(m.L), p, Loose) && Quiet(old(m.mem), m.mem, m.L)
  {
    hide Tagged, Bins, RingsStored, TriesStored, OffState, LeastOk, Tailed, Foreign;
    NextAt(m.L, m.S, p);
    HeadAt(m, next);
    var w := At(m.mem, next + HEAD);
    GhostReuse(m, p, Loose);
    PutHead(m, next, w - w % 2);
    PutHead(m, p, s + 1);
    PutFoot(m, next, s);
  }

  /** The chunk at `p` joined with the free chunk behind it, both written as one. */
  method SetJoined(m: MState, p: int, s: int)
    requires m.Stored() && m.staleHeads <= {p} && m.staleFeet == {} && m.staleTails == {} && p in m.L
    requires m.L[p].kind.Live? && Pin(m.L, p)
    requires Next(m.L, p) in m.L && InHand(m.L[Next(m.L, p)].kind) && s == m.L[p].size + m.L[Next(m.L, p)].size
    modifies m`mem, m`L, m`staleHeads, m`staleFeet
    ensures m.Stored() && m.Clean() && m.L == Join(old(m.L), p) && Quiet(old(m.mem), m.mem, m.L)
  {
    ghost var n := Next(m.L, p);
    NextAt(m.L, m.S, p);
    NextAt(m.L, m.S, n);
    GhostJoin(m, p);
    PutHead(m, p, s + 1);
    PutFoot(m, p + s, s);
  }

  /** The chunk at `p` joined with the top chunk behind it. */
  method SetTop(m: MState, p: int, tsize: int)
    requires m.Stored() && m.staleHeads <= {p} && m.staleFeet == {} && m.staleTails == {} && p in m.L
    requires m.L[p].kind.Live? && Pin(m.L, p)
    requires Next(m.L, p) in m.L && m.L[Next(m.L, p)].kind.Top?
    requires tsize + TOP_FOOT == m.L[p].size + m.L[Next(m.L, p)].size
    modifies m`mem, m`L, m`staleHeads, m`staleFeet
    ensures m.Stored() && m.Clean() && m.L == Join(old(m.L), p) && Quiet(old(m.mem), m.mem, m.L)
  {
    NextAt(m.L, m.S, p);
    GhostJoin(m, p);
    PutHead(m, p, tsize + 1);
  }

  lemma BesideJoin(L: Chunks, S: Spans, p: int)
    requires CanJoin(L, S, p) && 0 !in L && !Owned(L[Next(L, p)].kind)
    ensures Beside(L, p, Join(L, p), 0) && (!L[Next(L, p)].kind.Record? ==> SameRecords(L, Join(L, p)))
  {
    NextAt(L, S, p);
  }

  lemma BesideBack(L: Chunks, S: Spans, p: int)
    requires CanJoin(L, S, p) && !Owned(L[p].kind)
    ensures Beside(L, Next(L, p), Join(L, p), p) && (!L[Next(L, p)].kind.Record? ==> SameRecords(L, Join(L, p)))
  {
    NextAt(L, S, p);
  }

  // ---- the layout after a free

  /** Where the free space around the chunk at `p` begins, once that is free. */
  function GapStart(L: Chunks, p: int): int
    requires p in L
  {
    if Pin(L, p) then p else p - L[p].prv
  }

  /** Where it ends. */
  function GapEnd(L: Chunks, p: int): int
    requires p in L
  {
    var n := Next(L, p);
    if n in L && !InUse(L[n].kind) then Next(L, n) else n
  }

  /** What it is used for: the top chunk and the designated victim take in what they meet. */
  function GapKind(L: Chunks, p: int): Kind
    requires p in L
  {
    var n, q := Next(L, p), GapStart(L, p);
    if n in L && L[n].kind.Top? then Top
    else if (n in L && L[n].kind.Victim?) || (q in L && L[q].kind.Victim?) then Victim
    else Binned
  }

  function GapSize(L: Chunks, p: int): int
    requires p in L
  {
    GapEnd(L, p) - GapStart(L, p)
  }

  /** The layout with the chunk at `p` free: one chunk covers the gap, and the rest is as it was. */
  function AfterFree(L: Chunks, p: int): Chunks
    requires p in L
  {
    var q, e, k := GapStart(L, p), GapEnd(L, p), GapKind(L, p);
    if q !in L || e < q then L else
      var M := (map b | b in L && !(q <= b < e) :: L[b])[q := Chunk(e - q, L[q].prv, k, L[q].home)];
      if e in L && !k.Top? then M[e := L[e].(prv := e - q)] else M
  }

  /** The same in the order of `dispose_chunk`, from the chunk at `p` with nothing free before it; `k` is its use
      unless what is behind it decides. */
  ghost function Closed(L: Chunks, p: int, k: Kind): Chunks
    requires p in L
  {
    var n := Next(L, p);
    if n in L && !InUse(L[n].kind) then Reuse(Join(L, p), p, if L[n].kind.Binned? then k else L[n].kind)
    else Reuse(L, p, k)
  }

  /** The only chunks in the range of two neighbours are these two. */
  lemma OnlyTwo(L: Chunks, S: Spans, p: int, b: int)
    requires Tiled(L, S) && p in L && Next(L, p) in L && b in L
    ensures p <= b < p + L[p].size + L[Next(L, p)].size <==> b == p || b == Next(L, p)
    ensures p <= b < Next(L, p) <==> b == p
  {
    var n := Next(L, p);
    ChunkAt(L, S, p);
    ChunkAt(L, S, n);
    ChunkAt(L, S, b);
    assert b != p ==> Apart(L, b, p);
    assert b != n ==> Apart(L, b, n);
  }

  lemma ClosedIsAfter(L: Chunks, S: Spans, p: int)
    requires Tiled(L, S) && p in L && L[p].kind.Live? && Pin(L, p) && !(Next(L, p) in L && L[Next(L, p)].kind.Loose?)
    ensures Closed(L, p, Binned) == AfterFree(L, p)
  {
    hide Tiled, ShapeOk;
    NextAt(L, S, p);
    var n := Next(L, p);
    ChunkAt(L, S, n);
    forall b | b in L
      ensures (p <= b < Next(L, n) <==> b == p || b == n) && (p <= b < n <==> b == p)
    {
      OnlyTwo(L, S, p, b);
    }
  }

  lemma BackParts(L: Chunks, S: Spans, p: int)
    requires Tiled(L, S) && p in L && L[p].kind.Live? && !Pin(L, p)
    ensures var q, n := p - L[p].prv, Next(L, p);
            && Linked(L, q, p) && Linked(L, p, n) && 0 < L[q].size && 0 < L[p].size && 0 < L[n].size
            && (Last(L[n].kind) ==> !L[n].kind.Binned? && !L[n].kind.Victim?)
            && (!Last(L[n].kind) ==> Next(L, n) in L)
            && forall b {:trigger b in L} :: b in L ==>
                    (q <= b < Next(L, n) <==> b == q || b == p || b == n) && (q <= b < n <==> b == q || b == p)
  {
    hide Tiled;
    ChunkAt(L, S, p);
    NextAt(L, S, p);
    var q, n := p - L[p].prv, Next(L, p);
    ChunkAt(L, S, q);
    ChunkAt(L, S, n);
    forall b {:trigger b in L} | b in L
      ensures (q <= b < Next(L, n) <==> b == q || b == p || b == n) && (q <= b < n <==> b == q || b == p)
    {
      OnlyTwo(L, S, q, b);
      OnlyTwo(L, S, p, b);
    }
  }

  /** With a free chunk before it: that is taken in first. */
  lemma BackIsAfter(L: Chunks, S: Spans, p: int)
    requires Tiled(L, S) && p in L && L[p].kind.Live? && !Pin(L, p) && !(Next(L, p) in L && L[Next(L, p)].kind.Loose?)
    ensures var q := p - L[p].prv;
            && q in L && Next(L, q) == p
            && Closed(Join(L, q), q, if L[q].kind.Victim? then Victim else Binned) == AfterFree(L, p)
  {
    hide Tiled, Pin;
    BackParts(L, S, p);
  }

  // ---- consolidating forward

  /** The chunk at `p`, still counted as live, with no free chunk before it.  When it begins with the old
      designated victim, `dv` still points to it. */
  ghost predicate Closing(m: MState, p: int, psize: int)
    reads m
  {
    && m.Stored() && m.Indexed() && m.staleHeads <= {p} && m.staleFeet == {} && m.staleTails == {}
    && p in m.L && m.L[p].kind.Live? && m.L[p].size == psize && Pin(m.L, p)
    && (if m.dv == p then Roles(m.L, 0, 0, m.top, m.topsize, {}) else m.Cast({}))
  }

  lemma TopRoles(L: Chunks, S: Spans, dv: int, dvsize: int, top: int, topsize: int, p: int)
    requires Roles(L, dv, dvsize, top, topsize, {}) && Tiled(L, S) && p in L && L[p].kind.Live? && Pin(L, p)
    requires Next(L, p) == top
    ensures p != 0 && top in L && L[top].kind.Top? && L[top].size == topsize + TOP_FOOT && CanJoin(L, S, p)
    ensures Beside(L, p, Join(L, p), 0)
    ensures SameRecords(L, Join(L, p))
    ensures Roles(Join(L, p), dv, dvsize, p, topsize + L[p].size, {})
  {
    NextAt(L, S, p);
    assert RoleOk(L, dv, top, {}, top) && RoleOk(L, dv, top, {}, p);
    RolesJoin(L, S, dv, dvsize, top, topsize, {}, p);
    BesideJoin(L, S, p);
    assert {} - {p} == {};
  }

  lemma DvRoles(L: Chunks, S: Spans, dv: int, dvsize: int, top: int, topsize: int, p: int)
    requires Roles(L, dv, dvsize, top, topsize, {}) && Tiled(L, S) && p in L && L[p].kind.Live? && Pin(L, p)
    requires Next(L, p) == dv
    ensures dv in L && L[dv].kind.Victim? && CanJoin(L, S, p) && Beside(L, p, Join(L, p), 0)
    ensures SameRecords(L, Join(L, p))
    ensures Roles(Join(L, p), p, dvsize + L[p].size, top, topsize, {})
  {
    NextAt(L, S, p);
    assert RoleOk(L, dv, top, {}, dv) && RoleOk(L, dv, top, {}, p);
    RolesJoin(L, S, dv, dvsize, top, topsize, {}, p);
    BesideJoin(L, S, p);
    assert {} - {p} == {};
  }

  method IntoTop(m: MState, p: int, psize: int, next: int)
    requires Closing(m, p, psize) && next == p + psize && next == m.top
    modifies m`mem, m`L, m`staleHeads, m`staleFeet, m`dv, m`dvsize, m`top, m`topsize
    ensures m.Valid() && Beside(old(m.L), p, m.L, 0) && Quiet(old(m.mem), m.mem, m.L)
    ensures m.top + m.topsize == old(m.top + m.topsize)
    ensures Landed(m.L, p, psize, false, true)
    ensures SameRecords(old(m.L), m.L) && Next(old(m.L), p) in old(m.L) && m.L == Join(old(m.L), p)
  {
    hide Join, Beside, Quiet, Tiled, Tagged, Bins, RingsStored, TriesStored, OffState, LeastOk, CanJoin, Landed;
    hide MState.Indexed, IsSmall, SameRecords, Tailed, Foreign, Roles, Pin;
    ghost var d, ds := if m.dv == p then 0 else m.dv, if m.dv == p then 0 else m.dvsize;
    TopRoles(m.L, m.S, d, ds, m.top, m.topsize, p);
    Positive(m.L, m.S, p);
    Positive(m.L, m.S, m.top);
    var tsize := m.topsize + psize;
    m.topsize := tsize;
    m.top := p;
    SetTop(m, p, tsize);
    if p == m.dv {
      m.dv := 0;
      m.dvsize := 0;
    }
    LandedInTop(m.L, m.dv, m.dvsize, m.top, m.topsize, psize);
  }

  method IntoDv(m: MState, p: int, psize: int, next: int)
    requires Closing(m, p, psize) && next == p + psize && next == m.dv
    modifies m`mem, m`L, m`staleHeads, m`staleFeet, m`dv, m`dvsize
    ensures m.Valid() && Beside(old(m.L), p, m.L, 0) && Quiet(old(m.mem), m.mem, m.L)
    ensures Landed(m.L, p, psize, false, false)
    ensures SameRecords(old(m.L), m.L) && Next(old(m.L), p) in old(m.L) && m.L == Join(old(m.L), p)
  {
    hide Join, Beside, Quiet, Tiled, Tagged, Bins, RingsStored, TriesStored, OffState, LeastOk, CanJoin, Landed;
    hide MState.Indexed, SameRecords;
    Positive(m.L, m.S, p);
    DvRoles(m.L, m.S, m.dv, m.dvsize, m.top, m.topsize, p);
    var dsize := m.dvsize + psize;
    m.dvsize := dsize;
    m.dv := p;
    SetJoined(m, p, dsize);
    LandedInDv(m.L, m.dv, m.dvsize, m.top, m.topsize, psize);
  }

  /** A free chunk at `p` covers `psize` bytes: `large` tells that it is in a tree bin, `grown` that it is
      the top chunk. */
  ghost predicate Landed(L: Chunks, p: int, psize: int, large: bool, grown: bool) {
    && p in L && psize <= L[p].size && !InUse(L[p].kind)
    && (grown <==> L[p].kind.Top?) && (large <==> L[p].kind.Binned? && !IsSmall(L[p].size))
  }

  lemma Positive(L: Chunks, S: Spans, p: int)
    requires Tiled(L, S) && p in L
    ensures L[p].size > 0
  {
    ChunkAt(L, S, p);
  }

  lemma LandedInDv(L: Chunks, dv: int, dvsize: int, top: int, topsize: int, psize: int)
    requires Roles(L, dv, dvsize, top, topsize, {}) && 0 < psize <= dvsize
    ensures Landed(L, dv, psize, false, false)
  {
    assert RoleOk(L, dv, top, {}, dv);
  }

  lemma LandedInTop(L: Chunks, dv: int, dvsize: int, top: int, topsize: int, psize: int)
    requires Roles(L, dv, dvsize, top, topsize, {}) && top != 0 && psize <= topsize + TOP_FOOT
    ensures Landed(L, top, psize, false, true)
  {
    assert RoleOk(L, dv, top, {}, top);
  }

  /** A chunk in hand that is the designated victim once more. */
  method SettleDv(m: MState, p: int, psize: int)
    requires m.Stored() && m.Indexed() && m.Clean() && p in m.L && m.L[p].kind.Loose? && m.L[p].size == psize
    requires m.dv == p && Roles(m.L, 0, 0, m.top, m.topsize, {p})
    modifies m`L, m`staleHeads, m`staleFeet, m`dvsize
    ensures m.Valid() && Beside(old(m.L), 0, m.L, 0) && Landed(m.L, p, psize, false, false)
    ensures SameRecords(old(m.L), m.L) && m.L == Reuse(old(m.L), p, Victim)
  {
    hide MState.Stored, MState.Indexed, Roles, Beside, SameRecords, SameLive, Reuse, Pin, IsSmall;
    StoredTiled(m);
    LooseSettles(m.L, m.S, 0, 0, m.top, m.topsize, p, Victim);
    BesideReuse(m.L, p, Victim);
    GhostReuse(m, p, Victim);
    m.dvsize := psize;
  }

  lemma BinnedSettles(m: MState, p: int, psize: int)
    requires m.Stored() && m.Cast({p}) && p in m.L && m.L[p].kind.Loose? && m.L[p].size == psize
    ensures var M := Reuse(m.L, p, Binned);
            && Roles(M, m.dv, m.dvsize, m.top, m.topsize, {}) && Beside(m.L, 0, M, 0) && SameRecords(m.L, M)
            && psize > 0 && Landed(M, p, psize, !IsSmall(psize), false)
  {
    hide Tiled, Roles, Beside, SameRecords, SameLive, Reuse, Pin, IsSmall;
    LooseSettles(m.L, m.S, m.dv, m.dvsize, m.top, m.topsize, p, Binned);
    BesideReuse(m.L, p, Binned);
  }

  /** A chunk in hand that goes into its bin. */
  method SettleBinned(m: MState, p: int, psize: int)
    requires m.Stored() && m.Indexed() && m.Clean() && p in m.L && m.L[p].kind.Loose? && m.L[p].size == psize
    requires m.dv != p && m.Cast({p})
    modifies m`mem, m`smallmap, m`treemap, m`L, m`rings, m`tries
    ensures m.Valid() && Beside(old(m.L), 0, m.L, 0) && Landed(m.L, p, psize, !IsSmall(psize), false)
    ensures SameRecords(old(m.L), m.L) && Quiet(old(m.mem), m.mem, m.L) && m.L == Reuse(old(m.L), p, Binned)
  {
    hide MState.Stored, MState.Indexed, Roles, Beside, SameRecords, SameLive, Reuse, Pin, IsSmall, Quiet, Landed;
    BinnedSettles(m, p, psize);
    InsertAny(m, p, psize);
  }

  /** The use of a free chunk at `p` with no free neighbours. */
  function OwnKind(dv: int, p: int): Kind { if dv == p then Victim else Binned }

  /** A loose chunk goes back to being the designated victim, or to its bin. */
  method Settle(m: MState, p: int, psize: int) returns (large: bool)
    requires m.Stored() && m.Indexed() && m.Clean() && p in m.L && m.L[p].kind.Loose? && m.L[p].size == psize
    requires if m.dv == p then Roles(m.L, 0, 0, m.top, m.topsize, {p}) else m.Cast({p})
    modifies m`mem, m`smallmap, m`treemap, m`L, m`rings, m`tries, m`staleHeads, m`staleFeet, m`dvsize
    ensures m.Valid() && Beside(old(m.L), 0, m.L, 0) && Quiet(old(m.mem), m.mem, m.L)
    ensures Landed(m.L, p, psize, large, false)
    ensures SameRecords(old(m.L), m.L) && m.L == Reuse(old(m.L), p, OwnKind(m.dv, p))
  {
    hide MState.Stored, MState.Indexed, Roles, Beside, SameRecords, IsSmall, Quiet, Landed;
    if p == m.dv {
      large := false;
      SettleDv(m, p, psize);
      BesideSame(m.L, m.mem, 0);
    } else {
      large := !IsSmall(psize);
      SettleBinned(m, p, psize);
    }
  }

  lemma LooseRoles(L: Chunks, dv: int, dvsize: int, top: int, topsize: int, p: int)
    requires Roles(L, dv, dvsize, top, topsize, {}) && p in L && L[p].kind.Live? && L[p].size > 0
    ensures Roles(Reuse(L, p, Loose), dv, dvsize, top, topsize, {p}) && Beside(L, p, Reuse(L, p, Loose), 0)
    ensures SameRecords(L, Reuse(L, p, Loose))
  {
    assert RoleOk(L, dv, top, {}, p);
    RolesReuse(L, dv, dvsize, top, topsize, {}, p, Loose);
    assert {} + {p} == {p};
    BesideReuse(L, p, Loose);
  }

  /** The chunk behind `p` is in use. */
  method IntoGap(m: MState, p: int, psize: int, next: int) returns (large: bool)
    requires Closing(m, p, psize) && next == p + psize && next in m.L && InUse(m.L[next].kind)
    modifies m`mem, m`smallmap, m`treemap, m`L, m`rings, m`tries, m`staleHeads, m`staleFeet, m`dvsize
    ensures m.Valid() && Beside(old(m.L), p, m.L, 0) && Quiet(old(m.mem), m.mem, m.L)
    ensures Landed(m.L, p, psize, large, false)
    ensures SameRecords(old(m.L), m.L) && m.L == Reuse(old(m.L), p, OwnKind(m.dv, p))
  {
    hide Join, Beside, Quiet, Tiled, Tagged, Bins, RingsStored, TriesStored, OffState, LeastOk, CanJoin, Landed;
    hide MState.Indexed, SameRecords;
    ChunkAt(m.L, m.S, p);
    LooseRoles(m.L, if m.dv == p then 0 else m.dv, if m.dv == p then 0 else m.dvsize, m.top, m.topsize, p);
    SetFree(m, p, psize, next);
    ghost var L1, mem1 := m.L, m.mem;
    large := Settle(m, p, psize);
    BesideTrans(old(m.L), p, L1, 0, m.L, 0);
    RecordsTrans(old(m.L), L1, m.L);
    QuietTrans(old(m.mem), L1, mem1, 0, m.L, m.mem);
  }

  lemma JoinedRoles(L: Chunks, S: Spans, dv: int, dvsize: int, top: int, topsize: int, p: int)
    requires CanJoin(L, S, p) && Roles(L, dv, dvsize, top, topsize, {Next(L, p)}) && L[p].kind.Live?
    requires L[Next(L, p)].kind.Loose?
    ensures Roles(Join(L, p), dv, dvsize, top, topsize, {p}) && Beside(L, p, Join(L, p), 0)
    ensures SameRecords(L, Join(L, p))
    ensures p in Join(L, p) && Join(L, p)[p].kind.Loose? && Join(L, p)[p].size == L[p].size + L[Next(L, p)].size
  {
    var n := Next(L, p);
    NextAt(L, S, p);
    assert RoleOk(L, dv, top, {n}, n) && RoleOk(L, dv, top, {n}, p);
    RolesJoin(L, S, dv, dvsize, top, topsize, {n}, p);
    BesideJoin(L, S, p);
    assert {n} - {n} + {p} == {p};
  }

  /** What becomes of the chunks when the one behind a live chunk leaves its bin. */
  lemma NextLoose(L: Chunks, S: Spans, d: int, ds: int, top: int, topsize: int, p: int, next: int)
    requires Tiled(L, S) && Roles(L, d, ds, top, topsize, {}) && p in L && L[p].kind.Live? && next == Next(L, p)
    requires next in L && L[next].kind.Binned?
    ensures p < next && next != d
    ensures var M := Reuse(L, next, Loose);
            && Roles(M, d, ds, top, topsize, {next}) && Beside(L, p, M, p) && SameRecords(L, M) && SameLive(L, M)
            && p in M && M[p] == L[p] && next in M && M[next] == L[next].(kind := Loose) && (Pin(L, p) ==> Pin(M, p))
  {
    hide Tiled, Beside, SameRecords, SameLive;
    NextAt(L, S, p);
    assert RoleOk(L, d, top, {}, next);
    RolesReuse(L, d, ds, top, topsize, {}, next, Loose);
    assert {} + {next} == {next};
    BesideKeep(L, next, Loose, p);
    SameLiveReuse(L, next, Loose);
  }

  /** The chunk behind `p` taken out of its bin. */
  method TakeNext(m: MState, p: int, psize: int, next: int) returns (nsize: int)
    requires Closing(m, p, psize) && next == p + psize && next in m.L && m.L[next].kind.Binned?
    modifies m`mem, m`smallmap, m`treemap, m`L, m`rings, m`tries
    ensures m.Stored() && m.Indexed() && m.L == Reuse(old(m.L), next, Loose) && next != p && nsize == m.L[next].size
    ensures Roles(m.L, if m.dv == p then 0 else m.dv, if m.dv == p then 0 else m.dvsize, m.top, m.topsize, {next})
    ensures Pin(m.L, p) && Beside(old(m.L), p, m.L, p) && Quiet(old(m.mem), m.mem, m.L)
    ensures SameRecords(old(m.L), m.L)
  {
    hide MState.Indexed, Tiled, Tagged, Bins, RingsStored, TriesStored, OffState, LeastOk, Tailed, Foreign, Roles;
    hide Beside, Quiet, SameRecords, Reuse, Pin;
    ghost var d, ds := if m.dv == p then 0 else m.dv, if m.dv == p then 0 else m.dvsize;
    NextLoose(m.L, m.S, d, ds, m.top, m.topsize, p, next);
    nsize := ReadSize(m, next);
    UnlinkAny(m, next, nsize);
  }

  /** What the chunk behind `p` was used for does not show in the joined layout. */
  lemma LooseJoins(L: Chunks, p: int)
    requires p in L && Next(L, p) in L && 0 < L[p].size && 0 < L[Next(L, p)].size && !Last(L[Next(L, p)].kind)
    ensures var M := Reuse(L, Next(L, p), Loose);
            && Next(M, p) == Next(L, p) && p in Join(L, p) && p in Join(M, p)
            && forall k {:trigger Reuse(Join(M, p), p, k)} :: Reuse(Join(M, p), p, k) == Reuse(Join(L, p), p, k)
  {
    var M := Reuse(L, Next(L, p), Loose);
    assert Join(M, p) == Join(L, p)[p := Join(M, p)[p]];
  }

  /** The chunk behind `p`, which is in a bin, made one with `p`, both in hand. */
  method JoinBinned(m: MState, p: int, psize: int, next: int) returns (nsize: int)
    requires Closing(m, p, psize) && next == p + psize && next in m.L && m.L[next].kind.Binned?
    modifies m`mem, m`smallmap, m`treemap, m`L, m`rings, m`tries, m`staleHeads, m`staleFeet
    ensures m.Stored() && m.Indexed() && m.Clean() && p in m.L && m.L[p].kind.Loose?
    ensures m.L[p].size == psize + nsize && nsize > 0
    ensures Roles(m.L, if m.dv == p then 0 else m.dv, if m.dv == p then 0 else m.dvsize, m.top, m.topsize, {p})
    ensures Beside(old(m.L), p, m.L, 0) && Quiet(old(m.mem), m.mem, m.L) && SameRecords(old(m.L), m.L)
    ensures p in Join(old(m.L), p)
    ensures forall k {:trigger Reuse(m.L, p, k)} :: Reuse(m.L, p, k) == Reuse(Join(old(m.L), p), p, k)
  {
    hide Join, Beside, Quiet, Tiled, Tagged, Bins, RingsStored, TriesStored, OffState, LeastOk, MState.Indexed;
    hide SameRecords, Tailed, Foreign, OkAddress;
    Positive(m.L, m.S, p);
    Positive(m.L, m.S, next);
    LooseJoins(m.L, p);
    nsize := TakeNext(m, p, psize, next);
    ghost var L1, mem1 := m.L, m.mem;
    NextAt(L1, m.S, p);
    JoinedRoles(L1, m.S, if m.dv == p then 0 else m.dv, if m.dv == p then 0 else m.dvsize, m.top, m.topsize, p);
    SetJoined(m, p, psize + nsize);
    BesideTrans(old(m.L), p, L1, p, m.L, 0);
    RecordsTrans(old(m.L), L1, m.L);
    QuietTrans(old(m.mem), L1, mem1, p, m.L, m.mem);
  }

  /** The chunk behind `p` is in a bin. */
  method IntoBinned(m: MState, p: int, psize: int, next: int) returns (large: bool)
    requires Closing(m, p, psize) && next == p + psize && next in m.L && m.L[next].kind.Binned?
    modifies m`mem, m`smallmap, m`treemap, m`L, m`rings, m`tries, m`staleHeads, m`staleFeet, m`dvsize
    ensures m.Valid() && Beside(old(m.L), p, m.L, 0) && Quiet(old(m.mem), m.mem, m.L)
    ensures Landed(m.L, p, psize, large, false)
    ensures SameRecords(old(m.L), m.L) && p in Join(old(m.L), p)
    ensures m.L == Reuse(Join(old(m.L), p), p, OwnKind(m.dv, p))
  {
    hide Join, Beside, Quiet, Tiled, Tagged, Bins, RingsStored, TriesStored, OffState, LeastOk, MState.Indexed;
    hide SameRecords, Tailed, Foreign, OkAddress, Reuse;
    var nsize := JoinBinned(m, p, psize, next);
    ghost var L1, mem1 := m.L, m.mem;
    large := Settle(m, p, psize + nsize);
    BesideTrans(old(m.L), p, L1, 0, m.L, 0);
    RecordsTrans(old(m.L), L1, m.L);
    QuietTrans(old(m.mem), L1, mem1, 0, m.L, m.mem);
  }

  /** Consolidation with the chunk behind `p`. */
  method Forward(m: MState, p: int, psize: int, next: int) returns (large: bool, grown: bool)
    requires Closing(m, p, psize) && next == p + psize
    modifies m`mem, m`smallmap, m`treemap, m`L, m`rings, m`tries, m`staleHeads, m`staleFeet, m`dv, m`dvsize, m`top
    modifies m`topsize
    ensures m.Valid() && Beside(old(m.L), p, m.L, 0) && Quiet(old(m.mem), m.mem, m.L)
    ensures m.top + m.topsize == old(m.top + m.topsize) && (large ==> !grown)
    ensures Landed(m.L, p, psize, large, grown)
    ensures SameRecords(old(m.L), m.L) && m.L == Closed(old(m.L), p, OwnKind(old(m.dv), p))
  {
    hide Beside, Quiet, MState.Stored, Landed, MState.Indexed, SameRecords, Join, Reuse;
    NextRole(m, p, psize);
    NextJoins(m, p, psize);
    assert OkAddress(m, next) && OkNext(p, next) && PInUse(At(m.mem, next + HEAD));   // RTCHECK
    large, grown := false, false;
    if !CInUse(At(m.mem, next + HEAD)) {
      if next == m.top {
        IntoTop(m, p, psize, next);
        grown := true;
      } else if next == m.dv {
        IntoDv(m, p, psize, next);
      } else {
        large := IntoBinned(m, p, psize, next);
      }
    } else {
      large := IntoGap(m, p, psize, next);
    }
  }

  /** Joined with the top chunk or the designated victim, the chunk is that. */
  lemma NextJoins(m: MState, p: int, psize: int)
    requires Closing(m, p, psize)
    ensures Next(m.L, p) == p + psize && p + psize in m.L && p in Join(m.L, p)
    ensures Reuse(Join(m.L, p), p, m.L[p + psize].kind) == Join(m.L, p)
    ensures m.L[p + psize].kind.Mapped? ==> InUse(m.L[p + psize].kind)
  {
    NextAt(m.L, m.S, p);
  }

  /** What the head word and the pointers of the state say about the chunk behind `p`. */
  lemma NextRole(m: MState, p: int, psize: int)
    requires Closing(m, p, psize)
    ensures p + psize in m.L && OkAddress(m, p + psize) && OkNext(p, p + psize) && PInUse(At(m.mem, p + psize + HEAD))
    ensures CInUse(At(m.mem, p + psize + HEAD)) <==> InUse(m.L[p + psize].kind)
    ensures m.L[p + psize].kind.Top? <==> p + psize == m.top
    ensures m.L[p + psize].kind.Victim? <==> p + psize == m.dv
    ensures !m.L[p + psize].kind.Loose?
  {
    var n := p + psize;
    NextAt(m.L, m.S, p);
    HeadBits(m.L, m.S, n);
    assert HeadOk(m.mem, m.L, n);
    assert RoleOk(m.L, if m.dv == p then 0 else m.dv, m.top, {}, n);
    ChunkAddressOk(m, n);
  }

  // ---- consolidating backward

  /** The chunk before `p` is free: taken out of its bin, unless it is the designated victim, and counted
      as part of the chunk to be freed. */
  method Backward(m: MState, p: int, psize: int) returns (q: int, qsize: int)
    requires m.Valid() && p in m.L && m.L[p].kind.Live? && m.L[p].size == psize && !Pin(m.L, p)
    modifies m`mem, m`smallmap, m`treemap, m`L, m`rings, m`tries, m`staleHeads, m`staleFeet
    ensures Closing(m, q, qsize) && q + qsize == p + psize && q < p
    ensures q == p - old(m.L)[p].prv && q in old(m.L) && Next(old(m.L), q) == p && m.L == Join(old(m.L), q)
    ensures m.dv == q <==> old(m.L)[q].kind.Victim?
    ensures Beside(old(m.L), p, m.L, q) && Quiet(old(m.mem), m.mem, old(m.L))
    ensures SameRecords(old(m.L), m.L)
  {
    hide Beside, Quiet, Tiled, Tagged, Bins, RingsStored, TriesStored, OffState, LeastOk, MState.Indexed, SameRecords;
    PrevRole(m, p);
    var prevsize := At(m.mem, p);
    q := p - prevsize;
    assert OkAddress(m, q);   // RTCHECK
    qsize := psize + prevsize;
    if q != m.dv {
      UnlinkPrev(m, p, q, prevsize);
    } else {
      BesideSame(m.L, m.mem, p);
    }
    ghost var L1 := m.L;
    BackRoles(L1, m.S, m.dv, m.dvsize, m.top, m.topsize, q);
    LooseBack(old(m.L), q);
    GhostJoin(m, q);
    BesideTrans(old(m.L), p, L1, p, m.L, q);
    RecordsTrans(old(m.L), L1, m.L);
  }

  lemma LooseBack(L: Chunks, q: int)
    requires q in L && Next(L, q) in L && 0 < L[q].size
    ensures Next(Reuse(L, q, Loose), q) == Next(L, q) && Join(Reuse(L, q, Loose), q) == Join(L, q)
  {
  }

  method UnlinkPrev(m: MState, ghost p: int, q: int, prevsize: int)
    requires m.Valid() && Linked(m.L, q, p) && m.L[p].kind.Live? && m.L[q].kind.Binned? && m.L[q].size == prevsize > 0
    requires Pin(m.L, q)
    modifies m`mem, m`smallmap, m`treemap, m`L, m`rings, m`tries
    ensures m.Stored() && m.Indexed() && m.Cast({q}) && Linked(m.L, q, p) && m.L[p] == old(m.L)[p]
    ensures m.L == Reuse(old(m.L), q, Loose) && m.L[q] == old(m.L)[q].(kind := Loose, flag := false)
    ensures Pin(m.L, q) && Beside(old(m.L), p, m.L, p) && Quiet(old(m.mem), m.mem, old(m.L))
    ensures SameRecords(old(m.L), m.L)
  {
    hide Beside, Quiet, MState.Stored, MState.Indexed, SameRecords;
    ghost var L0 := m.L;
    assert RoleOk(L0, m.dv, m.top, {}, q);
    RolesReuse(L0, m.dv, m.dvsize, m.top, m.topsize, {}, q, Loose);
    BesideKeep(L0, q, Loose, p);
    SameLiveReuse(L0, q, Loose);
    assert {} + {q} == {q};
    UnlinkAny(m, q, prevsize);
    QuietWithin(old(m.mem), m.mem, L0, m.L);
  }

  lemma BesideSame(L: Chunks, mem: Words, p: int)
    ensures Beside(L, p, L, p) && Quiet(mem, mem, L) && SameRecords(L, L)
  {
  }

  lemma BackRoles(L: Chunks, S: Spans, dv: int, dvsize: int, top: int, topsize: int, q: int)
    requires Tiled(L, S) && q in L && Linked(L, q, Next(L, q)) && L[Next(L, q)].kind.Live? && InHand(L[q].kind)
    requires Pin(L, q)
    requires if q == dv then Roles(L, dv, dvsize, top, topsize, {}) else Roles(L, dv, dvsize, top, topsize, {q})
    ensures CanJoin(L, S, q) && Beside(L, Next(L, q), Join(L, q), q) && SameRecords(L, Join(L, q))
    ensures q in Join(L, q) && Join(L, q)[q].kind.Live? && Join(L, q)[q].size == L[q].size + L[Next(L, q)].size
    ensures Pin(Join(L, q), q)
    ensures Roles(Join(L, q), if dv == q then 0 else dv, if dv == q then 0 else dvsize, top, topsize, {})
  {
    var loose := if q == dv then {} else {q};
    NextAt(L, S, q);
    assert RoleOk(L, dv, top, loose, q) && RoleOk(L, dv, top, loose, Next(L, q));
    RolesJoin(L, S, dv, dvsize, top, topsize, loose, q);
    BesideBack(L, S, q);
    assert loose - {q} == {};
    ChunkAt(L, S, q);
  }

  /** The chunk before `p`, found through its foot. */
  lemma PrevRole(m: MState, p: int)
    requires m.Valid() && p in m.L && m.L[p].kind.Live? && !Pin(m.L, p)
    ensures var q := p - At(m.mem, p);
            && Linked(m.L, q, p) && Pin(m.L, q) && OkAddress(m, q) && m.L[q].size == At(m.mem, p) > 0
            && (m.L[q].kind.Victim? <==> q == m.dv) && (m.L[q].kind.Binned? || m.L[q].kind.Victim?)
  {
    assert FootOk(m.mem, m.L, p);
    ChunkAt(m.L, m.S, p);
    var q := p - m.L[p].prv;
    ChunkAt(m.L, m.S, q);
    ChunkAddressOk(m, q);
    assert RoleOk(m.L, m.dv, m.top, {}, q);
  }

  /** The layout of a free, and where the free chunk is kept: in a tree bin, or as the top chunk. */
  ghost predicate Disposed(L: Chunks, M: Chunks, p: int, large: bool, grown: bool) {
    && p in L && M == AfterFree(L, p) && (grown <==> GapKind(L, p).Top?)
    && (large <==> GapKind(L, p).Binned? && MIN_LARGE <= GapSize(L, p))
  }

  lemma AfterLanded(L: Chunks, S: Spans, p: int, M: Chunks, psize: int, large: bool, grown: bool)
    requires Tiled(L, S) && p in L && L[p].kind.Live? && M == AfterFree(L, p)
    requires Landed(M, GapStart(L, p), psize, large, grown)
    ensures Disposed(L, M, p, large, grown)
  {
    hide Tiled;
    GapOk(L, S, p);
  }

  lemma GapOk(L: Chunks, S: Spans, p: int)
    requires Tiled(L, S) && p in L && L[p].kind.Live?
    ensures GapStart(L, p) in L && GapStart(L, p) <= p < Next(L, p) <= GapEnd(L, p) && Next(L, p) in L
    ensures L[GapStart(L, p)].home == L[p].home
    ensures AfterFree(L, p)[GapStart(L, p)] ==
              Chunk(GapSize(L, p), L[GapStart(L, p)].prv, GapKind(L, p), L[p].home)
  {
    hide Tiled;
    NextAt(L, S, p);
    ChunkAt(L, S, Next(L, p));
    if !Pin(L, p) {
      BackParts(L, S, p);
    }
  }

  /** The gap takes in the chunk, a free one before it and a free one behind it, and nothing else. */
  lemma GapOnly(L: Chunks, S: Spans, p: int, b: int)
    requires Tiled(L, S) && p in L && L[p].kind.Live? && b in L && GapStart(L, p) <= b < GapEnd(L, p)
    ensures b == p || (b == GapStart(L, p) && !InUse(L[b].kind) && !L[b].kind.Top?)
            || (b == Next(L, p) && !InUse(L[b].kind))
  {
    hide Tiled;
    NextAt(L, S, p);
    if !Pin(L, p) {
      BackParts(L, S, p);
      NextAt(L, S, GapStart(L, p));
    } else {
      OnlyTwo(L, S, p, b);
    }
  }

  /** The chunk before `p` is free. */
  method DisposeBack(m: MState, p: int, psize: int) returns (large: bool, grown: bool)
    requires m.Valid() && p in m.L && m.L[p].kind.Live? && m.L[p].size == psize && !Pin(m.L, p)
    modifies m`mem, m`smallmap, m`treemap, m`L, m`rings, m`tries, m`staleHeads, m`staleFeet, m`dv, m`dvsize, m`top
    modifies m`topsize
    ensures m.Valid() && Removed(old(m.L), m.L, p) && Quiet(old(m.mem), m.mem, m.L)
    ensures m.top + m.topsize == old(m.top + m.topsize) && (large ==> !grown)
    ensures Disposed(old(m.L), m.L, p, large, grown) && SameRecords(old(m.L), m.L)
  {
    hide Beside, Quiet, Tiled, Tagged, Bins, RingsStored, TriesStored, OffState, LeastOk, HeadWord, MState.Indexed;
    hide SameRecords, PInUse, At, CInUse, OkAddress, OkNext, Tailed, Foreign, Pin, Landed, Disposed, AfterFree, Join;
    hide Reuse;
    var next := p + psize;
    NotLoose(m, p);
    BackIsAfter(m.L, m.S, p);
    var q, qsize := Backward(m, p, psize);
    ghost var L1, mem1 := m.L, m.mem;
    NextRole(m, q, qsize);
    if q == m.dv && CInUse(At(m.mem, next + HEAD)) {
      assert OkAddress(m, next) && OkNext(q, next) && PInUse(At(m.mem, next + HEAD));   // RTCHECK
      large := IntoGap(m, q, qsize, next);
      grown := false;
    } else {
      large, grown := Forward(m, q, qsize, next);
    }
    BesideTrans(old(m.L), p, L1, q, m.L, 0);
    RecordsTrans(old(m.L), L1, m.L);
    QuietFreed(old(m.mem), old(m.L), p, mem1, L1, q, m.L, m.mem);
    AfterLanded(old(m.L), old(m.S), p, m.L, qsize, large, grown);
  }

  lemma NotLoose(m: MState, p: int)
    requires m.Valid() && p in m.L
    ensures Next(m.L, p) in m.L ==> !m.L[Next(m.L, p)].kind.Loose?
  {
    if Next(m.L, p) in m.L {
      assert RoleOk(m.L, m.dv, m.top, {}, Next(m.L, p));
    }
  }

  /** `dispose_chunk`, and the part of `dlfree` that puts a chunk back.  Tells whether the chunk went to a
      tree bin and whether the top chunk grew. */
  method Dispose(m: MState, p: int, psize: int) returns (large: bool, grown: bool)
    requires m.Valid() && p in m.L && m.L[p].kind.Live? && m.L[p].size == psize
    modifies m`mem, m`smallmap, m`treemap, m`L, m`rings, m`tries, m`staleHeads, m`staleFeet, m`dv, m`dvsize, m`top
    modifies m`topsize
    ensures m.Valid() && Removed(old(m.L), m.L, p) && Quiet(old(m.mem), m.mem, m.L)
    ensures m.top + m.topsize == old(m.top + m.topsize) && (large ==> !grown)
    ensures Disposed(old(m.L), m.L, p, large, grown) && SameRecords(old(m.L), m.L)
  {
    hide Beside, Quiet, Tiled, Tagged, Bins, RingsStored, TriesStored, OffState, LeastOk, HeadWord, MState.Indexed;
    hide SameRecords, PInUse, At, CInUse, OkAddress, OkNext, Tailed, Foreign, Landed, Disposed, AfterFree;
    HeadBits(m.L, m.S, p);
    HeadAt(m, p);
    if !PInUse(At(m.mem, p + HEAD)) {
      large, grown := DisposeBack(m, p, psize);
    } else {
      assert RoleOk(m.L, m.dv, m.top, {}, p);
      NotLoose(m, p);
      ClosedIsAfter(m.L, m.S, p);
      large, grown := Forward(m, p, psize, p + psize);
      AfterLanded(old(m.L), old(m.S), p, m.L, psize, large, grown);
    }
  }

  lemma HeadAt(m: MState, p: int)
    requires m.Stored() && p in m.L && p !in m.staleHeads
    ensures At(m.mem, p + HEAD) == HeadWord(m.L, p)
  {
    assert HeadOk(m.mem, m.L, p);
  }

  lemma QuietFreed(mem: Words, L: Chunks, p: int, mem': Words, L': Chunks, q: int, M: Chunks, mem'': Words)
    requires Quiet(mem, mem', L) && Quiet(mem', mem'', M) && Beside(L, p, L', q) && Beside(L', q, M, 0) && 0 !in M
    ensures Quiet(mem, mem'', M)
  {
    BesideTrans(L, p, L', q, M, 0);
    QuietTrans(mem, L, mem', p, M, mem'');
  }
}
