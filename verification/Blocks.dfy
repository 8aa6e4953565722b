/** Cutting and joining chunks: the head and foot words that record a change of layout. */
module Blocks {
  import opened Layout
  import opened MallocState
  import opened Memory
  import opened Sizes
  import opened Words
  import BinOps
  import SmallBins
  import TreeBins

  // ---- a change of layout, and the words it leaves stale

  /** Chunks not in `H` keep size, use and the use of the chunk before; feet not in `F` stay right. */
  ghost predicate Retags(L: Chunks, M: Chunks, H: set<int>, F: set<int>) {
    && (forall q {:trigger HeadKept(L, M, q)} :: q in M && q !in H ==> HeadKept(L, M, q))
    && (forall q {:trigger FootKept(L, M, q)} :: q in M && q !in F ==> FootKept(L, M, q))
  }

  predicate HeadKept(L: Chunks, M: Chunks, q: int)
    requires q in M
  {
    && q in L && HeadSize(M[q]) == HeadSize(L[q]) && InUse(M[q].kind) == InUse(L[q].kind)
    && Pin(M, q) == Pin(L, q) && M[q].kind.Mapped? == L[q].kind.Mapped? && M[q].flag == L[q].flag
  }

  predicate FootKept(L: Chunks, M: Chunks, q: int)
    requires q in M
  {
    && (!Pin(M, q) ==> q in L && !Pin(L, q) && M[q].prv == L[q].prv)
    && (M[q].kind.Mapped? ==> q in L && L[q].kind.Mapped? && M[q].prv == L[q].prv)
  }

  lemma RetagsTagged(mem: Words, L: Chunks, M: Chunks, H0: set<int>, F0: set<int>, H: set<int>, F: set<int>)
    requires Tagged(mem, L, H0, F0) && Retags(L, M, H, F)
    ensures Tagged(mem, M, H0 + H, F0 + F)
  {
    forall q {:trigger HeadOk(mem, M, q)} | q in M && q !in H0 + H ensures HeadOk(mem, M, q) {
      assert HeadKept(L, M, q);
      assert HeadOk(mem, L, q);
    }
    forall q {:trigger FootOk(mem, M, q)} | q in M && q !in F0 + F ensures FootOk(mem, M, q) {
      assert FootKept(L, M, q);
      if !Pin(M, q) || M[q].kind.Mapped? {
        assert FootOk(mem, L, q);
      }
    }
  }

  /** The binned chunks are the same. */
  ghost predicate SameBinned(L: Chunks, M: Chunks) {
    && (forall q {:trigger q in L} :: q in L && L[q].kind.Binned? ==>
            q in M && M[q].kind.Binned? && M[q].size == L[q].size)
    && (forall q {:trigger q in M} :: q in M && M[q].kind.Binned? ==> q in L && L[q].kind.Binned?)
  }

  lemma SameBinnedBins(L: Chunks, M: Chunks, r: SmallBins.Rings, t: TreeBins.Tries)
    requires Bins(L, r, t) && SameBinned(L, M)
    ensures Bins(M, r, t)
  {
    forall p {:trigger BinnedAt(M, r, t, p)} ensures BinnedAt(M, r, t, p) {
      assert BinnedAt(L, r, t, p);
    }
  }

  ghost method Relayout(m: MState, M: Chunks, H: set<int>, F: set<int>)
    requires m.Stored() && Tiled(M, m.S) && Retags(m.L, M, H, F) && SameBinned(m.L, M)
    requires Tailed(m.mem, M, m.staleTails, m.notes)
    modifies m`L, m`staleHeads, m`staleFeet
    ensures m.Stored() && m.L == M && m.staleHeads == old(m.staleHeads) + H && m.staleFeet == old(m.staleFeet) + F
  {
    RetagsTagged(m.mem, m.L, M, m.staleHeads, m.staleFeet, H, F);
    SameBinnedBins(m.L, M, m.rings, m.tries);
    m.L := M;
    m.staleHeads := m.staleHeads + H;
    m.staleFeet := m.staleFeet + F;
  }

  lemma CutTails(mem: Words, L: Chunks, S: Spans, p: int, n: nat, k: Kind, T: set<int>, notes: Notes)
    requires CanCut(L, S, p, n, k) && Tailed(mem, L, T, notes) && (L[p].kind.Record? || p in T ==> p + n in T)
    requires p !in notes
    ensures Tailed(mem, Cut(L, p, n, k), T, notes)
  {
    var M := Cut(L, p, n, k);
    CutFresh(L, S, p, n, k);
    forall q {:trigger TailOk(mem, M, q, notes)} | q in M && q !in T ensures TailOk(mem, M, q, notes) {
      if Last(M[q].kind) {
        var q' := if q == p + n then p else q;
        assert TailOk(mem, L, q', notes);
        TailMoves(mem, L, q', M, q, notes);
      }
    }
  }

  lemma JoinTails(mem: Words, L: Chunks, S: Spans, p: int, T: set<int>, notes: Notes)
    requires CanJoin(L, S, p) && Tailed(mem, L, T, notes) && !L[Next(L, p)].kind.Record? && (Next(L, p) in T ==> p in T)
    ensures Tailed(mem, Join(L, p), T, notes)
  {
    var n := Next(L, p);
    var M := Join(L, p);
    NextAt(L, S, p);
    forall q {:trigger TailOk(mem, M, q, notes)} | q in M && q !in T ensures TailOk(mem, M, q, notes) {
      if Last(M[q].kind) {
        var q' := if q == p then n else q;
        assert TailOk(mem, L, q', notes);
        TailMoves(mem, L, q', M, q, notes);
      }
    }
  }

  // ---- Reuse

  lemma ReuseRetags(L: Chunks, S: Spans, p: int, k: Kind)
    requires Tiled(L, S) && p in L && !Last(L[p].kind) && !Last(k)
    ensures Next(L, p) in L
    ensures InUse(k) == InUse(L[p].kind) && !L[p].flag ==> Retags(L, Reuse(L, p, k), {}, {})
    ensures Retags(L, Reuse(L, p, k), {p, Next(L, p)}, {Next(L, p)})
  {
    NextAt(L, S, p);
    var M := Reuse(L, p, k);
    forall q {:trigger HeadKept(L, M, q)} | q in M
        && ((InUse(k) == InUse(L[p].kind) && !L[p].flag) || (q != p && q != Next(L, p)))
      ensures HeadKept(L, M, q)
    {
      ChunkAt(L, S, q);
    }
    forall q {:trigger FootKept(L, M, q)} | q in M && (InUse(k) == InUse(L[p].kind) || q != Next(L, p))
      ensures FootKept(L, M, q)
    {
      ChunkAt(L, S, q);
    }
  }

  ghost method GhostReuse(m: MState, p: int, k: Kind)
    requires m.Stored() && p in m.L && !Last(m.L[p].kind) && !Last(k) && !m.L[p].kind.Binned? && !k.Binned?
    requires !(InUse(k) && InUse(m.L[p].kind))
    requires !InUse(k) ==> Pin(m.L, p) && Next(m.L, p) in m.L && InUse(m.L[Next(m.L, p)].kind)
    modifies m`L, m`staleHeads, m`staleFeet
    ensures m.Stored() && m.L == Reuse(old(m.L), p, k) && Next(old(m.L), p) in old(m.L)
    ensures m.staleHeads == old(m.staleHeads) + (if InUse(k) == InUse(old(m.L)[p].kind) then {} else {p, Next(m.L, p)})
    ensures m.staleFeet == old(m.staleFeet) + (if InUse(k) == InUse(old(m.L)[p].kind) then {} else {Next(m.L, p)})
  {
    ReuseRetags(m.L, m.S, p, k);
    ReuseTiled(m.L, m.S, p, k);
    BinOps.ReuseTails(m.mem, m.L, m.staleTails, p, k, m.notes);
    ChunkAt(m.L, m.S, p);
    if InUse(k) == InUse(m.L[p].kind) {
      Relayout(m, Reuse(m.L, p, k), {}, {});
    } else {
      Relayout(m, Reuse(m.L, p, k), {p, Next(m.L, p)}, {Next(m.L, p)});
    }
  }

  /** A free chunk repeats its size in the chunk after it; the top chunk has none after it. */
  predicate HasFoot(k: Kind) { !InUse(k) && !Last(k) }

  // ---- Cut

  /** The feet that a cut leaves to be written. */
  function CutFeet(L: Chunks, p: int, n: nat, k: Kind): set<int>
    requires p in L
  {
    (if InUse(k) then {} else {p + n}) + (if HasFoot(L[p].kind) then {Next(L, p)} else {})
  }

  lemma CutPin(L: Chunks, S: Spans, p: int, n: nat, k: Kind, q: int)
    requires CanCut(L, S, p, n, k) && q in Cut(L, p, n, k) && q != p + n
    ensures q in L && Pin(Cut(L, p, n, k), q) == Pin(L, q)
  {
    CutFresh(L, S, p, n, k);
    ChunkAt(L, S, p);
    ChunkAt(L, S, q);
  }

  lemma CutFoot(L: Chunks, S: Spans, p: int, n: nat, k: Kind, q: int)
    requires CanCut(L, S, p, n, k) && q in Cut(L, p, n, k) && q !in CutFeet(L, p, n, k)
    ensures FootKept(L, Cut(L, p, n, k), q)
  {
    CutFresh(L, S, p, n, k);
    ChunkAt(L, S, p);
    if q != p + n {
      CutPin(L, S, p, n, k, q);
      ChunkAt(L, S, q);
    }
  }

  lemma CutRetags(L: Chunks, S: Spans, p: int, n: nat, k: Kind)
    requires CanCut(L, S, p, n, k)
    ensures Retags(L, Cut(L, p, n, k), {p, p + n}, CutFeet(L, p, n, k))
  {
    var M := Cut(L, p, n, k);
    forall q {:trigger HeadKept(L, M, q)} | q in M && q !in {p, p + n} ensures HeadKept(L, M, q) {
      CutPin(L, S, p, n, k, q);
    }
    forall q {:trigger FootKept(L, M, q)} | q in M && q !in CutFeet(L, p, n, k) ensures FootKept(L, M, q) {
      CutFoot(L, S, p, n, k, q);
    }
  }

  ghost method GhostCut(m: MState, p: int, n: nat, k: Kind)
    requires m.Stored() && CanCut(m.L, m.S, p, n, k) && !m.L[p].kind.Binned? && !k.Binned?
    requires !m.L[p].kind.Record? && p !in m.staleTails
    modifies m`L, m`staleHeads, m`staleFeet
    ensures m.Stored() && m.L == Cut(old(m.L), p, n, k)
    ensures m.staleHeads == old(m.staleHeads) + {p, p + n}
    ensures m.staleFeet == old(m.staleFeet) + CutFeet(old(m.L), p, n, k)
  {
    CutRetags(m.L, m.S, p, n, k);
    CutTiled(m.L, m.S, p, n, k);
    CutFresh(m.L, m.S, p, n, k);
    CutTails(m.mem, m.L, m.S, p, n, k, m.staleTails, m.notes);
    Relayout(m, Cut(m.L, p, n, k), {p, p + n}, CutFeet(m.L, p, n, k));
  }

  // ---- Join

  lemma JoinRetags(L: Chunks, S: Spans, p: int)
    requires CanJoin(L, S, p)
    ensures var n := Next(L, p);
            Retags(L, Join(L, p), {p}, if HasFoot(L[n].kind) then {Next(L, n)} else {})
  {
    var n := Next(L, p);
    NextAt(L, S, p);
    if !Last(L[n].kind) {
      NextAt(L, S, n);
    }
    var M := Join(L, p);
    forall q {:trigger HeadKept(L, M, q)} | q in M && q !in {p} ensures HeadKept(L, M, q) {
      JoinPin(L, S, p, q);
    }
    forall q {:trigger FootKept(L, M, q)} | q in M && (HasFoot(L[n].kind) ==> q != Next(L, n))
      ensures FootKept(L, M, q)
    {
      JoinPin(L, S, p, q);
      ChunkAt(L, S, q);
    }
  }

  lemma JoinPin(L: Chunks, S: Spans, p: int, q: int)
    requires CanJoin(L, S, p) && q in Join(L, p)
    ensures q in L && Pin(Join(L, p), q) == Pin(L, q)
  {
    var n := Next(L, p);
    NextAt(L, S, p);
    ChunkAt(L, S, n);
    ChunkAt(L, S, q);
  }

  ghost method GhostJoin(m: MState, p: int)
    requires m.Stored() && CanJoin(m.L, m.S, p) && !m.L[p].kind.Binned? && !m.L[Next(m.L, p)].kind.Binned?
    requires !m.L[Next(m.L, p)].kind.Record? && Next(m.L, p) !in m.staleTails
    modifies m`L, m`staleHeads, m`staleFeet
    ensures m.Stored() && m.L == Join(old(m.L), p)
    ensures m.staleHeads == old(m.staleHeads) + {p}
    ensures var n := Next(old(m.L), p);
            m.staleFeet == old(m.staleFeet) + (if HasFoot(old(m.L)[n].kind) then {Next(old(m.L), n)} else {})
  {
    JoinRetags(m.L, m.S, p);
    JoinTiled(m.L, m.S, p);
    var n := Next(m.L, p);
    NextAt(m.L, m.S, p);
    JoinTails(m.mem, m.L, m.S, p, m.staleTails, m.notes);
    Relayout(m, Join(m.L, p), {p}, if HasFoot(m.L[n].kind) then {Next(m.L, n)} else {});
  }

  // ---- taking memory

  /** A foot that no free chunk owns is never stale. */
  ghost method DropFoot(m: MState, e: int)
    requires m.Stored() && e in m.L && Pin(m.L, e) && !m.L[e].kind.Mapped?
    modifies m`staleFeet
    ensures m.Stored() && m.staleFeet == old(m.staleFeet) - {e}
  {
    assert FootOk(m.mem, m.L, e);
    m.staleFeet := m.staleFeet - {e};
    forall q {:trigger FootOk(m.mem, m.L, q)} | q in m.L && q !in m.staleFeet ensures FootOk(m.mem, m.L, q) {
    }
  }

  /** A free chunk that no bin holds. */
  predicate InHand(k: Kind) { k.Loose? || k.Victim? }

  /** `set_inuse_and_pinuse`: a chunk in hand given out whole */
  method TakeWhole(m: MState, p: int, s: int)
    requires m.Stored() && m.Clean() && p in m.L && InHand(m.L[p].kind) && m.L[p].size == s
    modifies m`mem, m`L, m`staleHeads, m`staleFeet
    ensures m.Stored() && m.Clean() && m.L == Reuse(old(m.L), p, Live)
    ensures Quiet(old(m.mem), m.mem, m.L)
  {
    NextAt(m.L, m.S, p);
    var e := p + s;
    assert HeadOk(m.mem, m.L, e);
    GhostReuse(m, p, Live);
    PutHead(m, p, s + 2 + 1);
    PutHead(m, e, At(m.mem, e + HEAD) + 1);
    DropFoot(m, e);
  }

  /** `set_size_and_pinuse_of_inuse_chunk` and `set_size_and_pinuse_of_free_chunk`: the front of a
      chunk in hand given out, the rest still in hand */
  method TakeFront(m: MState, p: int, n: int, rsize: int)
    requires m.Stored() && m.Clean() && p in m.L && InHand(m.L[p].kind) && m.L[p].size == n + rsize
    requires n % 8 == 0 && MIN_CHUNK <= n && MIN_CHUNK <= rsize
    modifies m`mem, m`L, m`staleHeads, m`staleFeet
    ensures m.Stored() && m.Clean() && m.L == Cut(old(m.L), p, n, Live)
    ensures Quiet(old(m.mem), m.mem, m.L)
  {
    NextAt(m.L, m.S, p);
    CutFresh(m.L, m.S, p, n, Live);
    var r := p + n;
    var e := r + rsize;
    GhostCut(m, p, n, Live);
    PutHead(m, p, n + 2 + 1);
    PutHead(m, r, rsize + 1);
    PutFoot(m, e, rsize);
  }

  /** The front of the top chunk handed out; `top` and `topsize` are updated by the caller. */
  method TakeTop(m: MState, p: int, n: int, rsize: int)
    requires m.Stored() && m.Clean() && p in m.L && m.L[p].kind.Top? && m.L[p].size == n + rsize + TOP_FOOT
    requires n % 8 == 0 && MIN_CHUNK <= n && 0 < rsize
    modifies m`mem, m`L, m`staleHeads, m`staleFeet
    ensures m.Stored() && m.Clean() && m.L == Cut(old(m.L), p, n, Live)
    ensures Quiet(old(m.mem), m.mem, m.L)
  {
    ChunkAt(m.L, m.S, p);
    CutFresh(m.L, m.S, p, n, Live);
    var r := p + n;
    GhostCut(m, p, n, Live);
    PutHead(m, r, rsize + 1);
    PutHead(m, p, n + 2 + 1);
  }

  // ---- the chunks in hand, the victim and the top after a change

  lemma RolesReuse(L: Chunks, dv: int, dvsize: int, top: int, topsize: int, loose: set<int>, p: int, k: Kind)
    requires Roles(L, dv, dvsize, top, topsize, loose) && p in L && L[p].size > 0 && !Last(L[p].kind) && !Last(k)
    requires k.Victim? ==> dv == 0 || dv == p
    ensures Roles(Reuse(L, p, k), if k.Victim? then p else if dv == p then 0 else dv,
                  if k.Victim? then L[p].size else if dv == p then 0 else dvsize, top, topsize,
                  if k.Loose? then loose + {p} else loose - {p})
  {
    var M := Reuse(L, p, k);
    var dv' := if k.Victim? then p else if dv == p then 0 else dv;
    var loose' := if k.Loose? then loose + {p} else loose - {p};
    forall q {:trigger RoleOk(M, dv', top, loose', q)} | q in M ensures RoleOk(M, dv', top, loose', q) {
      assert RoleOk(L, dv, top, loose, q) && RoleOk(L, dv, top, loose, p);
    }
  }

  lemma RolesCut(L: Chunks, S: Spans, dv: int, dvsize: int, top: int, topsize: int, loose: set<int>, p: int, n: nat)
    requires Roles(L, dv, dvsize, top, topsize, loose) && CanCut(L, S, p, n, Live) && p != 0
    ensures Roles(Cut(L, p, n, Live), if dv == p then p + n else dv, if dv == p then dvsize - n else dvsize,
                  if top == p then p + n else top, if top == p then topsize - n else topsize,
                  if p in loose then loose - {p} + {p + n} else loose)
  {
    CutFresh(L, S, p, n, Live);
    ChunkAt(L, S, p);
    var M := Cut(L, p, n, Live);
    var dv' := if dv == p then p + n else dv;
    var top' := if top == p then p + n else top;
    var loose' := if p in loose then loose - {p} + {p + n} else loose;
    forall q {:trigger RoleOk(M, dv', top', loose', q)} | q in M ensures RoleOk(M, dv', top', loose', q) {
      assert RoleOk(L, dv, top, loose, p);
      assert q != p + n ==> RoleOk(L, dv, top, loose, q);
    }
    assert dv in L ==> RoleOk(L, dv, top, loose, dv);
    assert top in L ==> RoleOk(L, dv, top, loose, top);
  }

  /** The chunk at `p` and its successor, the first being no special chunk. */
  lemma RolesJoin(L: Chunks, S: Spans, dv: int, dvsize: int, top: int, topsize: int, loose: set<int>, p: int)
    requires Roles(L, dv, dvsize, top, topsize, loose) && CanJoin(L, S, p)
    ensures var n := Next(L, p);
            Roles(Join(L, p), if dv == n then p else if dv == p then 0 else dv,
                if dv == n then L[p].size + dvsize else if dv == p then 0 else dvsize,
                  if top == n then p else top, if top == n then L[p].size + topsize else topsize,
                  if n in loose then loose - {n} + {p} else loose - {p})
  {
    NextAt(L, S, p);
    var n := Next(L, p);
    var M := Join(L, p);
    var dv' := if dv == n then p else if dv == p then 0 else dv;
    var top' := if top == n then p else top;
    var loose' := if n in loose then loose - {n} + {p} else loose - {p};
    forall q {:trigger RoleOk(M, dv', top', loose', q)} | q in M ensures RoleOk(M, dv', top', loose', q) {
      assert RoleOk(L, dv, top, loose, p) && RoleOk(L, dv, top, loose, n) && RoleOk(L, dv, top, loose, q);
    }
    assert dv in L ==> RoleOk(L, dv, top, loose, dv);
    assert top in L ==> RoleOk(L, dv, top, loose, top);
  }
}
