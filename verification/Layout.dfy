/** The physical layout of a heap: which chunks tile which segment.

    A layout maps the address of each chunk to its size, the size of the chunk before it and what
    the chunk is used for.  The chunk that ends a segment (the top chunk, or the record of an
    older segment together with its fenceposts) extends to the end of the segment. */
module Layout {
  import opened Sizes

  datatype Kind =
    | Live     // handed to the client
    | Mapped   // handed to the client, alone in a region mapped for it
    | Record   // segment record and fenceposts, at the end of an older segment
    | Top      // the top chunk and the space reserved behind it
    | Victim   // the designated victim
    | Binned   // in a small bin or a tree bin
    | Loose    // free, and in no structure while an operation is at work on it

  predicate InUse(k: Kind) { k.Live? || k.Mapped? || k.Record? }

  /** In the hands of the client. */
  predicate Owned(k: Kind) { k.Live? || k.Mapped? }

  predicate Last(k: Kind) { k.Top? || k.Record? || k.Mapped? }

  /** `prv` is the size of the chunk before, 0 for the first chunk of a segment; for a mapped chunk it is the
      distance from the start of its region.  `flag` is the bit of the head word that is left to the users of
      the allocator. */
  datatype Chunk = Chunk(size: nat, prv: nat, kind: Kind, home: nat, flag: bool := false)

  type Chunks = map<int, Chunk>

  /** A segment, or a region mapped for one chunk, which begins `lead` bytes into it. */
  datatype Span = Span(base: int, size: nat, lead: nat := 0) {
    function End(): int { base + size }
    function First(): int { base + lead }
  }

  type Spans = map<nat, Span>

  /** The chunk at `b` follows the chunk at `a`. */
  predicate Linked(L: Chunks, a: int, b: int) {
    && a in L && b in L && !Last(L[a].kind)
    && a + L[a].size == b && L[b].prv == L[a].size && L[a].home == L[b].home
  }

  predicate ShapeOk(c: Chunk, p: int) {
    && p % 8 == 0 && c.size % 8 == 0 && MIN_CHUNK <= c.size && (c.flag ==> Owned(c.kind))
    && (c.kind.Top? ==> TOP_FOOT < c.size) && (c.kind.Record? ==> TOP_FOOT <= c.size)
    && (c.kind.Mapped? ==> MMAP_PAD + MIN_LARGE <= c.size)
  }

  ghost predicate PlaceOk(L: Chunks, S: Spans, p: int)
    requires p in L
  {
    var c := L[p];
    && c.home in S && S[c.home].base <= p && p + c.size <= S[c.home].End()
    && (c.prv == 0 || c.kind.Mapped? <==> p == S[c.home].First())
    && (if c.kind.Mapped? then c.prv == S[c.home].lead && S[c.home].size % PAGE == 0 else S[c.home].lead == 0)
    && (Last(c.kind) <==> p + c.size == S[c.home].End())
    && (!Last(c.kind) ==> Linked(L, p, p + c.size))
    && (c.prv > 0 && !c.kind.Mapped? ==> Linked(L, p - c.prv, p))
  }

  ghost predicate ChunkOk(L: Chunks, S: Spans, p: int)
    requires p in L
  {
    ShapeOk(L[p], p) && PlaceOk(L, S, p)
  }

  /** The chunk before `p` is in use, or there is none: the PINUSE bit. */
  predicate Pin(L: Chunks, p: int)
    requires p in L
  {
    L[p].prv == 0 || L[p].kind.Mapped? || (p - L[p].prv in L && InUse(L[p - L[p].prv].kind))
  }

  /** A free chunk has no free chunk before it. */
  predicate Guarded(L: Chunks, p: int)
    requires p in L
  {
    !InUse(L[p].kind) ==> Pin(L, p)
  }

  predicate Apart(L: Chunks, p: int, q: int)
    requires p in L && q in L
  {
    p + L[p].size <= q || q + L[q].size <= p
  }

  ghost predicate SpanOk(L: Chunks, S: Spans, h: nat)
    requires h in S
  {
    && 0 < S[h].base && S[h].base % 8 == 0 && S[h].size % 8 == 0 && S[h].End() <= SPACE
    && S[h].First() in L && L[S[h].First()].home == h
  }

  predicate SpansApart(S: Spans, g: nat, h: nat)
    requires g in S && h in S
  {
    S[g].End() <= S[h].base || S[h].End() <= S[g].base
  }

  /** The chunks tile the segments exactly, and no two free chunks are neighbours. */
  ghost predicate Tiled(L: Chunks, S: Spans) {
    && (forall h {:trigger SpanOk(L, S, h)} :: h in S ==> SpanOk(L, S, h))
    && (forall g, h {:trigger SpansApart(S, g, h)} :: g in S && h in S && g != h ==> SpansApart(S, g, h))
    && (forall p {:trigger ChunkOk(L, S, p)} :: p in L ==> ChunkOk(L, S, p))
    && (forall p, q {:trigger Apart(L, p, q)} :: p in L && q in L && p != q ==> Apart(L, p, q))
    && (forall p {:trigger Guarded(L, p)} :: p in L ==> Guarded(L, p))
  }

  function Next(L: Chunks, p: int): int
    requires p in L
  {
    p + L[p].size
  }

  // ---- three changes of layout

  /** The chunk at `p` put to another use. */
  function Reuse(L: Chunks, p: int, k: Kind): Chunks
    requires p in L
  {
    L[p := L[p].(kind := k, flag := false)]
  }

  /** The chunk at `p` cut in two at `p + n`. */
  function Cut(L: Chunks, p: int, n: nat, k: Kind): Chunks
    requires p in L && n <= L[p].size
  {
    var c := L[p];
    var rest := c.size - n;
    var M := L[p := c.(size := n, kind := k, flag := false)][p + n := Chunk(rest, n, c.kind, c.home)];
    if p + c.size in L && !Last(c.kind) then M[p + c.size := L[p + c.size].(prv := rest)] else M
  }

  /** The chunk at `p` and the one after it made one, used like the second. */
  function Join(L: Chunks, p: int): Chunks
    requires p in L && Next(L, p) in L
  {
    var n := Next(L, p);
    var size := L[p].size + L[n].size;
    var M := (L - {n})[p := L[p].(size := size, kind := L[n].kind, flag := false)];
    if p + size in L && !Last(L[n].kind) then M[p + size := L[p + size].(prv := size)] else M
  }

  // ---- reading a tiled layout

  lemma ChunkAt(L: Chunks, S: Spans, p: int)
    requires Tiled(L, S) && p in L
    ensures ChunkOk(L, S, p) && Guarded(L, p)
    ensures SpanOk(L, S, L[p].home)
    ensures 0 < p && p + L[p].size <= SPACE
  {
    assert ChunkOk(L, S, p) && Guarded(L, p);
    assert SpanOk(L, S, L[p].home);
  }

  /** A chunk that is not the last of its segment, with its successor. */
  lemma NextAt(L: Chunks, S: Spans, p: int)
    requires Tiled(L, S) && p in L && !Last(L[p].kind)
    ensures Linked(L, p, Next(L, p)) && ChunkOk(L, S, p) && ChunkOk(L, S, Next(L, p))
    ensures Guarded(L, p) && Guarded(L, Next(L, p))
    ensures Pin(L, Next(L, p)) <==> InUse(L[p].kind)
    ensures p < Next(L, p)
  {
    ChunkAt(L, S, p);
    ChunkAt(L, S, Next(L, p));
  }

  lemma ApartAt(L: Chunks, S: Spans, p: int, q: int)
    requires Tiled(L, S) && p in L && q in L && p != q
    ensures Apart(L, p, q)
  {
  }

  // ---- the changes keep a layout tiled

  lemma ReuseTiled(L: Chunks, S: Spans, p: int, k: Kind)
    requires Tiled(L, S) && p in L && !Last(L[p].kind) && !Last(k)
    requires !InUse(k) ==> Pin(L, p) && Next(L, p) in L && InUse(L[Next(L, p)].kind)
    ensures Tiled(Reuse(L, p, k), S)
  {
    var M := Reuse(L, p, k);
    NextAt(L, S, p);
    forall h {:trigger SpanOk(M, S, h)} | h in S ensures SpanOk(M, S, h) {
      assert SpanOk(L, S, h);
    }
    forall q {:trigger ChunkOk(M, S, q)} | q in M ensures ChunkOk(M, S, q) {
      ChunkAt(L, S, q);
    }
    forall q {:trigger Guarded(M, q)} | q in M ensures Guarded(M, q) {
      ChunkAt(L, S, q);
    }
    forall q, r {:trigger Apart(M, q, r)} | q in M && r in M && q != r ensures Apart(M, q, r) {
      assert Apart(L, q, r);
    }
  }

  ghost predicate CanCut(L: Chunks, S: Spans, p: int, n: nat, k: Kind) {
    && Tiled(L, S) && p in L && !Last(k) && !L[p].kind.Mapped?
    && n % 8 == 0 && MIN_CHUNK <= n && MIN_CHUNK <= L[p].size - n
    && (L[p].kind.Top? ==> TOP_FOOT < L[p].size - n) && (L[p].kind.Record? ==> TOP_FOOT <= L[p].size - n)
    && (!InUse(k) ==> Pin(L, p) && InUse(L[p].kind))
    && (!InUse(L[p].kind) ==> InUse(k))
  }

  lemma CutFresh(L: Chunks, S: Spans, p: int, n: nat, k: Kind)
    requires CanCut(L, S, p, n, k)
    ensures p + n !in L
    ensures Last(L[p].kind) ==> Next(L, p) !in L || L[Next(L, p)].prv == 0 || L[Next(L, p)].kind.Mapped?
  {
    ChunkAt(L, S, p);
    assert p + n in L ==> ChunkOk(L, S, p + n);
    assert p + n in L ==> Apart(L, p, p + n);
    var e := Next(L, p);
    assert e in L ==> ChunkOk(L, S, e);
    assert e in L && L[e].prv > 0 && !L[e].kind.Mapped? && e - L[e].prv != p ==> Apart(L, p, e - L[e].prv);
  }

  lemma CutPlace(L: Chunks, S: Spans, p: int, n: nat, k: Kind, q: int)
    requires CanCut(L, S, p, n, k) && q in Cut(L, p, n, k)
    ensures PlaceOk(Cut(L, p, n, k), S, q)
  {
    CutFresh(L, S, p, n, k);
    ChunkAt(L, S, p);
    if q != p + n {
      ChunkAt(L, S, q);
    }
  }

  lemma CutChunk(L: Chunks, S: Spans, p: int, n: nat, k: Kind, q: int)
    requires CanCut(L, S, p, n, k) && q in Cut(L, p, n, k)
    ensures ChunkOk(Cut(L, p, n, k), S, q)
  {
    ChunkAt(L, S, p);
    if q != p + n {
      ChunkAt(L, S, q);
    }
    CutPlace(L, S, p, n, k, q);
  }

  lemma CutGuarded(L: Chunks, S: Spans, p: int, n: nat, k: Kind, q: int)
    requires CanCut(L, S, p, n, k) && q in Cut(L, p, n, k)
    ensures Guarded(Cut(L, p, n, k), q)
  {
    CutFresh(L, S, p, n, k);
    ChunkAt(L, S, p);
    if q != p + n {
      ChunkAt(L, S, q);
    }
  }

  lemma CutApart(L: Chunks, S: Spans, p: int, n: nat, k: Kind, q: int, t: int)
    requires CanCut(L, S, p, n, k)
    requires q in Cut(L, p, n, k) && t in Cut(L, p, n, k) && q != t
    ensures Apart(Cut(L, p, n, k), q, t)
  {
    var r := p + n;
    CutFresh(L, S, p, n, k);
    assert q != r && t != r ==> Apart(L, q, t);
    assert q != p && q != r ==> Apart(L, q, p);
    assert t != p && t != r ==> Apart(L, t, p);
  }

  lemma CutTiled(L: Chunks, S: Spans, p: int, n: nat, k: Kind)
    requires CanCut(L, S, p, n, k)
    ensures Tiled(Cut(L, p, n, k), S)
  {
    var M := Cut(L, p, n, k);
    ChunkAt(L, S, p);
    forall h {:trigger SpanOk(M, S, h)} | h in S ensures SpanOk(M, S, h) {
      assert SpanOk(L, S, h);
      CutFresh(L, S, p, n, k);
    }
    forall q {:trigger ChunkOk(M, S, q)} | q in M ensures ChunkOk(M, S, q) {
      CutChunk(L, S, p, n, k, q);
    }
    forall q {:trigger Guarded(M, q)} | q in M ensures Guarded(M, q) {
      CutGuarded(L, S, p, n, k, q);
    }
    forall q, t {:trigger Apart(M, q, t)} | q in M && t in M && q != t ensures Apart(M, q, t) {
      CutApart(L, S, p, n, k, q, t);
    }
  }

  ghost predicate CanJoin(L: Chunks, S: Spans, p: int) {
    && Tiled(L, S) && p in L && !Last(L[p].kind)
    && Next(L, p) in L && (!InUse(L[Next(L, p)].kind) ==> Pin(L, p))
  }

  lemma JoinPlace(L: Chunks, S: Spans, p: int, q: int)
    requires CanJoin(L, S, p) && q in Join(L, p)
    ensures PlaceOk(Join(L, p), S, q)
  {
    hide Tiled, Guarded, Pin;
    var n := Next(L, p);
    NextAt(L, S, p);
    if !Last(L[n].kind) {
      NextAt(L, S, n);
    }
    ChunkAt(L, S, q);
  }

  lemma JoinChunk(L: Chunks, S: Spans, p: int, q: int)
    requires CanJoin(L, S, p) && q in Join(L, p)
    ensures ChunkOk(Join(L, p), S, q)
  {
    NextAt(L, S, p);
    ChunkAt(L, S, q);
    JoinPlace(L, S, p, q);
  }

  lemma JoinGuarded(L: Chunks, S: Spans, p: int, q: int)
    requires CanJoin(L, S, p) && q in Join(L, p)
    ensures Guarded(Join(L, p), q)
  {
    var n := Next(L, p);
    NextAt(L, S, p);
    if !Last(L[n].kind) {
      NextAt(L, S, n);
    }
    ChunkAt(L, S, q);
  }

  lemma JoinApart(L: Chunks, S: Spans, p: int, q: int, t: int)
    requires CanJoin(L, S, p) && q in Join(L, p) && t in Join(L, p) && q != t
    ensures Apart(Join(L, p), q, t)
  {
    var n := Next(L, p);
    assert Apart(L, q, t);
    assert t != p ==> Apart(L, n, t) && Apart(L, p, t);
    assert q != p ==> Apart(L, n, q) && Apart(L, p, q);
  }

  lemma JoinTiled(L: Chunks, S: Spans, p: int)
    requires CanJoin(L, S, p)
    ensures Tiled(Join(L, p), S)
  {
    var M := Join(L, p);
    NextAt(L, S, p);
    forall h {:trigger SpanOk(M, S, h)} | h in S ensures SpanOk(M, S, h) {
      assert SpanOk(L, S, h);
    }
    forall q {:trigger ChunkOk(M, S, q)} | q in M ensures ChunkOk(M, S, q) {
      JoinChunk(L, S, p, q);
    }
    forall q {:trigger Guarded(M, q)} | q in M ensures Guarded(M, q) {
      JoinGuarded(L, S, p, q);
    }
    forall q, t {:trigger Apart(M, q, t)} | q in M && t in M && q != t ensures Apart(M, q, t) {
      JoinApart(L, S, p, q, t);
    }
  }

  // ---- the free space is determined by the chunks in use

  /** The same chunks are in use in both layouts. */
  ghost predicate SameUse(L: Chunks, M: Chunks) {
    && (forall p {:trigger p in L} :: p in L && InUse(L[p].kind) ==>
            p in M && InUse(M[p].kind) && M[p].size == L[p].size)
    && (forall p {:trigger p in M} :: p in M && InUse(M[p].kind) ==> p in L && InUse(L[p].kind))
  }

  lemma NotLonger(L: Chunks, M: Chunks, S: Spans, p: int)
    requires Tiled(L, S) && Tiled(M, S) && SameUse(L, M)
    requires p in L && p in M && L[p].home == M[p].home
    ensures M[p].size <= L[p].size
  {
    ChunkAt(L, S, p);
    ChunkAt(M, S, p);
    if !InUse(L[p].kind) && !Last(L[p].kind) {
      NextAt(L, S, p);
      assert Apart(M, p, Next(L, p));
    }
  }

  lemma {:induction false} SameAt(L: Chunks, M: Chunks, S: Spans, p: int)
    requires Tiled(L, S) && Tiled(M, S) && SameUse(L, M) && p in L
    ensures p in M && M[p].size == L[p].size && M[p].home == L[p].home
    decreases p
  {
    ChunkAt(L, S, p);
    if L[p].prv == 0 || L[p].kind.Mapped? {
      assert SpanOk(M, S, L[p].home);
    } else {
      var q := p - L[p].prv;
      ChunkAt(L, S, q);
      SameAt(L, M, S, q);
      ChunkAt(M, S, q);
    }
    NotLonger(L, M, S, p);
    SameUseSym(L, M);
    NotLonger(M, L, S, p);
  }

  lemma SameUseSym(L: Chunks, M: Chunks)
    requires SameUse(L, M)
    ensures SameUse(M, L)
  {
  }

  /** Two layouts of the same segments with the same chunks in use have the same free chunks: the
      free chunks are the gaps, whatever the order of the frees that made them. */
  lemma LayoutIsDetermined(L: Chunks, M: Chunks, S: Spans)
    requires Tiled(L, S) && Tiled(M, S) && SameUse(L, M)
    ensures L.Keys == M.Keys
    ensures forall p :: p in L ==> p in M && L[p].size == M[p].size && L[p].prv == M[p].prv
                                   && L[p].home == M[p].home && InUse(L[p].kind) == InUse(M[p].kind)
  {
    SameUseSym(L, M);
    forall p | p in M ensures p in L {
      SameAt(M, L, S, p);
    }
    forall p | p in L
      ensures p in M && L[p].size == M[p].size && L[p].prv == M[p].prv && L[p].home == M[p].home
      ensures InUse(L[p].kind) == InUse(M[p].kind)
    {
      SameAt(L, M, S, p);
      SamePrv(L, M, S, p);
    }
  }

  lemma SamePrv(L: Chunks, M: Chunks, S: Spans, p: int)
    requires Tiled(L, S) && Tiled(M, S) && SameUse(L, M) && p in L && p in M && L[p].home == M[p].home
    ensures L[p].prv == M[p].prv
  {
    ChunkAt(L, S, p);
    ChunkAt(M, S, p);
    if L[p].prv > 0 && !L[p].kind.Mapped? {
      var q := p - L[p].prv;
      SameAt(L, M, S, q);
      assert q != p - M[p].prv ==> Apart(M, q, p - M[p].prv);
      ChunkAt(M, S, q);
    }
  }
}
