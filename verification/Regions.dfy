/** Changes of layout that add, remove, extend or shrink a whole segment or mapped region. */
module Regions {
  import opened Layout
  import opened Sizes

  /** `[base, base + size)` lies in the address space and apart from the span `g`. */
  predicate Clears(S: Spans, g: nat, base: int, size: nat)
    requires g in S
  {
    S[g].End() <= base || base + size <= S[g].base
  }

  ghost predicate FreeRegion(S: Spans, base: int, size: nat) {
    && 0 < base && base % 8 == 0 && size % 8 == 0 && base + size <= SPACE
    && forall g {:trigger Clears(S, g, base, size)} :: g in S ==> Clears(S, g, base, size)
  }

  /** No chunk lies in a free region. */
  lemma NoneInside(L: Chunks, S: Spans, base: int, size: nat, q: int)
    requires Tiled(L, S) && FreeRegion(S, base, size) && q in L
    ensures q + L[q].size <= base || base + size <= q
  {
    ChunkAt(L, S, q);
    assert Clears(S, L[q].home, base, size);
  }

  lemma SpanHolds(L: Chunks, S: Spans, h: nat)
    requires Tiled(L, S) && h in S
    ensures MIN_CHUNK <= S[h].size && 0 < S[h].base
  {
    assert SpanOk(L, S, h);
    ChunkAt(L, S, S[h].First());
  }

  // ---- a new region, with one chunk

  function AddChunk(L: Chunks, h: nat, base: int, size: nat, k: Kind, lead: nat := 0): Chunks
    requires lead <= size
  {
    L[base + lead := Chunk(size - lead, lead, k, h)]
  }

  function AddSpan(S: Spans, h: nat, base: int, size: nat, lead: nat := 0): Spans {
    S[h := Span(base, size, lead)]
  }

  /** A chunk that may stand in a region of its own, `lead` bytes into it. */
  predicate StandsAlone(h: nat, base: int, size: nat, k: Kind, lead: nat) {
    && Last(k) && lead <= size && ShapeOk(Chunk(size - lead, lead, k, h), base + lead)
    && (if k.Mapped? then size % PAGE == 0 else lead == 0)
  }

  lemma AddTiled(L: Chunks, S: Spans, h: nat, base: int, size: nat, k: Kind, lead: nat := 0)
    requires Tiled(L, S) && h !in S && FreeRegion(S, base, size) && StandsAlone(h, base, size, k, lead)
    ensures base + lead !in L && Tiled(AddChunk(L, h, base, size, k, lead), AddSpan(S, h, base, size, lead))
  {
    var M, T, b := AddChunk(L, h, base, size, k, lead), AddSpan(S, h, base, size, lead), base + lead;
    assert b !in L by {
      if b in L {
        ChunkAt(L, S, b);
        NoneInside(L, S, base, size, b);
      }
    }
    forall g {:trigger SpanOk(M, T, g)} | g in T ensures SpanOk(M, T, g) {
      assert g != h ==> SpanOk(L, S, g);
    }
    forall g, f {:trigger SpansApart(T, g, f)} | g in T && f in T && g != f ensures SpansApart(T, g, f) {
      assert g != h ==> Clears(S, g, base, size);
      assert f != h ==> Clears(S, f, base, size);
      assert g != h && f != h ==> SpansApart(S, g, f);
    }
    forall q {:trigger ChunkOk(M, T, q)} | q in M ensures ChunkOk(M, T, q) {
      assert q != b ==> ChunkOk(L, S, q);
    }
    forall q, t {:trigger Apart(M, q, t)} | q in M && t in M && q != t ensures Apart(M, q, t) {
      if q == b {
        NoneInside(L, S, base, size, t);
      } else if t == b {
        NoneInside(L, S, base, size, q);
      } else {
        assert Apart(L, q, t);
      }
    }
    forall q {:trigger Guarded(M, q)} | q in M ensures Guarded(M, q) {
      assert q != b ==> Guarded(L, q) && ChunkOk(L, S, q);
    }
  }

  // ---- a region given back

  function DropChunks(L: Chunks, h: nat): Chunks {
    map p | p in L && L[p].home != h :: L[p]
  }

  lemma DropTiled(L: Chunks, S: Spans, h: nat)
    requires Tiled(L, S) && h in S
    ensures Tiled(DropChunks(L, h), S - {h})
  {
    var M, T := DropChunks(L, h), S - {h};
    forall g {:trigger SpanOk(M, T, g)} | g in T ensures SpanOk(M, T, g) {
      assert SpanOk(L, S, g);
    }
    forall g, f {:trigger SpansApart(T, g, f)} | g in T && f in T && g != f ensures SpansApart(T, g, f) {
      assert SpansApart(S, g, f);
    }
    forall q {:trigger ChunkOk(M, T, q)} | q in M ensures ChunkOk(M, T, q) {
      assert ChunkOk(L, S, q);
    }
    forall q, t {:trigger Apart(M, q, t)} | q in M && t in M && q != t ensures Apart(M, q, t) {
      assert Apart(L, q, t);
    }
    forall q {:trigger Guarded(M, q)} | q in M ensures Guarded(M, q) {
      assert Guarded(L, q) && ChunkOk(L, S, q);
    }
  }

  // ---- the last chunk of a region made longer or shorter

  function Resize(L: Chunks, p: int, size: nat): Chunks
    requires p in L
  {
    L[p := L[p].(size := size)]
  }

  function ResizeSpan(L: Chunks, S: Spans, p: int, size: nat): Spans
    requires p in L && L[p].home in S && S[L[p].home].base <= p
  {
    S[L[p].home := Span(S[L[p].home].base, p + size - S[L[p].home].base)]
  }

  ghost predicate CanResize(L: Chunks, S: Spans, p: int, size: nat) {
    && Tiled(L, S) && p in L && Last(L[p].kind) && !L[p].kind.Mapped? && ShapeOk(L[p].(size := size), p)
    && (L[p].size < size ==> FreeRegion(S, p + L[p].size, size - L[p].size))
  }

  lemma ResizeTiled(L: Chunks, S: Spans, p: int, size: nat)
    requires CanResize(L, S, p, size)
    ensures L[p].home in S && S[L[p].home].base <= p
    ensures Tiled(Resize(L, p, size), ResizeSpan(L, S, p, size))
  {
    var h := L[p].home;
    ChunkAt(L, S, p);
    var M, T := Resize(L, p, size), ResizeSpan(L, S, p, size);
    forall g {:trigger SpanOk(M, T, g)} | g in T ensures SpanOk(M, T, g) {
      assert SpanOk(L, S, g);
    }
    forall g, f {:trigger SpansApart(T, g, f)} | g in T && f in T && g != f ensures SpansApart(T, g, f) {
      SpanHolds(L, S, g);
      SpanHolds(L, S, f);
      assert SpansApart(S, g, f);
      assert L[p].size < size ==>
        Clears(S, g, p + L[p].size, size - L[p].size) && Clears(S, f, p + L[p].size, size - L[p].size);
    }
    forall q {:trigger ChunkOk(M, T, q)} | q in M ensures ChunkOk(M, T, q) {
      ResizePlace(L, S, p, size, q);
    }
    forall q, t {:trigger Apart(M, q, t)} | q in M && t in M && q != t ensures Apart(M, q, t) {
      ResizeApart(L, S, p, size, q, t);
    }
    forall q {:trigger Guarded(M, q)} | q in M ensures Guarded(M, q) {
      assert Guarded(L, q) && ChunkOk(L, S, q);
    }
  }

  lemma ResizePlace(L: Chunks, S: Spans, p: int, size: nat, q: int)
    requires CanResize(L, S, p, size) && q in L && L[p].home in S && S[L[p].home].base <= p
    ensures ChunkOk(Resize(L, p, size), ResizeSpan(L, S, p, size), q)
  {
    ChunkAt(L, S, p);
    ChunkAt(L, S, q);
    assert q != p ==> Apart(L, p, q);
  }

  lemma ResizeApart(L: Chunks, S: Spans, p: int, size: nat, q: int, t: int)
    requires CanResize(L, S, p, size) && q in L && t in L && q != t
    ensures Apart(Resize(L, p, size), q, t)
  {
    ChunkAt(L, S, q);
    ChunkAt(L, S, t);
    assert Apart(L, q, t);
    if L[p].size < size {
      NoneInside(L, S, p + L[p].size, size - L[p].size, q);
      NoneInside(L, S, p + L[p].size, size - L[p].size, t);
    }
  }

  // ---- memory in front of a region

  /** A chunk of `n` bytes put in front of the first chunk of segment `h`. */
  function Prepend(L: Chunks, S: Spans, h: nat, n: nat): Chunks
    requires h in S && S[h].base in L
  {
    var b := S[h].base;
    L[b := L[b].(prv := n)][b - n := Chunk(n, 0, Live, h)]
  }

  function PrependSpan(S: Spans, h: nat, n: nat): Spans
    requires h in S
  {
    S[h := Span(S[h].base - n, S[h].size + n)]
  }

  ghost predicate CanPrepend(L: Chunks, S: Spans, h: nat, n: nat) {
    && Tiled(L, S) && h in S && S[h].lead == 0 && S[h].base in L && !L[S[h].base].kind.Mapped? && MIN_CHUNK <= n
    && FreeRegion(S, S[h].base - n, n)
  }

  lemma PrependFresh(L: Chunks, S: Spans, h: nat, n: nat)
    requires CanPrepend(L, S, h, n)
    ensures S[h].base - n !in L && L[S[h].base].home == h && L[S[h].base].prv == 0
  {
    var b := S[h].base;
    assert SpanOk(L, S, h);
    ChunkAt(L, S, b);
    if b - n in L {
      ChunkAt(L, S, b - n);
      NoneInside(L, S, b - n, n, b - n);
    }
  }

  lemma PrependTiled(L: Chunks, S: Spans, h: nat, n: nat)
    requires CanPrepend(L, S, h, n)
    ensures Tiled(Prepend(L, S, h, n), PrependSpan(S, h, n))
  {
    var b := S[h].base;
    PrependFresh(L, S, h, n);
    var M, T := Prepend(L, S, h, n), PrependSpan(S, h, n);
    forall g {:trigger SpanOk(M, T, g)} | g in T ensures SpanOk(M, T, g) {
      assert SpanOk(L, S, g);
    }
    forall g, f {:trigger SpansApart(T, g, f)} | g in T && f in T && g != f ensures SpansApart(T, g, f) {
      SpanHolds(L, S, g);
      SpanHolds(L, S, f);
      assert SpansApart(S, g, f);
      assert Clears(S, g, b - n, n) && Clears(S, f, b - n, n);
    }
    forall q {:trigger ChunkOk(M, T, q)} | q in M ensures ChunkOk(M, T, q) {
      PrependPlace(L, S, h, n, q);
    }
    forall q, t {:trigger Apart(M, q, t)} | q in M && t in M && q != t ensures Apart(M, q, t) {
      if q == b - n {
        NoneInside(L, S, b - n, n, t);
      } else if t == b - n {
        NoneInside(L, S, b - n, n, q);
      } else {
        assert Apart(L, q, t);
      }
    }
    forall q {:trigger Guarded(M, q)} | q in M ensures Guarded(M, q) {
      assert q != b - n ==> Guarded(L, q) && ChunkOk(L, S, q);
    }
  }

  lemma PrependPlace(L: Chunks, S: Spans, h: nat, n: nat, q: int)
    requires CanPrepend(L, S, h, n) && q in Prepend(L, S, h, n)
    ensures ChunkOk(Prepend(L, S, h, n), PrependSpan(S, h, n), q)
  {
    PrependFresh(L, S, h, n);
    ChunkAt(L, S, S[h].base);
    assert q != S[h].base - n ==> ChunkOk(L, S, q);
  }

  // ---- a mapped chunk put elsewhere in its region, or its region elsewhere

  /** The mapped chunk at `p` is now the one in the region `x`. */
  function Remount(L: Chunks, p: int, x: Span): Chunks
    requires p in L && x.lead <= x.size
  {
    (L - {p})[x.First() := Chunk(x.size - x.lead, x.lead, Mapped, L[p].home)]
  }

  ghost predicate CanRemount(L: Chunks, S: Spans, p: int, x: Span) {
    && Tiled(L, S) && p in L && L[p].kind.Mapped? && FreeRegion(S - {L[p].home}, x.base, x.size)
    && x.size % PAGE == 0 && x.lead % 8 == 0 && x.lead + MMAP_PAD + MIN_LARGE <= x.size
  }

  /** No other chunk is in the way. */
  lemma RemountClear(L: Chunks, S: Spans, p: int, x: Span, q: int)
    requires CanRemount(L, S, p, x) && q in L && q != p
    ensures L[q].home != L[p].home && (q + L[q].size <= x.base || x.End() <= q)
  {
    ChunkAt(L, S, p);
    ChunkAt(L, S, q);
    assert Apart(L, p, q);
    if L[q].home != L[p].home {
      assert Clears(S - {L[p].home}, L[q].home, x.base, x.size);
    }
  }

  lemma RemountTiled(L: Chunks, S: Spans, p: int, x: Span)
    requires CanRemount(L, S, p, x)
    ensures L[p].home in S && Tiled(Remount(L, p, x), S[L[p].home := x])
  {
    var h := L[p].home;
    ChunkAt(L, S, p);
    var M, T := Remount(L, p, x), S[h := x];
    forall g {:trigger SpanOk(M, T, g)} | g in T ensures SpanOk(M, T, g) {
      if g != h {
        assert SpanOk(L, S, g);
        RemountChunk(L, S, p, x, S[g].First());
      }
    }
    forall g, f {:trigger SpansApart(T, g, f)} | g in T && f in T && g != f ensures SpansApart(T, g, f) {
      assert g != h ==> Clears(S - {h}, g, x.base, x.size);
      assert f != h ==> Clears(S - {h}, f, x.base, x.size);
      assert g != h && f != h ==> SpansApart(S, g, f);
    }
    forall q {:trigger ChunkOk(M, T, q)} | q in M ensures ChunkOk(M, T, q) {
      if q != x.First() {
        RemountChunk(L, S, p, x, q);
      }
    }
    forall q, t {:trigger Apart(M, q, t)} | q in M && t in M && q != t ensures Apart(M, q, t) {
      if q != x.First() {
        RemountClear(L, S, p, x, q);
      }
      if t != x.First() {
        RemountClear(L, S, p, x, t);
      }
      assert q != x.First() && t != x.First() ==> Apart(L, q, t);
    }
    forall q {:trigger Guarded(M, q)} | q in M ensures Guarded(M, q) {
      if q != x.First() {
        RemountChunk(L, S, p, x, q);
      }
    }
  }

  lemma RemountChunk(L: Chunks, S: Spans, p: int, x: Span, q: int)
    requires CanRemount(L, S, p, x) && q in L && q != p
    ensures q != x.First() && L[p].home in S && ChunkOk(Remount(L, p, x), S[L[p].home := x], q)
    ensures Guarded(Remount(L, p, x), q)
    ensures Pin(Remount(L, p, x), q) == Pin(L, q)
  {
    ChunkAt(L, S, p);
    ChunkAt(L, S, q);
    RemountClear(L, S, p, x, q);
    if !Last(L[q].kind) {
      ChunkAt(L, S, Next(L, q));
      RemountClear(L, S, p, x, Next(L, q));
    }
    if L[q].prv > 0 && !L[q].kind.Mapped? {
      ChunkAt(L, S, q - L[q].prv);
      RemountClear(L, S, p, x, q - L[q].prv);
    }
  }

  // ---- the top chunk of an older segment becomes its record

  lemma RetireTiled(L: Chunks, S: Spans, p: int)
    requires Tiled(L, S) && p in L && L[p].kind.Top?
    ensures Tiled(Reuse(L, p, Record), S)
  {
    var M := Reuse(L, p, Record);
    forall h {:trigger SpanOk(M, S, h)} | h in S ensures SpanOk(M, S, h) {
      assert SpanOk(L, S, h);
    }
    forall q {:trigger ChunkOk(M, S, q)} | q in M ensures ChunkOk(M, S, q) {
      assert ChunkOk(L, S, q);
    }
    forall q, t {:trigger Apart(M, q, t)} | q in M && t in M && q != t ensures Apart(M, q, t) {
      assert Apart(L, q, t);
    }
    forall q {:trigger Guarded(M, q)} | q in M ensures Guarded(M, q) {
      assert Guarded(L, q) && ChunkOk(L, S, q);
    }
  }
}
