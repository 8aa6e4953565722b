/** The words of the heap: how memory records a layout and the links of the bins. */
module Memory {
  import opened Layout
  import opened Sizes
  import opened Words
  import SmallBins
  import TreeBins

  // Offsets of the fields of a chunk
  const HEAD: int := 8
  const FD: int := 16
  const BK: int := 24
  const LEFT: int := 32
  const RIGHT: int := 40
  const UP: int := 48
  const TAG: int := 56

  // ---- head and foot words

  /** The size in the head word: the top chunk leaves out the reserved space, a segment record and a
      mapped chunk their fenceposts. */
  function HeadSize(c: Chunk): int {
    if c.kind.Top? then c.size - TOP_FOOT
    else if c.kind.Record? then RECORD
    else if c.kind.Mapped? then c.size - MMAP_PAD
    else c.size
  }

  /** Size, FLAG4, CINUSE and PINUSE bits; a mapped chunk has neither of the last two. */
  function HeadWord(L: Chunks, p: int): int
    requires p in L
  {
    HeadSize(L[p]) + (if L[p].flag then 4 else 0)
    + (if InUse(L[p].kind) && !L[p].kind.Mapped? then 2 else 0) + (if Pin(L, p) && !L[p].kind.Mapped? then 1 else 0)
  }

  // The macros that read a head word
  function ChunkSize(w: int): int { w - w % 8 }
  predicate CInUse(w: int) { w / 2 % 2 == 1 }
  predicate PInUse(w: int) { w % 2 == 1 }
  predicate Flagged(w: int) { w / 4 % 2 == 1 }
  predicate IsInUse(w: int) { CInUse(w) || !PInUse(w) }
  predicate OkNext(p: int, n: int) { p < n }

  /** The head word of a chunk can be taken apart. */
  lemma HeadBits(L: Chunks, S: Spans, p: int)
    requires Tiled(L, S) && p in L
    ensures CInUse(HeadWord(L, p)) <==> InUse(L[p].kind) && !L[p].kind.Mapped?
    ensures PInUse(HeadWord(L, p)) <==> Pin(L, p) && !L[p].kind.Mapped?
    ensures Flagged(HeadWord(L, p)) <==> L[p].flag
    ensures ChunkSize(HeadWord(L, p)) == HeadSize(L[p])
  {
    hide InUse;
    ChunkAt(L, S, p);
    var c, d := if InUse(L[p].kind) && !L[p].kind.Mapped? then 1 else 0, if Pin(L, p)
        && !L[p].kind.Mapped? then 1 else 0;
    ThreeBits(HeadSize(L[p]), if L[p].flag then 1 else 0, c, d);
  }

  lemma ThreeBits(s: int, f: int, c: int, d: int)
    requires s % 8 == 0 && 0 <= f <= 1 && 0 <= c <= 1 && 0 <= d <= 1
    ensures var w := s + 4 * f + 2 * c + d;
            w / 4 % 2 == f && w / 2 % 2 == c && w % 2 == d && w - w % 8 == s
  {
  }

  predicate HeadOk(mem: Words, L: Chunks, p: int)
    requires p in L
  {
    At(mem, p + HEAD) == HeadWord(L, p)
  }

  /** The foot of a free chunk is the first word of the chunk after it; a mapped chunk keeps there
      its distance from the start of its region. */
  predicate FootOk(mem: Words, L: Chunks, p: int)
    requires p in L
  {
    !Pin(L, p) || L[p].kind.Mapped? ==> At(mem, p) == L[p].prv
  }

  /** Head words are up to date, except those of `H`, and feet, except those before the chunks of `F`. */
  ghost predicate Tagged(mem: Words, L: Chunks, H: set<int>, F: set<int>) {
    && (forall p {:trigger HeadOk(mem, L, p)} :: p in L && p !in H ==> HeadOk(mem, L, p))
    && (forall p {:trigger FootOk(mem, L, p)} :: p in L && p !in F ==> FootOk(mem, L, p))
  }

  // ---- words behind the last chunk of a region

  predicate FenceAt(mem: Words, a: int) { At(mem, a) == FENCEPOST }

  /** What a segment record says: its segment, and the record after it.  `home` is the region it lies in. */
  datatype Note = Note(base: int, size: int, next: int, home: nat)

  type Notes = map<int, Note>

  /** The four fields of `struct malloc_segment`, in the record chunk at `p`. */
  predicate NoteAt(mem: Words, p: int, n: Note) {
    && At(mem, p + FD) == n.base && At(mem, p + FD + WORD) == n.size && At(mem, p + FD + 2 * WORD) == n.next
    && At(mem, p + FD + 3 * WORD) == USE_MMAP
  }

  /** The head of a pretended chunk behind the top chunk, the two behind a mapped chunk, and a segment record with
      the fenceposts behind it. */
  ghost predicate TailOk(mem: Words, L: Chunks, p: int, notes: Notes)
    requires p in L
  {
    var e := p + L[p].size;
    && (L[p].kind.Top? ==> At(mem, e - TOP_FOOT + HEAD) == TOP_FOOT)
    && (L[p].kind.Mapped? ==> At(mem, e - MMAP_PAD + HEAD) == FENCEPOST && At(mem, e - MMAP_PAD + WORD + HEAD) == 0)
    && (L[p].kind.Record? ==> p in notes && NoteAt(mem, p, notes[p]) && notes[p].home == L[p].home)
    && (L[p].kind.Record? ==>
          forall a {:trigger FenceAt(mem, a)} :: p + RECORD + HEAD <= a < e && a % 8 == 0 ==> FenceAt(mem, a))
  }

  /** The words behind the last chunks are in place, except for the chunks of `T`, and only segment records are
      noted. */
  ghost predicate Tailed(mem: Words, L: Chunks, T: set<int>, notes: Notes) {
    && (forall p {:trigger TailOk(mem, L, p, notes)} :: p in L && p !in T ==> TailOk(mem, L, p, notes))
    && (forall p {:trigger p in notes} :: p in notes ==> p in L && L[p].kind.Record?)
  }

  /** The words behind a chunk depend on where it ends, and for a record on where it begins. */
  predicate SameTail(L: Chunks, q: int, M: Chunks, p: int) {
    && q in L && p in M && L[q].kind == M[p].kind && q + L[q].size == p + M[p].size
    && (L[q].kind.Record? ==> q == p && L[q].home == M[p].home)
  }

  lemma TailMoves(mem: Words, L: Chunks, q: int, M: Chunks, p: int, notes: Notes)
    requires SameTail(L, q, M, p) && TailOk(mem, L, q, notes)
    ensures TailOk(mem, M, p, notes)
  {
  }

  /** The bytes in which a chunk has its head, foot, links and payload, in front of such words; a record has only
      head and foot there. */
  function Front(c: Chunk): int {
    if c.kind.Record? then FD
    else if Last(c.kind) then HeadSize(c) + HEAD
    else c.size
  }

  // ---- words outside the heap

  predicate Misses(S: Spans, h: nat, a: int)
    requires h in S
  {
    a < S[h].base || S[h].End() <= a
  }

  predicate AlienOk(mem: Words, alien: Words, a: int)
    requires a in alien
  {
    At(mem, a) == alien[a] && (a < SmallBins.STATE || SmallBins.STATE_END <= a)
  }

  /** The words of `alien` lie outside the heap, and are untouched. */
  ghost predicate Foreign(mem: Words, S: Spans, alien: Words) {
    && (forall a {:trigger AlienOk(mem, alien, a)} :: a in alien ==> AlienOk(mem, alien, a))
    && (forall a, h {:trigger Misses(S, h, a)} :: a in alien && h in S ==> Misses(S, h, a))
  }

  // ---- link words

  predicate RingWords(mem: Words, r: SmallBins.Rings, p: int) {
    At(mem, p + FD) == At(r.fd, p) && At(mem, p + BK) == At(r.bk, p)
  }

  ghost predicate RingsStored(mem: Words, r: SmallBins.Rings) {
    && (forall p {:trigger RingWords(mem, r, p)} :: p in r.held ==> RingWords(mem, r, p))
    && (forall i {:trigger SmallBins.Header(i)} :: 0 <= i < NBINS ==> RingWords(mem, r, SmallBins.Header(i)))
  }

  predicate NodeWords(mem: Words, t: TreeBins.Tries, p: int) {
    && At(mem, p + FD) == At(t.fd, p) && At(mem, p + BK) == At(t.bk, p)
    && At(mem, p + LEFT) == At(t.left, p) && At(mem, p + RIGHT) == At(t.right, p)
    && At(mem, p + UP) == At(t.up, p) && At(mem, p + TAG) == At(t.tag, p)
  }

  predicate RootWord(mem: Words, t: TreeBins.Tries, i: nat) {
    At(mem, TreeBins.TreeBin(i)) == At(t.root, i)
  }

  ghost predicate TriesStored(mem: Words, t: TreeBins.Tries) {
    && (forall p {:trigger NodeWords(mem, t, p)} :: p in t.held ==> NodeWords(mem, t, p))
    && (forall i {:trigger RootWord(mem, t, i)} :: 0 <= i < NBINS ==> RootWord(mem, t, i))
  }

  // ---- which chunks the bins hold

  predicate BinnedAt(L: Chunks, r: SmallBins.Rings, t: TreeBins.Tries, p: int) {
    && (p in r.held ==> p in L && L[p].kind.Binned? && L[p].size == r.held[p].size && p !in t.held)
    && (p in t.held ==> p in L && L[p].kind.Binned? && L[p].size == t.held[p].size && L[p].size >= MIN_LARGE)
    && (p in L && L[p].kind.Binned? ==> p in r.held || p in t.held)
  }

  /** The bins hold exactly the chunks so marked in the layout. */
  ghost predicate Bins(L: Chunks, r: SmallBins.Rings, t: TreeBins.Tries) {
    forall p {:trigger BinnedAt(L, r, t, p)} :: BinnedAt(L, r, t, p)
  }

  // ---- payloads

  /** The payload of a live chunk runs through the first word of the chunk after it. */
  function PayloadEnd(c: Chunk): int {
    if c.kind.Mapped? then c.size - MMAP_PAD else c.size + WORD
  }

  /** Word `a` belongs to the client. */
  predicate InPayload(L: Chunks, b: int, a: int) {
    b in L && Owned(L[b].kind) && b + FD <= a < b + PayloadEnd(L[b])
  }

  /** No word of a live payload differs. */
  ghost predicate Quiet(mem: Words, mem': Words, L: Chunks) {
    forall b, a {:trigger InPayload(L, b, a)} :: InPayload(L, b, a) ==> At(mem', a) == At(mem, a)
  }

  /** What is live in `L` is live in `M`, with the same size. */
  ghost predicate LiveWithin(L: Chunks, M: Chunks) {
    forall b {:trigger b in L} :: b in L && Owned(L[b].kind) ==>
      b in M && M[b].kind == L[b].kind && M[b].size == L[b].size && M[b].home == L[b].home && M[b].flag == L[b].flag
  }

  lemma QuietWithin(mem: Words, mem': Words, L: Chunks, M: Chunks)
    requires Quiet(mem, mem', M) && LiveWithin(L, M)
    ensures Quiet(mem, mem', L)
  {
    forall b, a {:trigger InPayload(L, b, a)} | InPayload(L, b, a) ensures At(mem', a) == At(mem, a) {
      assert InPayload(M, b, a);
    }
  }

  /** Segments lie apart from the static state. */
  predicate SpanClear(S: Spans, h: nat)
    requires h in S
  {
    S[h].End() <= SmallBins.STATE || SmallBins.STATE_END <= S[h].base
  }

  ghost predicate OffState(S: Spans) {
    forall h {:trigger SpanClear(S, h)} :: h in S ==> SpanClear(S, h)
  }

  // ---- one word written

  /** Two chunks share no word. */
  lemma Locate(L: Chunks, S: Spans, p: int, k: int, q: int, j: int)
    requires Tiled(L, S) && p in L && q in L && 0 <= k < L[p].size && 0 <= j < L[q].size
    ensures p + k == q + j <==> p == q && k == j
  {
    if p != q {
      ApartAt(L, S, p, q);
    }
  }

  /** No chunk shares a word with the static state. */
  lemma ClearOfState(L: Chunks, S: Spans, p: int, k: int)
    requires Tiled(L, S) && OffState(S) && p in L && 0 <= k < L[p].size
    ensures p + k < SmallBins.STATE || SmallBins.STATE_END <= p + k
    ensures SmallBins.Outside(p)
  {
    ChunkAt(L, S, p);
    assert SpanClear(S, L[p].home);
  }

  lemma PokeTagged(mem: Words, L: Chunks, S: Spans, H: set<int>, F: set<int>, p: int, k: int, v: int)
    requires Tiled(L, S) && Tagged(mem, L, H, F) && p in L && 0 <= k < L[p].size
    ensures Tagged(mem[p + k := v], L, if k == HEAD then H + {p} else H, if k == 0 then F + {p} else F)
  {
    var m := mem[p + k := v];
    forall q {:trigger HeadOk(m, L, q)} | q in L && q !in H && (q != p || k != HEAD) ensures HeadOk(m, L, q) {
      ChunkAt(L, S, q);
      Locate(L, S, p, k, q, HEAD);
      assert HeadOk(mem, L, q);
    }
    forall q {:trigger FootOk(m, L, q)} | q in L && q !in F && (q != p || k != 0) ensures FootOk(m, L, q) {
      ChunkAt(L, S, q);
      Locate(L, S, p, k, q, 0);
      assert FootOk(mem, L, q);
    }
  }

  lemma PokeRings(mem: Words, L: Chunks, S: Spans, r: SmallBins.Rings, t: TreeBins.Tries, p: int, k: int, v: int)
    requires Tiled(L, S) && OffState(S) && Bins(L, r, t) && RingsStored(mem, r)
    requires p in L && 0 <= k < L[p].size && (k < FD || p !in r.held)
    ensures RingsStored(mem[p + k := v], r)
  {
    var m := mem[p + k := v];
    forall q {:trigger RingWords(m, r, q)} | q in r.held ensures RingWords(m, r, q) {
      assert BinnedAt(L, r, t, q);
      ChunkAt(L, S, q);
      Locate(L, S, p, k, q, FD);
      Locate(L, S, p, k, q, BK);
      assert RingWords(mem, r, q);
    }
    ClearOfState(L, S, p, k);
    forall i {:trigger SmallBins.Header(i)} | 0 <= i < NBINS ensures RingWords(m, r, SmallBins.Header(i)) {
      assert RingWords(mem, r, SmallBins.Header(i));
    }
  }

  lemma LocateLinks(L: Chunks, S: Spans, p: int, k: int, q: int)
    requires Tiled(L, S) && p in L && q in L && 0 <= k < L[p].size && MIN_LARGE <= L[q].size
    ensures p + k == q + FD <==> p == q && k == FD
    ensures p + k == q + BK <==> p == q && k == BK
    ensures p + k == q + LEFT <==> p == q && k == LEFT
    ensures p + k == q + RIGHT <==> p == q && k == RIGHT
    ensures p + k == q + UP <==> p == q && k == UP
    ensures p + k == q + TAG <==> p == q && k == TAG
  {
    Locate(L, S, p, k, q, FD);
    Locate(L, S, p, k, q, BK);
    Locate(L, S, p, k, q, LEFT);
    Locate(L, S, p, k, q, RIGHT);
    Locate(L, S, p, k, q, UP);
    Locate(L, S, p, k, q, TAG);
  }

  lemma PokeRoots(mem: Words, t: TreeBins.Tries, a: int, v: int)
    requires a < SmallBins.STATE + 640 || SmallBins.STATE_END <= a
    requires forall i {:trigger RootWord(mem, t, i)} :: 0 <= i < NBINS ==> RootWord(mem, t, i)
    ensures forall i {:trigger RootWord(mem[a := v], t, i)} :: 0 <= i < NBINS ==> RootWord(mem[a := v], t, i)
  {
    var m := mem[a := v];
    forall i {:trigger RootWord(m, t, i)} | 0 <= i < NBINS ensures RootWord(m, t, i) {
      assert RootWord(mem, t, i);
    }
  }

  lemma PokeTries(mem: Words, L: Chunks, S: Spans, r: SmallBins.Rings, t: TreeBins.Tries, p: int, k: int, v: int)
    requires Tiled(L, S) && OffState(S) && Bins(L, r, t) && TriesStored(mem, t)
    requires p in L && 0 <= k < L[p].size && (k < FD || p !in t.held)
    ensures TriesStored(mem[p + k := v], t)
  {
    var m := mem[p + k := v];
    forall q {:trigger NodeWords(m, t, q)} | q in t.held ensures NodeWords(m, t, q) {
      assert BinnedAt(L, r, t, q);
      LocateLinks(L, S, p, k, q);
      assert NodeWords(mem, t, q);
    }
    ClearOfState(L, S, p, k);
    PokeRoots(mem, t, p + k, v);
  }

  /** The link word at an offset, as seen in the tries. */
  function Link(t: TreeBins.Tries, p: int, k: int): int {
    if k == FD then At(t.fd, p) else if k == BK then At(t.bk, p)
    else if k == LEFT then At(t.left, p) else if k == RIGHT then At(t.right, p)
    else if k == UP then At(t.up, p) else At(t.tag, p)
  }

  predicate IsLink(k: int) { FD <= k <= TAG && k % 8 == 0 }

  /** The tries `u` are `t` with the link at offset `k` of chunk `q` set to `v`. */
  ghost predicate Relinked(t: TreeBins.Tries, u: TreeBins.Tries, q: int, k: int, v: int) {
    && u.held == t.held && u.root == t.root
    && forall p, j {:trigger Link(u, p, j)} :: IsLink(j) ==>
            Link(u, p, j) == if p == q && j == k then v else Link(t, p, j)
  }

  lemma PokeNodeAt(mem: Words, L: Chunks, S: Spans, t: TreeBins.Tries, u: TreeBins.Tries, q: int, k: int, v: int,
                   p: int)
    requires Tiled(L, S) && q in L && p in L && MIN_LARGE <= L[q].size && MIN_LARGE <= L[p].size
    requires IsLink(k) && Relinked(t, u, q, k, v) && NodeWords(mem, t, p)
    ensures NodeWords(mem[q + k := v], u, p)
  {
    LocateLinks(L, S, q, k, p);
    assert Link(u, p, FD) == At(u.fd, p) && Link(u, p, BK) == At(u.bk, p);
    assert Link(u, p, LEFT) == At(u.left, p) && Link(u, p, RIGHT) == At(u.right, p);
    assert Link(u, p, UP) == At(u.up, p) && Link(u, p, TAG) == At(u.tag, p);
  }

  lemma PokeNode(mem: Words, L: Chunks, S: Spans, r: SmallBins.Rings, t: TreeBins.Tries, u: TreeBins.Tries, q: int,
                 k: int, v: int)
    requires Tiled(L, S) && OffState(S) && Bins(L, r, t) && TriesStored(mem, t)
    requires q in t.held && IsLink(k) && Relinked(t, u, q, k, v)
    ensures TriesStored(mem[q + k := v], u)
  {
    var m := mem[q + k := v];
    assert BinnedAt(L, r, t, q);
    forall p {:trigger NodeWords(m, u, p)} | p in u.held ensures NodeWords(m, u, p) {
      assert BinnedAt(L, r, t, p);
      assert NodeWords(mem, t, p);
      PokeNodeAt(mem, L, S, t, u, q, k, v, p);
    }
    ClearOfState(L, S, q, k);
    PokeRoots(mem, t, q + k, v);
    forall i {:trigger RootWord(m, u, i)} | 0 <= i < NBINS ensures RootWord(m, u, i) {
      assert RootWord(m, t, i);
    }
  }

  lemma PokeTails(mem: Words, L: Chunks, S: Spans, T: set<int>, p: int, k: int, v: int, notes: Notes)
    requires Tiled(L, S) && Tailed(mem, L, T, notes) && p in L && 0 <= k < L[p].size
    ensures Tailed(mem[p + k := v], L, if k < Front(L[p]) then T else T + {p}, notes)
  {
    var m := mem[p + k := v];
    forall q {:trigger TailOk(m, L, q, notes)} | q in L && q !in T && (q != p || k < Front(L[p]))
      ensures TailOk(m, L, q, notes)
    {
      ChunkAt(L, S, q);
      assert TailOk(mem, L, q, notes);
      assert q != p ==> Apart(L, p, q);
      if L[q].kind.Record? {
        forall a {:trigger FenceAt(m, a)} | q + RECORD + HEAD <= a < q + L[q].size && a % 8 == 0 ensures FenceAt(m, a) {
          assert FenceAt(mem, a);
        }
      }
    }
  }

  lemma PokeForeign(mem: Words, L: Chunks, S: Spans, alien: Words, p: int, k: int, v: int)
    requires Tiled(L, S) && Foreign(mem, S, alien) && p in L && 0 <= k < L[p].size
    ensures Foreign(mem[p + k := v], S, alien)
  {
    var m := mem[p + k := v];
    ChunkAt(L, S, p);
    forall a {:trigger AlienOk(m, alien, a)} | a in alien ensures AlienOk(m, alien, a) {
      assert AlienOk(mem, alien, a) && Misses(S, L[p].home, a);
    }
  }

  // ---- one word of the static state written

  lemma PokeStateTails(mem: Words, L: Chunks, S: Spans, T: set<int>, alien: Words, a: int, v: int, notes: Notes)
    requires Tiled(L, S) && OffState(S) && Tailed(mem, L, T, notes) && Foreign(mem, S, alien)
    requires SmallBins.STATE <= a < SmallBins.STATE_END
    ensures Tailed(mem[a := v], L, T, notes) && Foreign(mem[a := v], S, alien)
  {
    var m := mem[a := v];
    forall q {:trigger TailOk(m, L, q, notes)} | q in L && q !in T ensures TailOk(m, L, q, notes) {
      ChunkAt(L, S, q);
      assert TailOk(mem, L, q, notes) && SpanClear(S, L[q].home);
      if L[q].kind.Record? {
        forall b {:trigger FenceAt(m, b)} | q + RECORD + HEAD <= b < q + L[q].size && b % 8 == 0 ensures FenceAt(m, b) {
          assert FenceAt(mem, b);
        }
      }
    }
    forall b {:trigger AlienOk(m, alien, b)} | b in alien ensures AlienOk(m, alien, b) {
      assert AlienOk(mem, alien, b);
    }
  }

  predicate IsHeader(q: int) { exists i :: 0 <= i < NBINS && q == SmallBins.Header(i) }

  lemma PokeStateTagged(mem: Words, L: Chunks, S: Spans, H: set<int>, F: set<int>, a: int, v: int)
    requires Tiled(L, S) && OffState(S) && Tagged(mem, L, H, F) && SmallBins.STATE <= a < SmallBins.STATE_END
    ensures Tagged(mem[a := v], L, H, F)
    ensures Quiet(mem, mem[a := v], L)
  {
    var m := mem[a := v];
    forall q {:trigger HeadOk(m, L, q)} | q in L && q !in H ensures HeadOk(m, L, q) {
      ChunkAt(L, S, q);
      ClearOfState(L, S, q, HEAD);
      assert HeadOk(mem, L, q);
    }
    forall q {:trigger FootOk(m, L, q)} | q in L && q !in F ensures FootOk(m, L, q) {
      ChunkAt(L, S, q);
      ClearOfState(L, S, q, 0);
      assert FootOk(mem, L, q);
    }
    forall b, c {:trigger InPayload(L, b, c)} | InPayload(L, b, c) ensures a != c {
      ChunkAt(L, S, b);
      if c < Next(L, b) {
        ClearOfState(L, S, b, c - b);
      } else {
        ChunkAt(L, S, Next(L, b));
        ClearOfState(L, S, Next(L, b), c - Next(L, b));
      }
    }
  }

  lemma PokeStateTries(mem: Words, L: Chunks, S: Spans, r: SmallBins.Rings, t: TreeBins.Tries, a: int, v: int)
    requires Tiled(L, S) && OffState(S) && Bins(L, r, t) && TriesStored(mem, t)
    requires SmallBins.STATE <= a < SmallBins.STATE + 640
    ensures TriesStored(mem[a := v], t)
  {
    var m := mem[a := v];
    forall q {:trigger NodeWords(m, t, q)} | q in t.held ensures NodeWords(m, t, q) {
      assert BinnedAt(L, r, t, q);
      ClearOfState(L, S, q, FD);
      ClearOfState(L, S, q, TAG);
      assert NodeWords(mem, t, q);
    }
    PokeRoots(mem, t, a, v);
  }

  lemma PokeRoot(mem: Words, L: Chunks, S: Spans, r: SmallBins.Rings, t: TreeBins.Tries, i: nat, v: int)
    requires Tiled(L, S) && OffState(S) && Bins(L, r, t) && TriesStored(mem, t) && i < NBINS
    ensures TriesStored(mem[TreeBins.TreeBin(i) := v], t.(root := t.root[i := v]))
  {
    var m := mem[TreeBins.TreeBin(i) := v];
    var u := t.(root := t.root[i := v]);
    forall q {:trigger NodeWords(m, u, q)} | q in u.held ensures NodeWords(m, u, q) {
      assert BinnedAt(L, r, t, q);
      ClearOfState(L, S, q, FD);
      ClearOfState(L, S, q, TAG);
      assert NodeWords(mem, t, q);
    }
    forall j {:trigger RootWord(m, u, j)} | 0 <= j < NBINS ensures RootWord(m, u, j) {
      assert RootWord(mem, t, j);
    }
  }

  lemma PokeRootRings(mem: Words, L: Chunks, S: Spans, r: SmallBins.Rings, t: TreeBins.Tries, a: int, v: int)
    requires Tiled(L, S) && OffState(S) && Bins(L, r, t) && RingsStored(mem, r)
    requires SmallBins.STATE + 640 <= a < SmallBins.STATE_END
    ensures RingsStored(mem[a := v], r)
  {
    var m := mem[a := v];
    forall q {:trigger RingWords(m, r, q)} | q in r.held ensures RingWords(m, r, q) {
      assert BinnedAt(L, r, t, q);
      ChunkAt(L, S, q);
      ClearOfState(L, S, q, FD);
      ClearOfState(L, S, q, BK);
      assert RingWords(mem, r, q);
    }
    forall j {:trigger SmallBins.Header(j)} | 0 <= j < NBINS ensures RingWords(m, r, SmallBins.Header(j)) {
      assert RingWords(mem, r, SmallBins.Header(j));
    }
  }

  // ---- one link of a small bin written, in a chunk or in a header

  /** The distinct words of two ring members. */
  lemma LocateRing(L: Chunks, S: Spans, r: SmallBins.Rings, t: TreeBins.Tries, p: int, q: int)
    requires Tiled(L, S) && OffState(S) && Bins(L, r, t)
    requires (p in r.held || IsHeader(p)) && (q in r.held || IsHeader(q))
    ensures p + FD != q + BK && p + BK != q + FD
  {
    assert BinnedAt(L, r, t, p) && BinnedAt(L, r, t, q);
    if p in r.held {
      ChunkAt(L, S, p);
      ClearOfState(L, S, p, FD);
      ClearOfState(L, S, p, BK);
    }
    if q in r.held {
      ChunkAt(L, S, q);
      ClearOfState(L, S, q, FD);
      ClearOfState(L, S, q, BK);
    }
    if p in r.held && q in r.held {
      Locate(L, S, p, FD, q, BK);
      Locate(L, S, p, BK, q, FD);
    }
  }

  lemma PokeFd(mem: Words, L: Chunks, S: Spans, r: SmallBins.Rings, t: TreeBins.Tries, q: int, v: int)
    requires Tiled(L, S) && OffState(S) && Bins(L, r, t) && RingsStored(mem, r) && (q in r.held || IsHeader(q))
    ensures RingsStored(mem[q + FD := v], r.(fd := r.fd[q := v]))
  {
    var m := mem[q + FD := v];
    var u := r.(fd := r.fd[q := v]);
    forall p {:trigger RingWords(m, u, p)} | p in u.held ensures RingWords(m, u, p) {
      LocateRing(L, S, r, t, p, q);
      assert RingWords(mem, r, p);
    }
    forall i {:trigger SmallBins.Header(i)} | 0 <= i < NBINS ensures RingWords(m, u, SmallBins.Header(i)) {
      LocateRing(L, S, r, t, SmallBins.Header(i), q);
      assert RingWords(mem, r, SmallBins.Header(i));
    }
  }

  lemma PokeBk(mem: Words, L: Chunks, S: Spans, r: SmallBins.Rings, t: TreeBins.Tries, q: int, v: int)
    requires Tiled(L, S) && OffState(S) && Bins(L, r, t) && RingsStored(mem, r) && (q in r.held || IsHeader(q))
    ensures RingsStored(mem[q + BK := v], r.(bk := r.bk[q := v]))
  {
    var m := mem[q + BK := v];
    var u := r.(bk := r.bk[q := v]);
    forall p {:trigger RingWords(m, u, p)} | p in u.held ensures RingWords(m, u, p) {
      LocateRing(L, S, r, t, p, q);
      assert RingWords(mem, r, p);
    }
    forall i {:trigger SmallBins.Header(i)} | 0 <= i < NBINS ensures RingWords(m, u, SmallBins.Header(i)) {
      LocateRing(L, S, r, t, SmallBins.Header(i), q);
      assert RingWords(mem, r, SmallBins.Header(i));
    }
  }

  /** A head word, a foot behind a free chunk, or a word inside a chunk that is not live. */
  predicate Writable(L: Chunks, p: int, k: int)
    requires p in L
  {
    k == HEAD || (k == 0 && (!Pin(L, p) || L[p].prv == 0 || L[p].kind.Mapped?)) || (FD <= k
        && (!Owned(L[p].kind) || PayloadEnd(L[p]) <= k))
  }

  lemma PokeQuiet(mem: Words, L: Chunks, S: Spans, p: int, k: int, v: int)
    requires Tiled(L, S) && p in L && 0 <= k < L[p].size && Writable(L, p, k)
    ensures Quiet(mem, mem[p + k := v], L)
  {
    forall b, a {:trigger InPayload(L, b, a)} | InPayload(L, b, a) ensures a != p + k {
      ChunkAt(L, S, b);
      if a < Next(L, b) {
        Locate(L, S, p, k, b, a - b);
      } else {
        ChunkAt(L, S, Next(L, b));
        Locate(L, S, p, k, Next(L, b), a - Next(L, b));
      }
    }
  }
}
