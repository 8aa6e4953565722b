/** ptmalloc3's arenas: several heaps in one address space.  A block of an arena other than the main one has
    a bit set in its head word, and carries the address of its arena in a word behind the bytes the client
    asked for; `free` and `realloc` find the arena of a block from these two words alone. */
module Ptmalloc {
  import opened Allocator
  import opened Calloc
  import opened Client
  import opened Dlfree
  import opened Dlmalloc
  import opened History
  import opened Layout
  import opened MallocState
  import opened Memalign
  import opened Memory
  import opened Mremap
  import opened Segments
  import opened Sizes
  import opened Words
  import Realloc
  import SysMalloc

  const FOOTER: nat := 8       // FOOTER_OVERHEAD
  const MAIN: int := 0         // stands for `&main_arena`

  // ---- the tag

  /** Where `set_non_main_arena` puts the address of the arena: the last word of the usable space. */
  function TagAt(c: Chunk, p: int): int { p + if c.kind.Mapped? then HeadSize(c) - WORD else HeadSize(c) }

  /** `arena_for_chunk` and `arena_for_mmap_chunk`: the arena of a block, from memory alone */
  function ArenaFor(store: Words, mem: int): int {
    var p := mem - FD;
    var w := At(store, p + HEAD);
    if Flagged(w) then At(store, p + ChunkSize(w) - if PInUse(w) || CInUse(w) then 0 else WORD) else MAIN
  }

  /** The tag is behind the bytes asked for and inside the usable space. */
  lemma TagFits(L: Chunks, S: Spans, p: int, bytes: int)
    requires Tiled(L, S) && Holding(L, p) && 0 <= bytes && bytes + FOOTER <= Usable(L[p])
    ensures InPayload(L, p, TagAt(L[p], p)) && p + FD + bytes <= TagAt(L[p], p)
    ensures TagAt(L[p], p) + WORD == p + PayloadEnd(L[p])
  {
    ChunkAt(L, S, p);
  }

  /** The request made of the arena's heap: the sum wraps around. */
  function Request(main: bool, bytes: nat): (r: nat)
    requires bytes < SPACE
    ensures r < SPACE
  {
    if main then bytes else (bytes + FOOTER) % SPACE
  }

  /** A block served for the request has its tag behind the bytes asked for just when the sum did not
      wrap around. */
  lemma TagOutside(L: Chunks, S: Spans, p: int, bytes: nat)
    requires Tiled(L, S) && Holding(L, p) && bytes < SPACE && Request(false, bytes) <= Usable(L[p])
    ensures p + FD + bytes <= TagAt(L[p], p) <==> bytes + FOOTER < SPACE
  {
    ChunkAt(L, S, p);
    if bytes + FOOTER < SPACE {
      Unwrapped(bytes);
      TagFits(L, S, p, bytes);
    }
  }

  lemma Unwrapped(bytes: nat)
    requires bytes + FOOTER < SPACE
    ensures Request(false, bytes) == bytes + FOOTER
  {
  }

  const ONE_SPAN: Spans := map[0 := Span(0x1_0000, 0x1_0000)]
  const TWO_CHUNKS: Chunks := map[0x1_0000 := Chunk(32, 0, Live, 0), 0x1_0020 := Chunk(0xFFE0, 32, Top, 0)]

  lemma TwoChunksPlaced(L: Chunks, S: Spans)
    requires 0x1_0000 in L && 0x1_0020 in L && 0 in S && S[0] == Span(0x1_0000, 0x1_0000)
    requires L[0x1_0000] == Chunk(32, 0, Live, 0) && L[0x1_0020] == Chunk(0xFFE0, 32, Top, 0)
    ensures SpanOk(L, S, 0) && ChunkOk(L, S, 0x1_0000) && ChunkOk(L, S, 0x1_0020)
    ensures Guarded(L, 0x1_0000) && Guarded(L, 0x1_0020)
  {
  }

  lemma TwoChunksTiled()
    ensures Tiled(TWO_CHUNKS, ONE_SPAN)
  {
    hide ChunkOk, SpanOk, Guarded;
    var L, S := TWO_CHUNKS, ONE_SPAN;
    assert L.Keys == {0x1_0000, 0x1_0020} && S.Keys == {0};
    TwoChunksPlaced(L, S);
  }

  lemma SevenShort()
    ensures Request(false, SPACE - 7) == 1
  {
    SysMalloc.WrapOnce(SPACE + 1);
  }

  /** A request for all but the last seven bytes of the address space is served as one for a single byte,
      and the tag lies inside what was asked for. */
  lemma WrappedRequest()
    ensures var p, bytes := 0x1_0000, SPACE - 7;
            && Tiled(TWO_CHUNKS, ONE_SPAN) && Holding(TWO_CHUNKS, p)
            && Request(false, bytes) == 1 <= Usable(TWO_CHUNKS[p]) && TagAt(TWO_CHUNKS[p], p) < p + FD + bytes
  {
    hide Tiled, Request;
    TwoChunksTiled();
    SevenShort();
  }

  /** What the client may use: nothing is promised when the request wrapped around. */
  function Promised(main: bool, bytes: nat): nat {
    if main || bytes + FOOTER < SPACE then bytes else 0
  }

  lemma GrantedFits(main: bool, bytes: nat, c: Chunk, p: int)
    requires bytes < SPACE && Request(main, bytes) <= Usable(c) && ShapeOk(c, p) && Owned(c.kind)
    ensures Promised(main, bytes) + (if main then 0 else FOOTER) <= Usable(c)
  {
  }

  // ---- one arena

  /** The chunk at `p` of the arena `id` has room for `bytes`, and is marked as a chunk of that arena. */
  ghost predicate Labelled(s: Snapshot, id: int, p: int, bytes: nat) {
    && Holding(s.L, p) && bytes + (if id == MAIN then 0 else FOOTER) <= Usable(s.L[p])
    && (s.L[p].flag <==> id != MAIN) && (id != MAIN ==> At(s.mem, TagAt(s.L[p], p)) == id)
  }

  /** The words of a labelled chunk lead to its arena. */
  lemma LabelRoutes(h: Heap, id: int, p: int, bytes: nat)
    requires h.Valid() && Labelled(h.Now(), id, p, bytes)
    ensures ArenaFor(h.m.mem, p + FD) == id
  {
    OwnedWords(h.m, p);
    HeadBits(h.m.L, h.m.S, p);
    assert HeadOk(h.m.mem, h.m.L, p);
  }

  /** The bytes that the client was given are the same. */
  ghost predicate Intact(mem: Words, mem': Words, p: int, bytes: nat) {
    forall a {:trigger At(mem', a)} :: p + FD <= a < p + FD + bytes ==> At(mem', a) == At(mem, a)
  }

  /** Labelled chunks outside `except` keep label and contents. */
  ghost predicate Spares(s: Snapshot, t: Snapshot, id: int, except: set<int>) {
    forall p, b {:trigger Labelled(s, id, p, b)} :: Labelled(s, id, p, b) && p !in except ==>
      Labelled(t, id, p, b) && Intact(s.mem, t.mem, p, b)
  }

  lemma StepSpares(s: Snapshot, t: Snapshot, e: Event, id: int)
    requires Step(s, t, e) && Tiled(s.L, s.S)
    ensures Spares(s, t, id, Before(e))
  {
    forall p, b {:trigger Labelled(s, id, p, b)} | Labelled(s, id, p, b) && p !in Before(e)
      ensures Labelled(t, id, p, b) && Intact(s.mem, t.mem, p, b)
    {
      BlockStays(s, t, e, p, b);
      if id != MAIN {
        TagStays(s, t, e, p, b);
      }
    }
  }

  lemma BlockStays(s: Snapshot, t: Snapshot, e: Event, p: int, bytes: nat)
    requires Step(s, t, e) && Holding(s.L, p) && p !in Before(e) && bytes <= Usable(s.L[p])
    ensures Holding(t.L, p) && Usable(t.L[p]) == Usable(s.L[p]) && t.L[p].flag == s.L[p].flag
    ensures Intact(s.mem, t.mem, p, bytes)
  {
    assert Same(s, t, p);
    forall a {:trigger At(t.mem, a)} | p + FD <= a < p + FD + bytes ensures At(t.mem, a) == At(s.mem, a) {
      assert InPayload(s.L, p, a);
    }
  }

  lemma TagStays(s: Snapshot, t: Snapshot, e: Event, p: int, bytes: nat)
    requires Step(s, t, e) && Holding(s.L, p) && p !in Before(e) && Tiled(s.L, s.S) && bytes + FOOTER <= Usable(s.L[p])
    ensures Holding(t.L, p) && TagAt(t.L[p], p) == TagAt(s.L[p], p)
    ensures At(t.mem, TagAt(t.L[p], p)) == At(s.mem, TagAt(s.L[p], p))
  {
    assert Same(s, t, p);
    TagFits(s.L, s.S, p, bytes);
  }

  lemma SparesOn(s: Snapshot, t: Snapshot, u: Snapshot, id: int, x: set<int>, y: set<int>)
    requires Spares(s, t, id, x) && Spares(t, u, id, y)
    ensures Spares(s, u, id, x + y)
  {
    forall p, b {:trigger Labelled(s, id, p, b)} | Labelled(s, id, p, b) && p !in x + y
      ensures Labelled(u, id, p, b) && Intact(s.mem, u.mem, p, b)
    {
      assert Labelled(t, id, p, b);
      forall a {:trigger At(u.mem, a)} | p + FD <= a < p + FD + b ensures At(u.mem, a) == At(s.mem, a) {
        assert At(t.mem, a) == At(s.mem, a);
      }
    }
  }

  lemma SoundNow(h: Heap)
    requires h.Valid()
    ensures Tiled(h.m.L, h.m.S)
  {
  }

  lemma TagInside(h: Heap, p: int, bytes: nat)
    requires h.Valid() && Holding(h.m.L, p) && bytes + FOOTER <= Usable(h.m.L[p])
    ensures var w := At(h.m.mem, p + HEAD);
            p + ChunkSize(w) - (if PInUse(w) || CInUse(w) then 0 else WORD) == TagAt(h.m.L[p], p)
    ensures InPayload(h.m.L, p, TagAt(h.m.L[p], p))
  {
    OwnedWords(h.m, p);
    TagFits(h.m.L, h.m.S, p, bytes);
  }

  lemma OneWord(mem: Words, L: Chunks, p: int, a: int, v: int)
    requires InPayload(L, p, a)
    ensures Inside(mem, mem[a := v], L, p)
  {
  }

  /** `set_non_main_arena` */
  method SetNonMain(h: Heap, id: int, mem: int, ghost bytes: nat)
    requires h.Valid() && id != MAIN && Holding(h.m.L, mem - FD) && bytes + FOOTER <= Usable(h.m.L[mem - FD])
    modifies h, h.m
    ensures h.Valid() && h.m.alien == old(h.m.alien) && Labelled(h.Now(), id, mem - FD, bytes)
    ensures Spares(old(h.Now()), h.Now(), id, {mem - FD}) && Intact(old(h.m.mem), h.m.mem, mem - FD, bytes)
  {
    hide Step, Quiet, MState.Valid, MState.Booked, IsRun, Spares;
    var p := mem - FD;
    ghost var s := h.Now();
    SoundNow(h);
    TagInside(h, p, bytes);
    var w := At(h.m.mem, p + HEAD);
    var a := p + ChunkSize(w) - if PInUse(w) || CInUse(w) then 0 else WORD;
    OneWord(h.m.mem, h.m.L, p, a, id);
    h.Write(mem, h.m.mem[a := id]);
    ghost var t := h.Now();
    StepSpares(s, t, Wrote(p), id);
    SoundNow(h);
    TagFits(h.m.L, h.m.S, p, bytes);
    h.SetFlag(mem);
    StepSpares(t, h.Now(), Wrote(p), id);
    SparesOn(s, t, h.Now(), id, {p}, {p});
    assert {p} + {p} == {p};
  }

  lemma RoomGranted(h: Heap, mem: int, main: bool, bytes: nat)
    requires h.Valid() && bytes < SPACE && Room(h.m.L, mem, Request(main, bytes))
    ensures Holding(h.m.L, mem - FD) && Promised(main, bytes) + (if main then 0 else FOOTER) <= Usable(h.m.L[mem - FD])
  {
    ChunkAt(h.m.L, h.m.S, mem - FD);
    GrantedFits(main, bytes, h.m.L[mem - FD], mem - FD);
  }

  /** A block the heap has just handed out, marked if the arena is not the main one. */
  method Label(h: Heap, id: int, mem: int, bytes: nat)
    requires h.Valid() && bytes < SPACE && Room(h.m.L, mem, Request(id == MAIN, bytes)) && mem - FD in h.m.L
    requires id == MAIN ==> !h.m.L[mem - FD].flag
    modifies h, h.m
    ensures h.Valid() && h.m.alien == old(h.m.alien) && Labelled(h.Now(), id, mem - FD, Promised(id == MAIN, bytes))
    ensures Spares(old(h.Now()), h.Now(), id, {mem - FD})
    ensures Intact(old(h.m.mem), h.m.mem, mem - FD, Promised(id == MAIN, bytes))
  {
    hide Step, Quiet, MState.Valid, MState.Booked, IsRun, Request, Promised;
    RoomGranted(h, mem, id == MAIN, bytes);
    if id != MAIN {
      SetNonMain(h, id, mem, Promised(false, bytes));
    }
  }

  /** `malloc` in the arena `id` */
  method ArenaMalloc(h: Heap, id: int, bytes: nat, direct: Offer, offer: Offer) returns (mem: int)
    requires h.Valid() && bytes < SPACE && OffersFit(h.m.S, h.m.alien, Request(id == MAIN, bytes), direct, offer)
    modifies h, h.m
    ensures h.Valid() && h.m.alien == old(h.m.alien) && Spares(old(h.Now()), h.Now(), id, {})
    ensures mem != 0 <==> old(CanServe(h.m, Request(id == MAIN, bytes), direct, offer))
    ensures mem == 0 ==> h.Now() == old(h.Now())
    ensures mem != 0 ==> !Holding(old(h.m.L), mem - FD) && Labelled(h.Now(), id, mem - FD, Promised(id == MAIN, bytes))
  {
    hide Step, Quiet, MState.Valid, MState.Booked, IsRun, OffersFit, Request, Promised, Room, Spares, CanServe;
    ghost var s := h.Now();
    SoundNow(h);
    mem := h.Malloc(Request(id == MAIN, bytes), direct, offer);
    if mem == 0 {
      SparesSame(s, id);
    } else {
      NewlyGiven(h, id, s, mem, Request(id == MAIN, bytes));
      ghost var t := h.Now();
      Label(h, id, mem, bytes);
      SparesNew(s, t, h.Now(), id, mem - FD);
    }
  }

  lemma SparesSame(s: Snapshot, id: int)
    ensures Spares(s, s, id, {})
  {
  }

  /** A chunk just handed out was not the client's before. */
  lemma NewlyGiven(h: Heap, id: int, s: Snapshot, mem: int, request: nat)
    requires h.Valid() && Step(s, h.Now(), Given(mem - FD)) && Tiled(s.L, s.S) && Room(h.m.L, mem, request)
    ensures !Holding(s.L, mem - FD) && mem - FD in h.m.L && !h.m.L[mem - FD].flag && Spares(s, h.Now(), id, {})
  {
    StepSpares(s, h.Now(), Given(mem - FD), id);
    assert Holding(s.L, mem - FD) || !Holding(s.L, mem - FD);
  }

  lemma SparesNew(s: Snapshot, t: Snapshot, u: Snapshot, id: int, p: int)
    requires Spares(s, t, id, {}) && Spares(t, u, id, {p}) && !Holding(s.L, p)
    ensures Spares(s, u, id, {})
  {
    SparesOn(s, t, u, id, {}, {p});
    forall q, b {:trigger Labelled(s, id, q, b)} | Labelled(s, id, q, b)
      ensures Labelled(u, id, q, b) && Intact(s.mem, u.mem, q, b)
    {
    }
  }

  /** An aligned block of `bytes` can be served. */
  ghost predicate CanAlign(m: MState, alignment: nat, bytes: nat, direct: Offer, offer: Offer)
    requires alignment <= HALF
    reads m
  {
    bytes + Rounded(alignment) < MAX_REQUEST && CanServe(m, AlignRequest(Rounded(alignment), bytes), direct, offer)
  }

  /** `memalign` in the arena `id` */
  method ArenaMemalign(h: Heap, id: int, alignment: nat, bytes: nat, direct: Offer, offer: Offer) returns (mem: int)
    requires h.Valid() && bytes < SPACE && alignment <= HALF
    requires var r := Request(id == MAIN, bytes);
             r + Rounded(alignment) < MAX_REQUEST ==>
                 OffersFit(h.m.S, h.m.alien, AlignRequest(Rounded(alignment), r), direct, offer)
    modifies h, h.m
    ensures h.Valid() && h.m.alien == old(h.m.alien) && Spares(old(h.Now()), h.Now(), id, {})
    ensures mem != 0 <==> old(CanAlign(h.m, alignment, Request(id == MAIN, bytes), direct, offer))
    ensures mem == 0 ==> h.Now() == old(h.Now())
    ensures mem != 0 ==> !Holding(old(h.m.L), mem - FD) && Labelled(h.Now(), id, mem - FD, Promised(id == MAIN, bytes))
    ensures var al := Rounded(alignment); 0 < al && alignment <= al && (mem != 0 ==> AlignedTo(mem, al))
  {
    hide Step, Quiet, MState.Valid, MState.Booked, IsRun, OffersFit, Request, Promised, Room, Spares, AlignedTo;
    hide Rounded;
    ghost var s := h.Now();
    SoundNow(h);
    mem := h.AlignedBlock(alignment, Request(id == MAIN, bytes), direct, offer);
    if mem == 0 {
      SparesSame(s, id);
    } else {
      NewlyGiven(h, id, s, mem, Request(id == MAIN, bytes));
      ghost var t := h.Now();
      Label(h, id, mem, bytes);
      SparesNew(s, t, h.Now(), id, mem - FD);
    }
  }

  lemma TakenIsGone(s: Snapshot, t: Snapshot, p: int)
    ensures Step(s, t, Taken({p})) ==> !Holding(t.L, p)
  {
  }

  /** `free` in the arena `id` */
  method ArenaFree(h: Heap, id: int, mem: int, a: Answers)
    requires h.Valid() && mem != 0 && Holding(h.m.L, mem - FD)
    modifies h, h.m
    ensures h.Valid() && h.m.alien == old(h.m.alien) && Spares(old(h.Now()), h.Now(), id, {mem - FD})
    ensures if old(h.m.L)[mem - FD].kind.Mapped? && !a.unmapped then h.Now() == old(h.Now())
            else !Holding(h.m.L, mem - FD)
  {
    hide Step, Quiet, MState.Valid, MState.Booked, IsRun, Spares;
    ghost var s := h.Now();
    SoundNow(h);
    h.Free(mem, a);
    TakenIsGone(s, h.Now(), mem - FD);
    if s.L[mem - FD].kind.Mapped? && !a.unmapped {
      SparesSame(s, id);
      SparesMore(s, s, id, {}, {mem - FD});
    } else {
      StepSpares(s, h.Now(), Taken({mem - FD}), id);
    }
  }

  lemma SparesMore(s: Snapshot, t: Snapshot, id: int, x: set<int>, y: set<int>)
    requires Spares(s, t, id, x) && x <= y
    ensures Spares(s, t, id, y)
  {
  }

  /** `realloc` in the arena `id` */
  method ArenaRealloc(h: Heap, id: int, mem: int, bytes: nat, direct: Offer, offer: Offer, remap: Offer, a: Answers)
    returns (moved: int, spoiled: bool)
    requires h.Valid() && bytes < SPACE && mem != 0 && Holding(h.m.L, mem - FD)
    requires (id == MAIN ==> !h.m.L[mem - FD].flag)
    requires Realloc.ReallocOffers(h.m.L, h.m.S, h.m.alien, mem - FD, Request(id == MAIN, bytes), direct, offer, remap)
    modifies h, h.m
    ensures h.m.alien == old(h.m.alien)
    ensures spoiled <==> moved != 0 && Realloc.Spoils(old(h.m.L), mem - FD, Request(id == MAIN, bytes), remap)
    ensures moved != 0 <==>
              old(Realloc.CanRealloc(h.m, mem - FD, Request(id == MAIN, bytes), direct, offer, remap))
    ensures moved == 0 ==> h.Valid() && Spares(old(h.Now()), h.Now(), id, {})
    ensures !spoiled ==> h.Valid() && Spares(old(h.Now()), h.Now(), id, {mem - FD})
    ensures !spoiled && moved != 0 ==>
              && Labelled(h.Now(), id, moved - FD, Promised(id == MAIN, bytes))
              && (moved != mem ==> !Holding(old(h.m.L), moved - FD))
              && (if Realloc.InPlace(old(h.m.L), mem - FD, Request(id == MAIN, bytes), remap)
                  then old(h.m.L)[mem - FD].kind.Live? ==> moved == mem else moved != mem)
              && Moved(old(h.m.mem), h.m.mem, mem - FD, moved - FD,
                       Min(Usable(old(h.m.L)[mem - FD]), Promised(id == MAIN, bytes)))
  {
    hide Step, Quiet, MState.Valid, MState.Booked, IsRun, Request, Promised, Room, Spares;
    hide Realloc.ReallocOffers, Realloc.Spoils, Realloc.CanRealloc, Realloc.InPlace;
    ghost var s, p, n := h.Now(), mem - FD, Min(Usable(h.m.L[mem - FD]), Request(id == MAIN, bytes));
    SoundNow(h);
    spoiled := Foresee(h.m, mem - FD, Request(id == MAIN, bytes), remap);
    moved := h.ReallocBlock(mem, Request(id == MAIN, bytes), direct, offer, remap, a);
    if moved == 0 {
      SparesSame(s, id);
      SparesMore(s, s, id, {}, {p});
      spoiled := false;
    } else if spoiled {
      WriteTag(h.m, id, moved);
    } else {
      ghost var t, q := h.Now(), moved - FD;
      Stays(s, t, p, q, Request(id == MAIN, bytes), remap);
      Changes(s, t, id, p, q, n, Realloc.Refusing(s.L, p, a));
      RoomGranted(h, moved, id == MAIN, bytes);
      Label(h, id, moved, bytes);
      SparesChanged(s, t, h.Now(), id, p, q);
      MovedToo(s, t, h.Now(), p, q, n, bytes, id == MAIN);
    }
  }

  lemma Stays(s: Snapshot, t: Snapshot, p: int, q: int, bytes: nat, remap: Offer)
    requires Holding(s.L, p) && Realloc.Settled(s.mem, t.mem, s.L, t.L, p, q, bytes, remap)
    ensures if Realloc.InPlace(s.L, p, bytes, remap) then s.L[p].kind.Live? ==> q == p else q != p
  {
  }

  lemma MovedToo(s: Snapshot, t: Snapshot, u: Snapshot, p: int, q: int, n: int, bytes: nat, main: bool)
    requires p in s.L && bytes < SPACE && n == Min(Usable(s.L[p]), Request(main, bytes))
    requires Moved(s.mem, t.mem, p, q, n) && Intact(t.mem, u.mem, q, Promised(main, bytes))
    ensures Moved(s.mem, u.mem, p, q, Min(Usable(s.L[p]), Promised(main, bytes)))
  {
    var k := Min(Usable(s.L[p]), Promised(main, bytes));
    forall i {:trigger SameCell(s.mem, u.mem, p, q, i)} | 0 <= i < k ensures SameCell(s.mem, u.mem, p, q, i) {
      assert SameCell(s.mem, t.mem, p, q, i);
    }
  }

  /** Whether the request overruns a resized region. */
  method Foresee(m: MState, p: int, bytes: nat, remap: Offer) returns (spoils: bool)
    requires m.Valid() && p in m.L && Owned(m.L[p].kind)
    ensures spoils == Realloc.Spoils(m.L, p, bytes, remap)
  {
    OwnedWords(m, p);
    var w := At(m.mem, p + HEAD);
    spoils := false;
    if bytes < MAX_REQUEST && !PInUse(w) && !CInUse(w) {
      var nb := Request2Size(bytes);
      spoils := !IsSmall(nb) && !Keeps(ChunkSize(w), nb) && remap.Granted? && Slack(nb) < At(m.mem, p);
    }
  }

  /** The tag written in a heap that is no longer well-formed: nothing is promised any more. */
  method WriteTag(m: MState, id: int, mem: int)
    modifies m`mem
  {
    if id != MAIN {
      var p := mem - FD;
      var w := At(m.mem, p + HEAD);
      m.mem := m.mem[p + ChunkSize(w) - (if PInUse(w) || CInUse(w) then 0 else WORD) := id];
      m.mem := m.mem[p + HEAD := if Flagged(w) then w else w + 4];
    }
  }

  lemma Changes(s: Snapshot, t: Snapshot, id: int, p: int, q: int, n: int, refused: bool)
    requires Relocation(s, t, p, q, n, refused) && Tiled(s.L, s.S) && Holding(s.L, p)
    ensures Spares(s, t, id, {p}) && (q != p ==> !Holding(s.L, q)) && q in t.L && (t.L[q].flag ==> s.L[p].flag)
    ensures Moved(s.mem, t.mem, p, q, n)
  {
    if Step(s, t, Changed(p, q, n)) {
      StepSpares(s, t, Changed(p, q, n), id);
    } else {
      StepSpares(s, t, Given(q), id);
      SparesMore(s, t, id, {}, {p});
    }
    assert Holding(s.L, q) || !Holding(s.L, q);
  }

  lemma SparesChanged(s: Snapshot, t: Snapshot, u: Snapshot, id: int, p: int, q: int)
    requires Spares(s, t, id, {p}) && Spares(t, u, id, {q}) && (q != p ==> !Holding(s.L, q))
    ensures Spares(s, u, id, {p})
  {
    SparesOn(s, t, u, id, {p}, {q});
    forall r, b {:trigger Labelled(s, id, r, b)} | Labelled(s, id, r, b) && r !in {p}
      ensures Labelled(u, id, r, b) && Intact(s.mem, u.mem, r, b)
    {
      assert r !in {p} + {q};
    }
  }
}
