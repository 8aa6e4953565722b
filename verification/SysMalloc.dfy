/** `sys_alloc` and `mmap_alloc`: serving a request with memory from the system. */
module SysMalloc {
  import opened AddSegment
  import opened Bits
  import opened Free
  import opened Growth
  import opened Layout
  import opened Malloc
  import opened MallocState
  import opened Memory
  import opened Records
  import opened Regions
  import opened Segments
  import opened Sizes
  import opened Words

  const MMAP_THRESHOLD: nat := 0x4_0000

  /** Rounding up to a multiple of `unit`, modulo the size of the address space. */
  function AlignUp(x: nat, unit: nat): nat
    requires unit > 0
  {
    var y := (x + unit - 1) % SPACE;
    y - y % unit
  }

  /** The size of the segment requested for `nb` bytes. */
  function SegmentSize(nb: nat): nat { AlignUp(nb + SYS_PADDING, GRANULARITY) }

  /** The size of the region requested for one chunk of `nb` bytes. */
  function RegionSize(nb: nat): nat { AlignUp(nb + 48 + 7, PAGE) }

  lemma WrapOnce(s: nat)
    requires s < 2 * SPACE
    ensures s % SPACE == if s < SPACE then s else s - SPACE
  {
    if s < SPACE {
      ModUnique(s, SPACE, 0, s);
    } else {
      ModUnique(s, SPACE, 1, s - SPACE);
    }
  }

  lemma AlignedUp(x: nat, unit: nat)
    requires (unit == GRANULARITY || unit == PAGE) && x < SPACE + unit
    ensures x + unit - 1 < SPACE ==> x <= AlignUp(x, unit) < x + unit
    ensures x + unit - 1 >= SPACE ==> AlignUp(x, unit) <= x + unit - 1 - SPACE
    ensures AlignUp(x, unit) % 8 == 0 && AlignUp(x, unit) % unit == 0
    ensures unit == GRANULARITY ==> Whole(AlignUp(x, unit))
  {
    var s := x + unit - 1;
    WrapOnce(s);
    Floor(s % SPACE, unit);
    ModMul(unit, s % SPACE / unit);
    TimesEight(unit, s % SPACE / unit);
  }

  /** Unless the sum wraps around, there is room for the chunk and for the reserved space behind it. */
  lemma SegmentHolds(nb: nat)
    requires nb < SPACE
    ensures SegmentSize(nb) > nb <==> nb + SYS_PADDING + GRANULARITY <= SPACE
    ensures SegmentSize(nb) > nb ==> SegmentSize(nb) % 8 == 0 && nb + SYS_PADDING <= SegmentSize(nb)
    ensures Whole(SegmentSize(nb))
  {
    hide AlignUp;
    AlignedUp(nb + SYS_PADDING, GRANULARITY);
  }

  lemma RegionHolds(nb: nat)
    requires nb < SPACE
    ensures RegionSize(nb) > nb <==> nb + 54 + PAGE < SPACE
    ensures RegionSize(nb) % PAGE == 0
    ensures RegionSize(nb) > nb ==> RegionSize(nb) % 8 == 0 && nb + 55 <= RegionSize(nb) < nb + 55 + PAGE
  {
    hide AlignUp;
    AlignedUp(nb + 48 + 7, PAGE);
  }

  // ---- where new space goes

  /** The first segment that begins at `a`; their number if there is none. */
  function StartingAt(segs: seq<Span>, a: int): nat {
    if segs == [] || segs[0].base == a then 0 else 1 + StartingAt(segs[1..], a)
  }

  lemma {:induction false} StartingIs(segs: seq<Span>, a: int, k: nat)
    requires k <= |segs| && (k < |segs| ==> segs[k].base == a)
    requires forall j {:trigger segs[j]} :: 0 <= j < k ==> segs[j].base != a
    ensures StartingAt(segs, a) == k
  {
    if k > 0 {
      assert segs[0].base != a;
      forall j {:trigger segs[1..][j]} | 0 <= j < k - 1 ensures segs[1..][j].base != a {
        assert segs[1..][j] == segs[j + 1];
      }
      StartingIs(segs[1..], a, k - 1);
    }
  }

  /** The new space follows the newest segment. */
  predicate Follows(segs: seq<Span>, top: int, tbase: int) { top != 0 && segs != [] && segs[0].End() == tbase }

  /** The list of segments with new space: the newest one made longer, or one in front of which the space lies, or a
      new segment at the head of the list. */
  function Enlarged(segs: seq<Span>, top: int, tbase: int, tsize: nat): seq<Span> {
    var k := StartingAt(segs, tbase + tsize);
    if top == 0 then [Span(tbase, tsize)]
    else if Follows(segs, top, tbase) then segs[0 := Span(segs[0].base, segs[0].size + tsize)]
    else if k < |segs| then segs[k := Span(tbase, segs[k].size + tsize)]
    else [Span(tbase, tsize)] + segs
  }

  lemma EnlargedApart(segs: seq<Span>, top: int, tbase: int, tsize: nat, k: nat)
    requires top != 0 && segs != [] && segs[0].End() != tbase
    requires k <= |segs| && (k < |segs| ==> segs[k].base == tbase + tsize)
    requires forall j {:trigger segs[j]} :: 0 <= j < k ==> segs[j].base != tbase + tsize
    ensures Enlarged(segs, top, tbase, tsize) ==
              if k < |segs| then segs[k := Span(tbase, segs[k].size + tsize)] else [Span(tbase, tsize)] + segs
  {
    StartingIs(segs, tbase + tsize, k);
  }

  /** Where the request is served from it. */
  function ServedAt(segs: seq<Span>, top: int, tbase: int): int { if Follows(segs, top, tbase) then top else tbase }

  // ---- prepend_alloc

  lemma PrependBooks(m: MState, L: Chunks, S: Spans, segs: seq<Span>, k: nat, n: nat, p: int)
    requires SegsOk(S, segs, m.ids, m.direct) && DirectOk(L, m.direct) && Added(L, m.L, p) && m.L[p].kind.Live?
    requires k < |segs| && m.ids[k] in S && S[m.ids[k]] == segs[k] && m.S == PrependSpan(S, m.ids[k], n)
    requires m.segs == segs[k := Span(segs[k].base - n, segs[k].size + n)] && 0 < n && m.Listed()
    requires segs != [] && m.top + m.topsize + TOP_FOOT == segs[0].End() && m.top != 0
    requires m.footprint == Total(S) + n <= m.maxFootprint && Whole(n) && Whole(segs[k].size)
    ensures m.Booked()
  {
    var h, x := m.ids[k], Span(segs[k].base - n, segs[k].size + n);
    WholeSum(segs[k].size, n);
    SegsSet(S, segs, m.ids, m.direct, k, x);
    TotalOf(S, h);
    TotalPut(S, h, x);
  }

  lemma PrependOk(m: MState, k: nat, tbase: int, tsize: nat, nb: nat)
    requires m.Valid() && m.Owing(tsize) && k < |m.segs| && m.segs[k].base == tbase + tsize
    requires Fresh(m.S, m.alien, tbase, tsize)
    requires nb % 8 == 0 && MIN_CHUNK <= nb && nb + SYS_PADDING <= tsize
    ensures |m.ids| == |m.segs| && m.ids[k] in m.S && CanFront(m.L, m.S, m.ids[k], tsize, nb)
    ensures m.S[m.ids[k]] == m.segs[k] && Whole(m.segs[k].size)
  {
    SegHome(m, tsize, k);
  }

  /** The new space ends where the segment begins whose record is at `sp`: `prepend_alloc` */
  method PrependAlloc(m: MState, sp: int, tbase: int, tsize: nat, nb: nat, ghost k: nat)
    requires m.Valid() && m.Owing(tsize) && m.top != 0 && k < |m.segs| && m.segs[k].base == tbase + tsize
    requires Fresh(m.S, m.alien, tbase, tsize) && Found(m, sp, k)
    requires nb % 8 == 0 && MIN_CHUNK <= nb && nb + SYS_PADDING <= tsize && m.leastAddr <= tbase && Whole(tsize)
    modifies m`mem, m`smallmap, m`treemap, m`L, m`S, m`staleTails, m`rings, m`tries, m`staleHeads, m`staleFeet, m`dv
    modifies m`dvsize, m`top, m`topsize, m`seg, m`segs, m`notes
    ensures m.Valid() && m.Booked() && Gave(old(m.L), m.L, tbase, nb) && Quiet(old(m.mem), m.mem, old(m.L))
    ensures m.segs == old(m.segs)[k := Span(tbase, old(m.segs)[k].size + tsize)]
  {
    hide MState.Stored, Added, Quiet, MState.Indexed, MState.Listed, Roles, SegsOk, DirectOk, Total, CanFront, Fresh;
    hide PrependSpan, Whole, ReadSeg, MState.Booked, Chained, Tiled, Tagged, Bins, RingsStored, OffState, Tailed;
    hide Foreign;
    PrependOk(m, k, tbase, tsize, nb);
    TopHome(m, tsize);
    RecordReads(m, k);
    var s := ReadSeg(m.seg, m.mem, sp);
    SetSpan(m, sp, tbase, s.size + tsize, k);
    ghost var mem1 := m.mem;
    PrependChunk(m, m.ids[k], tbase, tsize, nb);
    QuietOn(old(m.mem), mem1, m.mem, old(m.L));
    PrependBooks(m, old(m.L), old(m.S), old(m.segs), k, tsize, tbase);
  }

  lemma BesideIsSame(L: Chunks, M: Chunks)
    requires Beside(L, 0, M, 0) && 0 !in L && 0 !in M
    ensures SameLive(L, M)
  {
  }

  lemma NoneLiveBeside(L: Chunks, M: Chunks, mem: Words, mem': Words)
    requires NoneLive(L) && NoneLive(M)
    ensures Beside(L, 0, M, 0) && Quiet(mem, mem', M)
  {
  }

  /** `segment_holds`, for the record at `sp` or null */
  method HoldsAddress(m: MState, sp: int, a: int, ghost k: nat) returns (holds: bool)
    requires m.Stored() && m.staleTails == {} && m.Listed() && Found(m, sp, k)
    ensures holds <==> k < |m.segs| && m.segs[k].base <= a < m.segs[k].End()
  {
    hide MState.Stored, MState.Listed;
    RecordsNotNull(m, sp, k);
    holds := false;
    if sp != 0 {
      RecordReads(m, k);
      var s := ReadSeg(m.seg, m.mem, sp);
      holds := s.base <= a < s.base + s.size;
    }
  }

  lemma RecordsNotNull(m: MState, sp: int, k: nat)
    requires m.Stored() && m.staleTails == {} && m.Listed() && Found(m, sp, k)
    ensures sp != 0 <==> k < |m.segs|
  {
    if k < |m.segs| {
      RecordReads(m, k);
    }
  }

  /** The new space does not follow the top chunk: it lies in front of a segment, or becomes one of its own. */
  method PlaceApart(m: MState, tbase: int, tsize: nat, nb: nat) returns (prepended: bool)
    requires m.Valid() && m.Owing(tsize) && m.top != 0 && m.segs != [] && Fresh(m.S, m.alien, tbase, tsize)
    requires m.segs[0].End() != tbase
    requires nb % 8 == 0 && MIN_CHUNK <= nb && nb + SYS_PADDING <= tsize && Whole(tsize)
    modifies m
    ensures m.alien == old(m.alien)
    ensures m.Valid() && m.Booked() && m.footprintLimit == old(m.footprintLimit)
    ensures prepended ==> Gave(old(m.L), m.L, tbase, nb) && Quiet(old(m.mem), m.mem, old(m.L))
    ensures !prepended ==> nb < m.topsize && Beside(old(m.L), 0, m.L, 0) && Quiet(old(m.mem), m.mem, m.L)
    ensures m.segs == Enlarged(old(m.segs), old(m.top), tbase, tsize) && (!prepended ==> m.top == tbase)
    ensures m.footprint == old(m.footprint) && m.maxFootprint == old(m.maxFootprint)
  {
    hide MState.Stored, MState.Indexed, MState.Booked, MState.Listed, Beside, Quiet, Gave, SegsOk, DirectOk, Total;
    hide Fresh, Whole, Roles, TopEnds, Enlarged, Chained, Tiled, Tagged, RingsStored, TriesStored, Tailed, Foreign;
    Lower(m, tbase);
    var sp, k := SegmentStarting(m, tbase + tsize);
    RecordsNotNull(m, sp, k);
    EnlargedApart(m.segs, m.top, tbase, tsize, if sp == 0 then |m.segs| else k);
    prepended := sp != 0;
    if prepended {
      PrependAlloc(m, sp, tbase, tsize, nb, k);
    } else {
      AddSegment.AddSegment(m, tbase, tsize);
    }
  }

  /** The new space of a heap that has segments already: the newest one extended, or one in front of which the space
      lies, or a segment of its own. */
  method Place(m: MState, tbase: int, tsize: nat, nb: nat) returns (prepended: bool)
    requires m.Valid() && m.Owing(tsize) && m.top != 0 && Fresh(m.S, m.alien, tbase, tsize)
    requires nb % 8 == 0 && MIN_CHUNK <= nb && nb + SYS_PADDING <= tsize && Whole(tsize)
    modifies m
    ensures m.alien == old(m.alien)
    ensures m.Valid() && m.Booked() && m.footprintLimit == old(m.footprintLimit)
    ensures prepended ==> Gave(old(m.L), m.L, tbase, nb) && Quiet(old(m.mem), m.mem, old(m.L))
    ensures !prepended ==> nb < m.topsize && Beside(old(m.L), 0, m.L, 0) && Quiet(old(m.mem), m.mem, m.L)
    ensures m.segs == Enlarged(old(m.segs), old(m.top), tbase, tsize)
    ensures !prepended ==> m.top == ServedAt(old(m.segs), old(m.top), tbase)
    ensures prepended ==> tbase == ServedAt(old(m.segs), old(m.top), tbase)
    ensures m.footprint == old(m.footprint) && m.maxFootprint == old(m.maxFootprint)
  {
    hide MState.Stored, MState.Indexed, MState.Booked, MState.Listed, Beside, Quiet, Gave, SegsOk, DirectOk, Total;
    hide Fresh, Whole, Roles, TopEnds;
    prepended := false;
    TopPositive(m);
    TopHome(m, tsize);
    TopOnlyFirst(m, tsize);
    var sp, k := SegmentEnding(m, tbase);
    var holds := HoldsAddress(m, sp, m.top, k);
    if holds {
      Append(m, sp, tsize, k);
    } else {
      prepended := PlaceApart(m, tbase, tsize, nb);
    }
  }

  /** The top chunk lies in the newest segment and in no other. */
  lemma TopOnlyFirst(m: MState, n: int)
    requires m.Valid() && m.Owing(n) && m.top != 0
    ensures m.segs != [] && m.segs[0].base <= m.top < m.segs[0].End()
    ensures forall k {:trigger m.segs[k]} :: 0 < k < |m.segs| ==> !(m.segs[k].base <= m.top < m.segs[k].End())
  {
    AddSegment.TopInFirst(m, n);
    forall k {:trigger m.segs[k]} | 0 < k < |m.segs| ensures !(m.segs[k].base <= m.top < m.segs[k].End()) {
      if m.segs[k].base <= m.top < m.segs[k].End() {
        HoldsTop(m, n, k);
      }
    }
  }

  /** The ways that leave the new space at the top: the first segment, the newest one extended, or a
      segment of its own.  `prepended` tells that the space was put in front of a segment instead, and
      the request served there. */
  method Extend(m: MState, tbase: int, tsize: nat, nb: nat) returns (prepended: bool)
    requires m.Valid() && m.Owing(tsize) && Fresh(m.S, m.alien, tbase, tsize) && nb % 8 == 0 && MIN_CHUNK <= nb
    requires nb + SYS_PADDING <= tsize && Whole(tsize)
    modifies m
    ensures m.alien == old(m.alien)
    ensures m.Valid() && m.Booked() && m.footprintLimit == old(m.footprintLimit)
    ensures prepended ==> Gave(old(m.L), m.L, tbase, nb) && Quiet(old(m.mem), m.mem, old(m.L))
    ensures !prepended ==> nb < m.topsize && Beside(old(m.L), 0, m.L, 0) && Quiet(old(m.mem), m.mem, m.L)
    ensures m.segs == Enlarged(old(m.segs), old(m.top), tbase, tsize)
    ensures !prepended ==> m.top == ServedAt(old(m.segs), old(m.top), tbase)
    ensures prepended ==> tbase == ServedAt(old(m.segs), old(m.top), tbase)
    ensures m.footprint == old(m.footprint) && m.maxFootprint == old(m.maxFootprint)
  {
    hide MState.Stored, MState.Indexed, MState.Booked, MState.Owing, Beside, Quiet, Gave, NoneLive, Roles, Fresh, Whole;
    if m.top == 0 {
      prepended := false;
      First(m, tbase, tsize);
      NoneLiveBeside(old(m.L), m.L, old(m.mem), m.mem);
    } else {
      prepended := Place(m, tbase, tsize, nb);
    }
  }

  lemma TopPositive(m: MState)
    requires m.Valid() && m.top != 0
    ensures 0 < m.topsize
  {
    ChunkAt(m.L, m.S, m.top);
    assert RoleOk(m.L, m.dv, m.top, {}, m.top);
  }

  /** The limit on the footprint, if there is one, leaves room for `n` more bytes. */
  predicate Affordable(footprint: int, limit: int, n: nat) {
    limit == 0 || (footprint < (footprint + n) % SPACE <= limit)
  }

  function Greater(x: int, y: int): int { if x < y then y else x }

  /** New memory counted. */
  method Charge(m: MState, n: nat)
    requires m.Booked()
    modifies m`footprint, m`maxFootprint
    ensures m.Owing(n) && m.footprint == old(m.footprint) + n
    ensures m.maxFootprint == Greater(old(m.maxFootprint), m.footprint)
  {
    m.footprint := m.footprint + n;
    if m.footprint > m.maxFootprint {
      m.maxFootprint := m.footprint;
    }
  }

  /** A segment from the system, and the request served from it. */
  method SegmentAlloc(m: MState, nb: nat, offer: Offer) returns (p: int)
    requires m.Valid() && m.Booked() && nb % 8 == 0 && MIN_CHUNK <= nb && nb + SYS_PADDING <= SegmentSize(nb)
    requires Whole(SegmentSize(nb))
    requires offer.Granted? && Fresh(m.S, m.alien, offer.base, SegmentSize(nb))
    modifies m
    ensures m.alien == old(m.alien)
    ensures m.Valid() && m.Booked() && m.footprintLimit == old(m.footprintLimit)
    ensures p != 0 && Gave(old(m.L), m.L, p, nb) && Quiet(old(m.mem), m.mem, old(m.L))
    ensures p == ServedAt(old(m.segs), old(m.top), offer.base)
    ensures m.segs == Enlarged(old(m.segs), old(m.top), offer.base, SegmentSize(nb))
    ensures m.footprint == old(m.footprint) + SegmentSize(nb)
    ensures m.maxFootprint == Greater(old(m.maxFootprint), m.footprint)
  {
    hide Enlarged, ServedAt, MState.Stored, Beside, Quiet, Added, LiveWithin, MState.Indexed, SegsOk, DirectOk, Total;
    hide Clears, TopEnds, SegmentSize, SameLive, Gave, MState.Listed, MState.Booked, MState.Owing, Tagged, OffState;
    hide LeastOk, Foreign;
    ghost var L0, mem0 := m.L, m.mem;
    var tsize := SegmentSize(nb);
    MapRegion(m, offer.base, tsize);
    ghost var mem1 := m.mem;
    Charge(m, tsize);
    var prepended := Extend(m, offer.base, tsize, nb);
    if prepended {
      p := offer.base;
      QuietAgain(mem0, mem1, m.mem, L0);
    } else {
      ghost var L2, mem2 := m.L, m.mem;
      BesideIsSame(L0, L2);
      p := FromTop(m, nb);
      GaveAfter(L0, L2, m.L, p, nb);
      QuietSame(mem1, mem2, L0, L2);
      QuietSame(mem2, m.mem, L0, L2);
      QuietAgain(mem0, mem1, mem2, L0);
      QuietAgain(mem0, mem2, m.mem, L0);
    }
  }

  /** The front of the top chunk handed out, the books kept. */
  method FromTop(m: MState, nb: int) returns (p: int)
    requires m.Valid() && m.Booked() && nb % 8 == 0 && MIN_CHUNK <= nb < m.topsize
    modifies m`mem, m`L, m`staleHeads, m`staleFeet, m`top, m`topsize
    ensures m.Valid() && m.Booked() && p == old(m.top) != 0
    ensures Gave(old(m.L), m.L, p, nb) && Quiet(old(m.mem), m.mem, old(m.L))
  {
    hide MState.Stored, Quiet, Gave, MState.Indexed, SegsOk, DirectOk, Total, MState.Listed;
    p := SplitTop(m, nb);
    KeepBooks(m, old(m.L), p, nb);
  }

  lemma GaveAfter(L: Chunks, L1: Chunks, M: Chunks, p: int, nb: int)
    requires SameLive(L, L1) && Gave(L1, M, p, nb)
    ensures Gave(L, M, p, nb)
  {
    AddedTrans(L, L1, M, M, p);
  }

  lemma QuietSame(mem: Words, mem': Words, L: Chunks, M: Chunks)
    requires Quiet(mem, mem', M) && SameLive(L, M)
    ensures Quiet(mem, mem', L)
  {
    QuietWithin(mem, mem', L, M);
  }

  lemma KeepBooks(m: MState, L: Chunks, p: int, nb: int)
    requires Gave(L, m.L, p, nb) && DirectOk(L, m.direct) && SegsOk(m.S, m.segs, m.ids, m.direct)
    requires TopEnds(m.segs, m.top, m.topsize) && m.Listed()
    requires m.footprint == Total(m.S) <= m.maxFootprint
    ensures m.Booked()
  {
  }

  // ---- mmap_alloc

  lemma MappedRoles(L: Chunks, dv: int, dvsize: int, top: int, topsize: int, h: nat, base: int, size: nat, lead: nat)
    requires Roles(L, dv, dvsize, top, topsize, {}) && top != 0 && lead <= size && base + lead !in L && 0 < base
    ensures Roles(AddChunk(L, h, base, size, Mapped, lead), dv, dvsize, top, topsize, {})
    ensures Added(L, AddChunk(L, h, base, size, Mapped, lead), base + lead)
  {
    var M := AddChunk(L, h, base, size, Mapped, lead);
    forall q {:trigger RoleOk(M, dv, top, {}, q)} | q in M ensures RoleOk(M, dv, top, {}, q) {
      assert q in L ==> RoleOk(L, dv, top, {}, q);
    }
  }

  ghost predicate ZeroPayload(mem: Words, L: Chunks, p: int) {
    forall a {:trigger InPayload(L, p, a)} :: InPayload(L, p, a) ==> At(mem, a) == 0
  }

  /** The region of one chunk, and the words that mark it. */
  method MarkMapped(m: MState, mm: int, mmsize: nat, ghost h: nat)
    requires m.Valid() && m.top != 0 && h !in m.S && Fresh(m.S, m.alien, mm, mmsize) && m.leastAddr <= mm
    requires MMAP_PAD + MIN_LARGE <= mmsize && mmsize % PAGE == 0
    modifies m`mem, m`L, m`S, m`staleTails, m`staleHeads, m`staleFeet
    ensures m.Valid() && m.S == AddSpan(old(m.S), h, mm, mmsize) && mm in m.L && m.L[mm] == Chunk(mmsize, 0, Mapped, h)
    ensures Added(old(m.L), m.L, mm) && Quiet(old(m.mem), m.mem, old(m.L)) && ZeroPayload(m.mem, m.L, mm)
  {
    hide Tiled, Tagged, Bins, RingsStored, TriesStored, OffState, LeastOk, Tailed, Foreign, Added, Quiet;
    hide MState.Indexed;
    ghost var L0 := m.L;
    AddTiled(m.L, m.S, h, mm, mmsize, Mapped);
    MappedRoles(m.L, m.dv, m.dvsize, m.top, m.topsize, h, mm, mmsize, 0);
    MapRegion(m, mm, mmsize);
    ghost var mem1 := m.mem;
    GhostAdd(m, h, mm, mmsize, Mapped);
    PutFoot(m, mm, 0);
    ghost var mem2 := m.mem;
    WriteMarks(m, mm, mmsize - MMAP_PAD);
    QuietAgain(mem1, mem2, m.mem, m.L);
    QuietZero(mem1, m.mem, m.L, mm);
    QuietAdded(mem1, m.mem, L0, m.L, mm);
    QuietAgain(old(m.mem), mem1, m.mem, L0);
  }

  lemma QuietZero(mem: Words, mem': Words, L: Chunks, p: int)
    requires Quiet(mem, mem', L) && ZeroPayload(mem, L, p)
    ensures ZeroPayload(mem', L, p)
  {
  }

  /** The head of a mapped chunk and the two words behind it. */
  method WriteMarks(m: MState, p: int, psize: int)
    requires m.Stored() && p in m.L && m.L[p].kind.Mapped? && m.L[p].size == psize + MMAP_PAD && !m.L[p].flag
    modifies m`mem, m`staleHeads, m`staleTails
    ensures m.Stored() && m.staleHeads == old(m.staleHeads) - {p} && m.staleTails == old(m.staleTails) - {p}
    ensures Quiet(old(m.mem), m.mem, m.L) && At(m.mem, p) == At(old(m.mem), p)
  {
    hide MState.Stored, Quiet;
    ChunkFacts(m, p);
    PutHead(m, p, psize);
    ghost var mem1 := m.mem;
    PutInside(m, p, psize + HEAD, FENCEPOST);
    ghost var mem2 := m.mem;
    PutInside(m, p, psize + WORD + HEAD, 0);
    FixTail(m, p);
    assert old(m.staleTails) + {p} + {p} - {p} == old(m.staleTails) - {p};
    QuietAgain(old(m.mem), mem1, mem2, m.L);
    QuietAgain(old(m.mem), mem2, m.mem, m.L);
  }

  lemma MappedBooks(m: MState, L: Chunks, S: Spans, h: nat, base: int, size: nat, direct: set<nat>)
    requires SegsOk(S, m.segs, m.ids, direct) && DirectOk(L, direct) && h !in S && m.direct == direct + {h}
    requires m.S == AddSpan(S, h, base, size) && Added(L, m.L, base) && m.L[base].home == h
    requires TopEnds(m.segs, m.top, m.topsize) && m.footprint == Total(S) + size <= m.maxFootprint && m.Listed()
    ensures m.Booked()
  {
    SegsDirect(S, m.segs, m.ids, direct, h, Span(base, size));
    TotalPut(S, h, Span(base, size));
    assert S - {h} == S;
    forall p {:trigger p in m.L} | p in m.L && m.L[p].kind.Mapped? ensures m.L[p].home in m.direct {
      assert p != base ==> p in L;
    }
  }

  /** A region of its own for a request: the list of segments is as it was, and the region is counted. */
  ghost predicate MappedFor(segs: seq<Span>, footprint: int, most: int, nb: nat, offer: Offer, p: int, m: MState)
    reads m
  {
    && offer.Granted? && p == offer.base && m.segs == segs && m.footprint == footprint + RegionSize(nb)
    && m.maxFootprint == Greater(most, m.footprint)
  }

  /** A segment for a request: the space joins what it touches, and is counted. */
  ghost predicate SegmentFor(segs: seq<Span>, top: int, footprint: int, most: int, nb: nat, offer: Offer, p: int,
                             m: MState)
    reads m
  {
    && offer.Granted? && p == ServedAt(segs, top, offer.base)
    && m.segs == Enlarged(segs, top, offer.base, SegmentSize(nb)) && m.footprint == footprint + SegmentSize(nb)
    && m.maxFootprint == Greater(most, m.footprint)
  }

  /** A region marked as one chunk, and counted. */
  method MapChunk(m: MState, mm: int, mmsize: nat)
    requires m.Valid() && m.Booked() && m.top != 0 && Fresh(m.S, m.alien, mm, mmsize)
    requires MMAP_PAD + MIN_LARGE <= mmsize && mmsize % PAGE == 0
    modifies m
    ensures m.alien == old(m.alien) && m.footprintLimit == old(m.footprintLimit) && m.segs == old(m.segs)
    ensures m.Valid() && m.Booked() && Added(old(m.L), m.L, mm) && Quiet(old(m.mem), m.mem, old(m.L))
    ensures m.L[mm].kind.Mapped? && m.L[mm].prv == 0 && m.L[mm].size == mmsize && ZeroPayload(m.mem, m.L, mm)
    ensures m.footprint == old(m.footprint) + mmsize && m.maxFootprint == Greater(old(m.maxFootprint), m.footprint)
  {
    hide MState.Stored, Added, Quiet, MState.Indexed, SegsOk, DirectOk, Total, Clears, TopEnds, ZeroPayload, Fresh;
    hide Roles, MState.Listed;
    ghost var h := NewName(m.S.Keys);
    Lower(m, mm);
    MarkMapped(m, mm, mmsize, h);
    Charged(m, mmsize, h, mm, old(m.L), old(m.S));
  }

  /** `mmap_alloc` */
  method MmapAlloc(m: MState, nb: nat, offer: Offer) returns (p: int)
    requires m.Valid() && m.Booked() && m.top != 0 && MIN_CHUNK <= nb < SPACE
    requires OfferOk(m.S, m.alien, offer, RegionSize(nb))
    modifies m
    ensures m.alien == old(m.alien)
    ensures m.Valid() && m.Booked() && m.footprintLimit == old(m.footprintLimit)
    ensures p == 0 ==> unchanged(m)
    ensures p != 0 <==>
              Affordable(old(m.footprint), m.footprintLimit, RegionSize(nb)) && nb < RegionSize(nb) && offer.Granted?
    ensures p != 0 ==>
              GaveMapped(old(m.L), m.L, p, nb) && ZeroPayload(m.mem, m.L, p) && Quiet(old(m.mem), m.mem, old(m.L))
    ensures p != 0 ==> MappedFor(old(m.segs), old(m.footprint), old(m.maxFootprint), nb, offer, p, m)
  {
    hide MState.Stored, Added, Quiet, MState.Indexed, SegsOk, DirectOk, Total, Clears, TopEnds, RegionSize, ZeroPayload;
    hide Affordable, Tiled, Tagged, LeastOk, Foreign, Roles, MState.Listed, Chained, OffState;
    var mmsize := RegionSize(nb);
    RegionHolds(nb);
    if !Affordable(m.footprint, m.footprintLimit, mmsize) {
      return 0;
    }
    if mmsize > nb && offer.Granted? {
      p := offer.base;
      MapChunk(m, p, mmsize);
    } else {
      p := 0;
    }
  }

  method Charged(m: MState, n: nat, ghost h: nat, ghost base: int, ghost L: Chunks, ghost S: Spans)
    requires SegsOk(S, m.segs, m.ids, m.direct) && DirectOk(L, m.direct) && h !in S && m.Listed()
    requires TopEnds(m.segs, m.top, m.topsize)
    requires m.S == AddSpan(S, h, base, n) && Added(L, m.L, base) && m.L[base].home == h
    requires m.footprint == Total(S) <= m.maxFootprint
    modifies m`footprint, m`maxFootprint, m`direct
    ensures m.Booked() && m.footprint == old(m.footprint) + n
    ensures m.maxFootprint == Greater(old(m.maxFootprint), m.footprint)
  {
    ghost var d := m.direct;
    m.direct := m.direct + {h};
    m.footprint := m.footprint + n;
    if m.footprint > m.maxFootprint {
      m.maxFootprint := m.footprint;
    }
    MappedBooks(m, L, S, h, base, n, d);
  }

  /** `p` is handed out in a region of its own; its usable space holds a request of `nb` bytes. */
  ghost predicate GaveMapped(L: Chunks, M: Chunks, p: int, nb: int) {
    Added(L, M, p) && M[p].kind.Mapped? && M[p].prv == 0 && nb + WORD <= HeadSize(M[p]) < nb + 24 + PAGE
  }

  /** A request is mapped by itself when it is large and the heap has been set up. */
  predicate MapsDirectly(nb: nat, topsize: int) { nb >= MMAP_THRESHOLD && topsize != 0 }

  /** The system can serve a request of `nb` bytes with a region of its own. */
  predicate DirectServes(nb: nat, topsize: int, footprint: int, limit: int, offer: Offer) {
    MapsDirectly(nb, topsize) && Affordable(footprint, limit, RegionSize(nb)) && nb < RegionSize(nb) && offer.Granted?
  }

  /** The system can serve a request of `nb` bytes with a segment. */
  predicate SegmentServes(nb: nat, footprint: int, limit: int, offer: Offer) {
    nb < SegmentSize(nb) && Affordable(footprint, limit, SegmentSize(nb)) && offer.Granted?
  }

  /** A padded request, or the marker of one too large. */
  predicate Padded(nb: nat) { (nb % 8 == 0 && MIN_CHUNK <= nb < SPACE) || nb == SPACE - 1 }

  /** `sys_alloc`: null, and nothing changed, just when the system cannot help. */
  method SysAlloc(m: MState, nb: nat, direct: Offer, offer: Offer) returns (p: int)
    requires m.Valid() && m.Booked() && Padded(nb) && OfferOk(m.S, m.alien, direct, RegionSize(nb))
    requires OfferOk(m.S, m.alien, offer, SegmentSize(nb))
    modifies m
    ensures m.alien == old(m.alien)
    ensures m.Valid() && m.Booked()
    ensures DirectServes(nb, old(m.topsize), old(m.footprint), old(m.footprintLimit), direct) ==>
              && p != 0 && GaveMapped(old(m.L), m.L, p, nb) && ZeroPayload(m.mem, m.L, p)
              && MappedFor(old(m.segs), old(m.footprint), old(m.maxFootprint), nb, direct, p, m)
    ensures !DirectServes(nb, old(m.topsize), old(m.footprint), old(m.footprintLimit), direct) ==>
              if SegmentServes(nb, old(m.footprint), old(m.footprintLimit), offer) then
                && p != 0 && Gave(old(m.L), m.L, p, nb)
                && SegmentFor(old(m.segs), old(m.top), old(m.footprint), old(m.maxFootprint), nb, offer, p, m)
              else p == 0 && unchanged(m)
    ensures Quiet(old(m.mem), m.mem, old(m.L))
  {
    hide MState.Stored, Gave, GaveMapped, MState.Indexed, SegsOk, DirectOk, Total, Clears, RegionSize, SegmentSize;
    hide ZeroPayload, FreeRegion, MState.Listed, Enlarged, ServedAt;
    if MapsDirectly(nb, m.topsize) {
      p := MmapAlloc(m, nb, direct);
      if p != 0 {
        return;
      }
    }
    var asize := SegmentSize(nb);
    SegmentHolds(nb);
    if asize <= nb || !Affordable(m.footprint, m.footprintLimit, asize) || offer.Refused? {
      return 0;
    }
    p := SegmentAlloc(m, nb, offer);
  }
}
