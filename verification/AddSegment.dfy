/** `add_segment`: a new segment apart from the others; the old top chunk becomes a free chunk, the
    record of its segment and fenceposts. */
module AddSegment {
  import opened Blocks
  import opened Free
  import opened Growth
  import opened Layout
  import opened MallocState
  import opened Memory
  import opened Records
  import opened Regions
  import opened Segments
  import opened Sizes
  import opened Words

  /** `align_offset(chunk2mem(a))` */
  function AlignOffset(a: int): int {
    if (a + 16) % 8 == 0 then 0 else 8 - (a + 16) % 8
  }

  /** Where the record of a segment goes that ends at `end` with a top chunk at `top`. */
  function RecordPlace(top: int, end: int): int {
    var raw := end - (RECORD + 32 + 7);
    var asp := raw + AlignOffset(raw);
    if asp < top + MIN_CHUNK then top else asp
  }

  /** The record is aligned, has room for itself and two fenceposts at least, and leaves nothing in
      front of it or a chunk. */
  lemma RecordFits(top: int, end: int)
    requires top % 8 == 0 && end % 8 == 0 && top + TOP_FOOT < end
    ensures var sp := RecordPlace(top, end);
            && sp % 8 == 0 && RECORD + 32 <= end - sp && top <= sp
            && (sp != top ==> MIN_CHUNK <= sp - top && end - sp == TOP_FOOT)
  {
  }

  /** The fenceposts behind a record. */
  method Fenceposts(m: MState, sp: int, end: int) returns (n: nat)
    requires m.Stored() && sp in m.L && m.L[sp].kind.Record? && Next(m.L, sp) == end && RECORD + 32 <= end - sp
    requires sp in m.notes && NoteAt(m.mem, sp, m.notes[sp]) && m.notes[sp].home == m.L[sp].home
    modifies m`mem, m`staleTails
    ensures m.Stored() && Quiet(old(m.mem), m.mem, m.L) && n >= 2 && m.staleTails == old(m.staleTails) - {sp}
  {
    hide MState.Stored, Tiled, Tailed;
    ChunkFacts(m, sp);
    var p := sp + RECORD;
    PutInside(m, sp, p + HEAD - sp, FENCEPOST);
    n := 1;
    while p + WORD + HEAD < end
      invariant m.Stored() && Quiet(old(m.mem), m.mem, m.L) && p == sp + RECORD + WORD * (n - 1) && n >= 1
      invariant m.staleTails == old(m.staleTails) + {sp} && NoteAt(m.mem, sp, m.notes[sp])
      invariant forall a {:trigger FenceAt(m.mem, a)} :: sp + RECORD + HEAD <= a <= p + HEAD && a % 8 == 0 ==>
                FenceAt(m.mem, a)
      decreases end - p
    {
      ghost var mem1 := m.mem;
      p := p + WORD;
      PutInside(m, sp, p + HEAD - sp, FENCEPOST);
      forall a {:trigger FenceAt(m.mem, a)} | sp + RECORD + HEAD <= a <= p + HEAD && a % 8 == 0
        ensures FenceAt(m.mem, a)
      {
        assert a != p + HEAD ==> FenceAt(mem1, a);
      }
      n := n + 1;
    }
    FixTail(m, sp);
    assert old(m.staleTails) + {sp} - {sp} == old(m.staleTails) - {sp};
  }

  // ---- the layout after the old top chunk is retired

  function Retired(L: Chunks, top: int, h: nat, base: int, size: nat): Chunks
    requires top in L
  {
    AddChunk(Reuse(L, top, Record), h, base, size, Top)
  }

  lemma RetiredRoles(L: Chunks, dv: int, dvsize: int, top: int, topsize: int, h: nat, base: int, size: nat)
    requires Roles(L, dv, dvsize, top, topsize, {}) && top != 0 && base !in L && base > 0 && TOP_FOOT < size
    ensures top in L && Roles(Retired(L, top, h, base, size), dv, dvsize, base, size - TOP_FOOT, {})
    ensures Beside(L, 0, Retired(L, top, h, base, size), 0) && dv != top
  {
    var M := Retired(L, top, h, base, size);
    assert RoleOk(L, dv, top, {}, top);
    assert dv in L ==> RoleOk(L, dv, top, {}, dv);
    forall q {:trigger RoleOk(M, dv, base, {}, q)} | q in M ensures RoleOk(M, dv, base, {}, q) {
      assert q in L ==> RoleOk(L, dv, top, {}, q);
    }
  }

  /** The front of a chunk of the allocator's own counted as live. */
  lemma FrontBeside(L: Chunks, S: Spans, p: int, n: nat)
    requires CanCut(L, S, p, n, Live) && !Owned(L[p].kind) && 0 !in L
    ensures Beside(L, 0, Cut(L, p, n, Live), p) && p + n in Cut(L, p, n, Live)
    ensures Cut(L, p, n, Live)[p + n].kind == L[p].kind
    ensures Cut(L, p, n, Live)[p] == L[p].(size := n, kind := Live, flag := false)
    ensures Cut(L, p, n, Live)[p + n].size == L[p].size - n
  {
    CutFresh(L, S, p, n, Live);
    ChunkAt(L, S, p);
  }

  /** The old top chunk retired and the new one in place, all but the head words written. */
  ghost method GhostRenew(m: MState, h: nat, base: int, size: nat)
    requires m.Valid() && m.top != 0 && h !in m.S && Fresh(m.S, m.alien, base, size) && m.leastAddr <= base
    requires TOP_FOOT < size
    modifies m`L, m`S, m`staleTails, m`staleHeads, m`staleFeet
    ensures m.Stored() && m.Indexed() && m.staleHeads == m.staleTails == {m.top, base} && m.staleFeet == {}
    ensures m.top in old(m.L) && m.L == Retired(old(m.L), m.top, h, base, size)
    ensures m.S == AddSpan(old(m.S), h, base, size)
    ensures m.L[m.top] == old(m.L)[m.top].(kind := Record, flag := false) && base in m.L
    ensures m.L[base] == Chunk(size, 0, Top, h) && base != m.top
    ensures Roles(m.L, m.dv, m.dvsize, base, size - TOP_FOOT, {}) && Beside(old(m.L), 0, m.L, 0) && m.dv != m.top
    ensures Pin(m.L, m.top)
  {
    hide Tiled, Tagged, Bins, RingsStored, TriesStored, OffState, LeastOk, Beside, Clears, MState.Indexed;
    var p := m.top;
    assert RoleOk(m.L, m.dv, m.top, {}, m.top);
    ChunkAt(m.L, m.S, p);
    AddTiled(m.L, m.S, h, base, size, Top);
    RetiredRoles(m.L, m.dv, m.dvsize, p, m.topsize, h, base, size);
    GhostRetire(m, p);
    GhostAdd(m, h, base, size, Top);
    DropFoot(m, base);
  }

  /** The layout with the new top chunk and the record; the front of the old top chunk, if any is left,
      is counted as live. */
  ghost predicate Renewed(L: Chunks, dv: int, dvsize: int, tbase: int, tsize: nat, p: int, sp: int, end: int) {
    && Roles(L, dv, dvsize, tbase, tsize - TOP_FOOT, {}) && tbase in L && L[tbase].kind.Top? && L[tbase].size == tsize
    && sp in L && L[sp].kind.Record? && Next(L, sp) == end && Pin(L, sp) && tbase != sp
    && (sp != p ==> p in L && L[p].kind.Live? && Next(L, p) == sp && Pin(L, p) && dv != p && tbase != p)
  }

  ghost method GhostRecord(m: MState, h: nat, tbase: int, tsize: nat, sp: int, end: int)
    requires m.Valid() && m.top != 0 && h !in m.S && Fresh(m.S, m.alien, tbase, tsize) && m.leastAddr <= tbase
    requires TOP_FOOT < tsize
    requires m.top in m.L && end == Next(m.L, m.top) && sp == RecordPlace(m.top, end)
    modifies m`L, m`S, m`staleTails, m`staleHeads, m`staleFeet
    ensures m.Stored() && m.staleHeads <= {m.top, sp, tbase} && m.staleFeet == {} && m.staleTails == {sp, tbase}
    ensures m.S == AddSpan(old(m.S), h, tbase, tsize) && Renewed(m.L, m.dv, m.dvsize, tbase, tsize, m.top, sp, end)
    ensures Beside(old(m.L), 0, m.L, if sp == m.top then 0 else m.top) && RECORD + 32 <= end - sp
    ensures m.L[sp].home == old(m.L)[m.top].home
  {
    hide Tiled, Tagged, Bins, RingsStored, TriesStored, OffState, LeastOk, Beside, Fresh, Cut, MState.Indexed;
    hide RecordPlace;
    var p := m.top;
    ChunkAt(m.L, m.S, p);
    assert RoleOk(m.L, m.dv, m.top, {}, m.top);
    RecordFits(p, end);
    assert p !in m.notes;
    GhostRenew(m, h, tbase, tsize);
    if sp != p {
      var L1 := m.L;
      CutRecord(m, p, sp - p, tbase);
      BesideTrans(old(m.L), 0, L1, 0, m.L, p);
    }
  }

  /** The heads of the new top chunk and of the record, the record `s`, and the fenceposts. */
  method WriteRecord(m: MState, tbase: int, tsize: nat, sp: int, end: int, s: Seg, ghost p: int)
    requires m.Stored() && m.staleHeads <= {p, sp, tbase} && m.staleFeet == {} && m.staleTails == {sp, tbase}
    requires TOP_FOOT < tsize && Renewed(m.L, m.dv, m.dvsize, tbase, tsize, p, sp, end) && RECORD + 32 <= end - sp
    modifies m`mem, m`notes, m`staleHeads, m`staleTails, m`top, m`topsize, m`trimCheck
    ensures m.Stored() && m.staleTails == {} && m.staleHeads <= (if sp == p then {} else {p}) && m.top == tbase
    ensures m.topsize == tsize - TOP_FOOT && m.notes == old(m.notes)[sp := Note(s.base, s.size, s.next, m.L[sp].home)]
    ensures Quiet(old(m.mem), m.mem, m.L)
  {
    hide MState.Stored, Quiet, Roles;
    InitTop(m, tbase, tsize - TOP_FOOT);
    ghost var mem1 := m.mem;
    ChunkFacts(m, sp);
    PutHead(m, sp, RECORD + 2 + 1);
    ghost var mem2 := m.mem;
    PutFields(m, sp, s.base, s.size, s.next);
    ghost var mem3 := m.mem;
    Renote(m, sp, Note(s.base, s.size, s.next, m.L[sp].home));
    var n := Fenceposts(m, sp, end);
    QuietAgain(old(m.mem), mem1, mem2, m.L);
    QuietAgain(old(m.mem), mem2, mem3, m.L);
    QuietAgain(old(m.mem), mem3, m.mem, m.L);
  }

  /** The new segment at the head of the list. */
  lemma AddBooks(m: MState, L: Chunks, S: Spans, segs: seq<Span>, ids: seq<nat>, h: nat, base: int, size: nat)
    requires SegsOk(S, segs, ids, m.direct) && DirectOk(L, m.direct) && Beside(L, 0, m.L, 0) && 0 !in m.L && h !in S
    requires m.S == AddSpan(S, h, base, size) && m.segs == [Span(base, size)] + segs && m.ids == [h] + ids && m.Listed()
    requires m.top == base != 0 && m.topsize == size - TOP_FOOT && m.footprint == Total(S) + size <= m.maxFootprint
    requires Whole(size)
    ensures m.Booked()
  {
    SegsPush(S, segs, ids, m.direct, h, Span(base, size));
    TotalPut(S, h, Span(base, size));
    assert S - {h} == S;
    DirectKept(L, 0, m.L, 0, m.direct);
  }

  /** Where the old top chunk ends: `segment_holding(m, m->top)` */
  method OldEnd(m: MState, ghost n: int) returns (end: int)
    requires m.Valid() && m.Owing(n) && m.top != 0
    ensures m.top in m.L && m.L[m.top].kind.Top? && end == Next(m.L, m.top) && m.segs != [] && |m.ids| == |m.segs|
    ensures m.L[m.top].home == m.ids[0]
  {
    hide MState.Stored, SegsOk, DirectOk, MState.Indexed, MState.Listed, Total;
    TopHome(m, n);
    ListedLengths(m);
    var oldsp, k := SegmentHolding(m, m.top);
    TopInFirst(m, n);
    assert k == 0;
    RecordReads(m, 0);
    var s := ReadSeg(m.seg, m.mem, oldsp);
    end := s.base + s.size;
  }

  /** The rest of the old top chunk, in front of the record, goes into a bin. */
  method BinFront(m: MState, p: int, sp: int, ghost L0: Chunks, ghost mem0: Words)
    requires Closing(m, p, sp - p) && sp in m.L && InUse(m.L[sp].kind)
    requires Beside(L0, 0, m.L, p) && Quiet(mem0, m.mem, m.L)
    modifies m`mem, m`smallmap, m`treemap, m`L, m`rings, m`tries, m`staleHeads, m`staleFeet, m`dvsize
    ensures m.Valid() && Beside(L0, 0, m.L, 0) && Quiet(mem0, m.mem, m.L)
  {
    hide MState.Stored, MState.Indexed, Beside, Quiet, Roles;
    ghost var L1, mem1 := m.L, m.mem;
    var large := IntoGap(m, p, sp - p, sp);
    NullIsFree(m);
    BesideTrans(L0, 0, L1, p, m.L, 0);
    QuietTrans(mem0, L1, mem1, p, m.L, m.mem);
  }

  method NewTop(m: MState, tbase: int, tsize: nat, sp: int, end: int, ghost h: nat)
    requires m.Valid() && m.top != 0 && h !in m.S && Fresh(m.S, m.alien, tbase, tsize)
    requires m.leastAddr <= tbase && TOP_FOOT < tsize
    requires m.top in m.L && end == Next(m.L, m.top) && sp == RecordPlace(m.top, end)
    modifies m`mem, m`smallmap, m`treemap, m`L, m`S, m`notes, m`staleTails, m`rings, m`tries, m`staleHeads, m`staleFeet
    modifies m`dvsize, m`top, m`topsize, m`trimCheck
    ensures m.Valid() && m.S == AddSpan(old(m.S), h, tbase, tsize) && m.top == tbase && m.topsize == tsize - TOP_FOOT
    ensures Beside(old(m.L), 0, m.L, 0) && Quiet(old(m.mem), m.mem, m.L)
    ensures m.notes == old(m.notes)[sp := Note(m.seg.base, m.seg.size, m.seg.next, old(m.L)[old(m.top)].home)]
  {
    hide MState.Stored, Beside, Quiet, Fresh, MState.Indexed, AddSpan, RecordPlace, Roles;
    var oldTop := m.top;
    GhostRecord(m, h, tbase, tsize, sp, end);
    WriteRecord(m, tbase, tsize, sp, end, m.seg, oldTop);
    if sp != oldTop {
      BinFront(m, oldTop, sp, old(m.L), old(m.mem));
    }
  }

  /** The place of the new record is inside the top chunk, where there is none yet. */
  lemma NotNoted(m: MState, top: int, end: int, sp: int)
    requires m.Stored() && top in m.L && m.L[top].kind.Top? && end == Next(m.L, top) && sp == RecordPlace(top, end)
    ensures sp !in m.notes
  {
    ChunkAt(m.L, m.S, top);
    RecordFits(top, end);
    assert sp in m.L && sp != top ==> Apart(m.L, top, sp);
  }

  lemma TopInFirst(m: MState, n: int)
    requires m.Valid() && m.Owing(n) && m.top != 0
    ensures m.segs != [] && m.segs[0].base <= m.top < m.segs[0].End()
  {
    TopHome(m, n);
    SegHome(m, n, 0);
    ChunkAt(m.L, m.S, m.top);
  }

  /** The list with the new segment at its head. */
  lemma PushedLinks(seg: Seg, segs: seq<Span>, ids: seq<nat>, links: seq<int>, notes: Notes, h: nat, x: Span, sp: int)
    requires Chained(seg, segs, ids, links, notes) && segs != [] && h !in ids && sp !in notes
    ensures Chained(Seg(x.base, x.size, sp + FD), [x] + segs, [h] + ids, [0] + links[0 := sp],
                    notes[sp := Note(seg.base, seg.size, seg.next, ids[0])])
  {
    var segs', ids', links' := [x] + segs, [h] + ids, [0] + links[0 := sp];
    var notes' := notes[sp := Note(seg.base, seg.size, seg.next, ids[0])];
    forall k {:trigger LinkAt(segs', ids', links', notes', k)} | 0 < k < |segs'|
      ensures LinkAt(segs', ids', links', notes', k)
    {
      assert k > 1 ==> LinkAt(segs, ids, links, notes, k - 1);
    }
  }

  /** The record in the state is that of the new segment, and leads to the one at `sp`. */
  method PushRecord(m: MState, tbase: int, tsize: nat, sp: int, ghost h: nat, ghost notes: Notes)
    requires Chained(m.seg, m.segs, m.ids, m.links, notes) && m.segs != [] && h !in m.ids && sp !in notes
    requires m.ids != [] && m.notes == notes[sp := Note(m.seg.base, m.seg.size, m.seg.next, m.ids[0])]
    modifies m`seg, m`segs, m`ids, m`links
    ensures m.Listed() && m.segs == [Span(tbase, tsize)] + old(m.segs) && m.ids == [h] + old(m.ids)
  {
    PushedLinks(m.seg, m.segs, m.ids, m.links, notes, h, Span(tbase, tsize), sp);
    m.seg := Seg(tbase, tsize, sp + FD);
    m.segs, m.ids, m.links := [Span(tbase, tsize)] + m.segs, [h] + m.ids, [0] + m.links[0 := sp];
  }

  /** `add_segment` */
  method AddSegment(m: MState, tbase: int, tsize: nat)
    requires m.Valid() && m.Owing(tsize) && m.top != 0 && Fresh(m.S, m.alien, tbase, tsize) && m.leastAddr <= tbase
    requires TOP_FOOT < tsize && Whole(tsize)
    modifies m`mem, m`smallmap, m`treemap, m`L, m`S, m`staleTails, m`rings, m`tries, m`staleHeads, m`staleFeet, m`dvsize
    modifies m`top, m`topsize, m`trimCheck, m`seg, m`segs, m`ids, m`links, m`notes
    ensures m.Valid() && m.Booked() && m.topsize == tsize - TOP_FOOT && m.top == tbase
    ensures m.segs == [Span(tbase, tsize)] + old(m.segs)
    ensures Beside(old(m.L), 0, m.L, 0) && Quiet(old(m.mem), m.mem, m.L)
  {
    hide MState.Stored, Beside, Quiet, SegsOk, DirectOk, Total, MState.Indexed, Chained, Fresh, AddSpan, RecordPlace;
    ghost var h := NewName(m.S.Keys);
    TopHome(m, tsize);
    NotListed(m, h);
    var end := OldEnd(m, tsize);
    var sp := RecordPlace(m.top, end);
    NotNoted(m, m.top, end, sp);
    NewTop(m, tbase, tsize, sp, end, h);
    PushRecord(m, tbase, tsize, sp, h, old(m.notes));
    AddBooks(m, old(m.L), old(m.S), old(m.segs), old(m.ids), h, tbase, tsize);
  }

  lemma NotListed(m: MState, h: nat)
    requires SegsOk(m.S, m.segs, m.ids, m.direct) && h !in m.S && m.Listed()
    ensures h !in m.ids && |m.links| == |m.segs|
  {
    assert NameOk(m.S, m.ids, m.direct, h);
  }

  ghost method CutRecord(m: MState, p: int, n: nat, top: int)
    requires m.Stored() && m.staleHeads == m.staleTails == {p, top} && m.staleFeet == {} && p != top && p in m.L
    requires m.L[p].kind.Record? && Pin(m.L, p) && p !in m.notes
    requires n % 8 == 0 && MIN_CHUNK <= n && m.L[p].size == n + TOP_FOOT && p != 0 && m.dv != p
    requires top in m.L && m.L[top].kind.Top? && Roles(m.L, m.dv, m.dvsize, top, m.L[top].size - TOP_FOOT, {})
    modifies m`L, m`staleHeads, m`staleFeet, m`staleTails
    ensures m.Stored() && m.staleHeads == {p, p + n, top} && m.staleFeet == {} && m.staleTails == {p + n, top}
    ensures p in m.L && m.L[p].kind.Live? && m.L[p].size == n && Pin(m.L, p) && top in m.L && m.L[top] == old(m.L)[top]
    ensures p + n in m.L && m.L[p + n].kind.Record? && m.L[p + n].size == TOP_FOOT && Pin(m.L, p + n)
    ensures m.L[p + n].home == old(m.L)[p].home
    ensures Beside(old(m.L), 0, m.L, p) && Roles(m.L, m.dv, m.dvsize, top, m.L[top].size - TOP_FOOT, {})
  {
    hide Tagged, Bins, RingsStored, TriesStored, OffState, LeastOk, Beside;
    RolesCut(m.L, m.S, m.dv, m.dvsize, top, m.L[top].size - TOP_FOOT, {}, p, n);
    FrontBeside(m.L, m.S, p, n);
    CutFresh(m.L, m.S, p, n, Live);
    ChunkAt(m.L, m.S, p);
    CutRetags(m.L, m.S, p, n, Live);
    CutTiled(m.L, m.S, p, n, Live);
    m.staleTails := {p, p + n, top};
    CutTails(m.mem, m.L, m.S, p, n, Live, m.staleTails, m.notes);
    Relayout(m, Cut(m.L, p, n, Live), {p, p + n}, CutFeet(m.L, p, n, Live));
    FixTail(m, p);
    ChunkAt(m.L, m.S, p + n);
  }
}
