/** `dlfree` */
module Dlfree {
  import opened Free
  import opened Growth
  import opened Layout
  import opened MallocState
  import opened Memory
  import opened Regions
  import opened Segments
  import opened Sizes
  import opened Trim
  import opened Words
  import SysMalloc

  // ---- chunks in a region of their own

  /** The region of a mapped chunk. */
  function Region(L: Chunks, p: int): Span
    requires p in L
  {
    Span(p - L[p].prv, L[p].prv + L[p].size, L[p].prv)
  }

  lemma MappedAlone(L: Chunks, S: Spans, p: int, q: int)
    requires Tiled(L, S) && p in L && L[p].kind.Mapped? && q in L && L[q].home == L[p].home
    ensures q == p && L[p].home in S && S[L[p].home] == Region(L, p)
  {
    ChunkAt(L, S, p);
    ChunkAt(L, S, q);
    assert q != p ==> Apart(L, p, q);
  }

  lemma UnmapRoles(L: Chunks, S: Spans, dv: int, dvsize: int, top: int, topsize: int, p: int)
    requires Roles(L, dv, dvsize, top, topsize, {}) && Tiled(L, S) && p in L && L[p].kind.Mapped?
    ensures var M := DropChunks(L, L[p].home);
            Roles(M, dv, dvsize, top, topsize, {}) && Beside(L, p, M, 0) && SameRecords(L, M) && L[p].home in S
                && S[L[p].home] == Region(L, p)
    ensures forall q {:trigger q in L} :: q in L && L[q].home == L[p].home ==> !L[q].kind.Binned?
  {
    var M := DropChunks(L, L[p].home);
    forall q {:trigger q in L} | q in L ensures L[q].home == L[p].home <==> q == p {
      if L[q].home == L[p].home {
        MappedAlone(L, S, p, q);
      }
    }
    MappedAlone(L, S, p, p);
    assert RoleOk(L, dv, top, {}, p);
    forall q {:trigger RoleOk(M, dv, top, {}, q)} | q in M ensures RoleOk(M, dv, top, {}, q) {
      assert RoleOk(L, dv, top, {}, q);
    }
  }

  lemma UnmapBooks(m: MState, L: Chunks, S: Spans, p: int, direct: set<nat>)
    requires SegsOk(S, m.segs, m.ids, direct) && DirectOk(L, direct) && p in L && L[p].kind.Mapped? && Tiled(L, S)
    requires m.direct == direct - {L[p].home} && m.S == S - {L[p].home} && L[p].home in S
    requires S[L[p].home] == Region(L, p)
    requires m.L == DropChunks(L, L[p].home) && TopEnds(m.segs, m.top, m.topsize) && m.Listed()
    requires m.footprint == Total(S) - Region(L, p).size <= m.maxFootprint
    ensures m.Booked()
  {
    var h := L[p].home;
    assert p in L;
    SegsUndirect(S, m.segs, m.ids, direct, h);
    TotalOf(S, h);
  }

  /** No record lies in the region of a mapped chunk. */
  lemma MappedUnnoted(m: MState, p: int)
    requires m.Stored() && m.staleTails == {} && p in m.L && m.L[p].kind.Mapped?
    ensures NotesOff(m.notes, m.L[p].home) == m.notes
  {
    forall q {:trigger q in m.notes} | q in m.notes ensures m.notes[q].home != m.L[p].home {
      assert TailOk(m.mem, m.L, q, m.notes);
      if m.L[q].home == m.L[p].home {
        MappedAlone(m.L, m.S, p, q);
      }
    }
  }

  /** A mapped chunk goes back to the system. */
  method Unmap(m: MState, p: int, psize: int)
    requires m.Valid() && m.Booked() && p in m.L && m.L[p].kind.Mapped? && psize == Region(m.L, p).size
    modifies m`L, m`S, m`notes, m`staleTails, m`staleHeads, m`staleFeet, m`direct, m`footprint
    ensures m.Valid() && m.Booked() && Removed(old(m.L), m.L, p) && m.footprint == old(m.footprint) - psize
    ensures SameRecords(old(m.L), m.L)
    ensures m.L == DropChunks(old(m.L), old(m.L)[p].home) && m.S == old(m.S) - {old(m.L)[p].home}
  {
    hide Tagged, Bins, RingsStored, TriesStored, OffState, LeastOk, Beside, SegsOk, DirectOk, Total, TopEnds;
    hide DropChunks, MState.Indexed, MState.Listed;
    ghost var h := m.L[p].home;
    UnmapRoles(m.L, m.S, m.dv, m.dvsize, m.top, m.topsize, p);
    MappedUnnoted(m, p);
    GhostDrop(m, h);
    m.footprint := m.footprint - psize;
    m.direct := m.direct - {h};
    UnmapBooks(m, old(m.L), old(m.S), p, old(m.direct));
  }

  lemma FreedBooks(m: MState, L: Chunks, p: int, top: int, topsize: int)
    requires SegsOk(m.S, m.segs, m.ids, m.direct) && DirectOk(L, m.direct) && Beside(L, p, m.L, 0) && m.Cast({})
    requires TopEnds(m.segs, top, topsize) && top > 0 && topsize >= 0 && m.top + m.topsize == top + topsize
    requires m.Listed()
    requires m.footprint == Total(m.S) <= m.maxFootprint
    ensures m.Booked()
  {
    DirectKept(L, p, m.L, 0, m.direct);
  }

  /** A chunk of a segment freed, the books kept. */
  method FreeInHeap(m: MState, p: int, psize: int) returns (large: bool, grown: bool)
    requires m.Valid() && m.Booked() && p in m.L && m.L[p].kind.Live? && m.L[p].size == psize
    modifies m`mem, m`smallmap, m`treemap, m`L, m`rings, m`tries, m`staleHeads, m`staleFeet, m`dv, m`dvsize, m`top
    modifies m`topsize
    ensures m.Valid() && m.Booked() && Removed(old(m.L), m.L, p) && Quiet(old(m.mem), m.mem, m.L) && (large ==> !grown)
    ensures m.top != 0 && Disposed(old(m.L), m.L, p, large, grown)
    ensures m.topsize == TopsizeAfter(old(m.L), p, old(m.topsize))
    ensures SameRecords(old(m.L), m.L)
  {
    hide Tiled, Tagged, Bins, RingsStored, TriesStored, OffState, LeastOk, Beside, SegsOk, DirectOk, Total, Quiet;
    hide MState.Indexed, SameRecords, MState.Listed, Disposed, TopsizeAfter;
    ChunkAt(m.L, m.S, m.top);
    SysMalloc.TopPositive(m);
    large, grown := Dispose(m, p, psize);
    TopAfter(m, old(m.L), old(m.S), old(m.dv), old(m.dvsize), old(m.top), old(m.topsize), p, large, grown);
    FreedBooks(m, old(m.L), p, old(m.top), old(m.topsize));
  }

  /** The size of the top chunk after a free. */
  function TopsizeAfter(L: Chunks, p: int, topsize: int): int
    requires p in L
  {
    if GapKind(L, p).Top? then GapSize(L, p) - TOP_FOOT else topsize
  }

  lemma TopAfter(m: MState, L: Chunks, S: Spans, dv: int, dvsize: int, top: int, topsize: int, p: int, large: bool,
                 grown: bool)
    requires Tiled(L, S) && Roles(L, dv, dvsize, top, topsize, {}) && m.Valid() && p in L && L[p].kind.Live? && top != 0
    requires Disposed(L, m.L, p, large, grown)
    ensures m.topsize == TopsizeAfter(L, p, topsize)
  {
    hide Tiled, MState.Stored, MState.Indexed;
    GapOk(L, S, p);
    var q := GapStart(L, p);
    assert RoleOk(m.L, m.dv, m.top, {}, q);
    assert RoleOk(L, dv, top, {}, top);
    if !grown {
      TopOutside(L, S, top, p);
      assert RoleOk(m.L, m.dv, m.top, {}, top);
    }
  }

  /** A top chunk that does not take in the freed chunk is as it was. */
  lemma TopOutside(L: Chunks, S: Spans, top: int, p: int)
    requires Tiled(L, S) && p in L && L[p].kind.Live? && top in L && L[top].kind.Top? && !GapKind(L, p).Top?
    ensures top in AfterFree(L, p) && AfterFree(L, p)[top].size == L[top].size && AfterFree(L, p)[top].kind.Top?
  {
    hide Tiled;
    GapOk(L, S, p);
    if GapStart(L, p) <= top < GapEnd(L, p) {
      GapOnly(L, S, p, top);
    }
  }

  /** What the words of a chunk in the hands of the client say. */
  lemma OwnedWords(m: MState, p: int)
    requires m.Valid() && p in m.L && Owned(m.L[p].kind)
    ensures var w := At(m.mem, p + HEAD);
            && OkAddress(m, p) && IsInUse(w) && ChunkSize(w) == HeadSize(m.L[p])
            && (!PInUse(w) && !CInUse(w) <==> m.L[p].kind.Mapped?)
            && (m.L[p].kind.Mapped? ==> At(m.mem, p) == m.L[p].prv)
            && p < p + ChunkSize(w) && PInUse(At(m.mem, p + ChunkSize(w) + HEAD))
  {
    HeadBits(m.L, m.S, p);
    HeadAt(m, p);
    ChunkAddressOk(m, p);
    ChunkAt(m.L, m.S, p);
    assert FootOk(m.mem, m.L, p) && TailOk(m.mem, m.L, p, m.notes);
    if !m.L[p].kind.Mapped? {
      NextAt(m.L, m.S, p);
      HeadBits(m.L, m.S, Next(m.L, p));
      HeadAt(m, Next(m.L, p));
    }
  }

  /** The answers of the system to the calls that one `free` may make. */
  datatype Answers = Answers(unmapped: bool, shrunk: bool, segments: seq<bool>)

  /** The accounts that decide what goes back to the system. */
  datatype Accounts = Accounts(segs: seq<Span>, topsize: int, trimCheck: int, releaseChecks: int, footprint: int)

  ghost function Books(m: MState): Accounts
    reads m
  {
    Accounts(m.segs, m.topsize, m.trimCheck, m.releaseChecks, m.footprint)
  }

  /** The top chunk has grown beyond the threshold: the heap is trimmed. */
  predicate Trims(b: Accounts, grown: bool) { grown && b.topsize > b.trimCheck }

  /** It is time to look for idle segments. */
  predicate Scans(b: Accounts, large: bool) { large && b.releaseChecks == 1 }

  /** What goes back to the system after a free that has led to layout `L` and accounts `b`. */
  ghost predicate GaveBack(L: Chunks, b: Accounts, large: bool, grown: bool, a: Answers, m: MState)
    reads m
  {
    if Trims(b, grown) then
      TrimmedAll(L, b.segs, b.topsize, b.trimCheck, 0, a.shrunk, a.segments, m, b.footprint - m.footprint)
    else if Scans(b, large) then
      && Pruned(L, b.segs, a.segments, m.L, m.segs)
      && Books(m) == Accounts(m.segs, b.topsize, b.trimCheck, NextScan(|b.segs| - 1),
                              b.footprint - Released(L, b.segs[1..], a.segments))
    else
      m.L == L && Books(m) == b.(releaseChecks := if large then b.releaseChecks - 1 else b.releaseChecks)
  }

  /** The calls that give memory back, after a chunk was freed. */
  method GiveBack(m: MState, large: bool, grown: bool, a: Answers)
    requires m.Valid() && m.Booked() && m.top != 0 && (large ==> !grown)
    modifies m
    ensures m.alien == old(m.alien)
    ensures m.Valid() && m.Booked() && Beside(old(m.L), 0, m.L, 0) && Quiet(old(m.mem), m.mem, m.L)
    ensures m.footprint <= old(m.footprint) && GaveBack(old(m.L), old(Books(m)), large, grown, a, m)
    ensures !Trims(old(Books(m)), grown) && !Scans(old(Books(m)), large) ==> m.S == old(m.S)
  {
    hide MState.Stored, Beside, SegsOk, DirectOk, Total, Quiet, Roles, MState.Indexed, MState.Listed;
    hide TrimmedAll, Pruned, Released, NextScan;
    BesideSame(m.L, m.mem, 0);
    if grown {
      if m.topsize > m.trimCheck {
        var released := SysTrim(m, 0, a.shrunk, a.segments);
      }
    } else if large {
      m.releaseChecks := m.releaseChecks - 1;
      if m.releaseChecks == 0 {
        var released := ReleaseUnused(m, a.segments);
      }
    }
  }

  method FreeMapped(m: MState, p: int, psize: int, unmapped: bool)
    requires m.Valid() && m.Booked() && p in m.L && m.L[p].kind.Mapped? && psize == Region(m.L, p).size
    modifies m
    ensures m.alien == old(m.alien)
    ensures m.Valid() && m.Booked() && m.footprint <= old(m.footprint) && Quiet(old(m.mem), m.mem, m.L)
    ensures if unmapped then Removed(old(m.L), m.L, p) && m.footprint == old(m.footprint) - psize else unchanged(m)
    ensures unmapped ==> m.L == DropChunks(old(m.L), old(m.L)[p].home) && m.S == old(m.S) - {old(m.L)[p].home}
    ensures m.segs == old(m.segs) && m.top == old(m.top) && m.topsize == old(m.topsize)
    ensures m.trimCheck == old(m.trimCheck)
    ensures m.releaseChecks == old(m.releaseChecks) && SameRecords(old(m.L), m.L)
  {
    hide Tiled, Tagged, Bins, RingsStored, TriesStored, OffState, LeastOk, Beside, SegsOk, DirectOk, Total;
    hide MState.Indexed, MState.Listed;
    ChunkAt(m.L, m.S, p);
    if unmapped {
      Unmap(m, p, psize);
    }
  }

  /** The accounts after a chunk of a segment has been freed, and before anything goes back. */
  function BooksAfter(L: Chunks, p: int, b: Accounts): Accounts
    requires p in L
  {
    b.(topsize := TopsizeAfter(L, p, b.topsize))
  }

  /** Freeing the chunk at `p` makes a large chunk in a bin, or makes the top chunk grow. */
  predicate FreesLarge(L: Chunks, p: int)
    requires p in L
  {
    GapKind(L, p).Binned? && MIN_LARGE <= GapSize(L, p)
  }

  predicate GrowsTop(L: Chunks, p: int)
    requires p in L
  {
    GapKind(L, p).Top?
  }

  /** All that a free of the chunk at `p` of a segment does to the layout and the accounts. */
  ghost predicate FreedLive(L: Chunks, p: int, b: Accounts, a: Answers, m: MState)
    requires p in L
    reads m
  {
    GaveBack(AfterFree(L, p), BooksAfter(L, p, b), FreesLarge(L, p), GrowsTop(L, p), a, m)
  }

  /** The same where there is such a chunk. */
  ghost predicate FreedBlock(L: Chunks, p: int, b: Accounts, a: Answers, m: MState)
    reads m
  {
    p in L && L[p].kind.Live? ==> FreedLive(L, p, b, a, m)
  }

  method FreeLive(m: MState, p: int, psize: int, a: Answers)
    requires m.Valid() && m.Booked() && p in m.L && m.L[p].kind.Live? && psize == m.L[p].size
    modifies m
    ensures m.alien == old(m.alien)
    ensures m.Valid() && m.Booked() && m.footprint <= old(m.footprint) && Quiet(old(m.mem), m.mem, m.L)
    ensures Removed(old(m.L), m.L, p) && FreedLive(old(m.L), p, old(Books(m)), a, m)
  {
    hide MState.Stored, Beside, SegsOk, DirectOk, Total, Quiet, TopEnds, MState.Indexed, MState.Listed;
    hide GaveBack, AfterFree, GapKind, GapSize, TopsizeAfter;
    var large, grown := FreeInHeap(m, p, psize);
    ghost var L1, mem1 := m.L, m.mem;
    assert Books(m) == BooksAfter(old(m.L), p, old(Books(m)));
    GiveBack(m, large, grown, a);
    BesideTrans(old(m.L), p, L1, 0, m.L, 0);
    QuietTrans(old(m.mem), L1, mem1, 0, m.L, m.mem);
  }

  /** `dlfree` of a chunk, or of null.  A mapped chunk that the system does not take back stays mapped. */
  method DlFree(m: MState, p: int, a: Answers)
    requires m.Valid() && m.Booked() && (p != 0 ==> p in m.L && Owned(m.L[p].kind))
    modifies m
    ensures m.alien == old(m.alien)
    ensures m.Valid() && m.Booked() && Quiet(old(m.mem), m.mem, m.L) && m.footprint <= old(m.footprint)
    ensures if p == 0 || (old(m.L)[p].kind.Mapped? && !a.unmapped) then unchanged(m) else Removed(old(m.L), m.L, p)
    ensures p != 0 && old(m.L)[p].kind.Mapped? && a.unmapped ==>
              && m.L == DropChunks(old(m.L), old(m.L)[p].home)
              && Books(m) == old(Books(m)).(footprint := old(m.footprint) - Region(old(m.L), p).size)
    ensures p != 0 && old(m.L)[p].kind.Live? ==> FreedLive(old(m.L), p, old(Books(m)), a, m)
  {
    hide MState.Stored, Beside, SegsOk, DirectOk, Total, Quiet, MState.Indexed, ChunkSize, PInUse, CInUse;
    hide MState.Listed, FreedLive, DropChunks;
    BesideSame(m.L, m.mem, 0);
    if p != 0 {
      OwnedWords(m, p);
      var w := At(m.mem, p + HEAD);
      assert OkAddress(m, p) && IsInUse(w);   // RTCHECK
      if !PInUse(w) && !CInUse(w) {
        var prevsize := At(m.mem, p);
        FreeMapped(m, p, ChunkSize(w) + prevsize + MMAP_PAD, a.unmapped);
      } else {
        FreeLive(m, p, ChunkSize(w), a);
      }
    }
  }

  /** When the top chunk grows beyond the threshold and the system agrees, it is cut down to less than two units, and
      the footprint falls by what it loses and by the idle segments. */
  lemma FreeTrims(m: MState, L: Chunks, p: int, b: Accounts, a: Answers)
    requires p in L && FreedLive(L, p, b, a, m)
    requires GrowsTop(L, p) && GapSize(L, p) - TOP_FOOT > b.trimCheck && a.shrunk && GapSize(L, p) > 2 * TOP_FOOT
    ensures TOP_FOOT < m.topsize <= TOP_FOOT + GRANULARITY && b.segs != []
    ensures var lost := GapSize(L, p) - TOP_FOOT - m.topsize;
            m.footprint == b.footprint - lost - Released(AfterFree(L, p), b.segs[1..], a.segments)
  {
    ExtraLeaves(GapSize(L, p) - TOP_FOOT, TOP_FOOT);
  }

  /** A free that neither makes the top chunk exceed the threshold nor is the one to scan the segments gives nothing
      back: the layout is that of the free alone. */
  lemma FreeKeeps(m: MState, L: Chunks, p: int, b: Accounts, a: Answers)
    requires p in L && FreedLive(L, p, b, a, m)
    requires GrowsTop(L, p) ==> GapSize(L, p) - TOP_FOOT <= b.trimCheck
    requires FreesLarge(L, p) ==> b.releaseChecks != 1
    ensures m.L == AfterFree(L, p) && m.footprint == b.footprint && m.segs == b.segs
  {
  }
}
