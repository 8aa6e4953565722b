/** `mmap_resize`: a mapped chunk kept as it is, or its region resized and perhaps moved by the system. */
module Mremap {
  import opened Calloc
  import opened Dlfree
  import opened Free
  import opened Growth
  import opened Layout
  import opened Malloc
  import opened MallocState
  import opened Memory
  import opened Regions
  import opened Segments
  import opened Sizes
  import opened SysMalloc
  import opened Words
  import Bits

  // ---- what a resize does to the contents

  /** The first `n` bytes of the chunk at `q` are those that the chunk at `p` had. */
  ghost predicate Moved(mem: Words, mem': Words, p: int, q: int, n: int) {
    forall i {:trigger SameCell(mem, mem', p, q, i)} :: 0 <= i < n ==> SameCell(mem, mem', p, q, i)
  }

  predicate SameCell(mem: Words, mem': Words, p: int, q: int, i: int) {
    At(mem', q + FD + i) == At(mem, p + FD + i)
  }

  function Min(x: int, y: int): int { if x < y then x else y }

  /** Client chunks other than `p` are untouched. */
  ghost predicate OthersKept(mem: Words, mem': Words, L: Chunks, p: int) {
    forall b, a {:trigger InPayload(L, b, a)} :: InPayload(L, b, a) && b != p ==> At(mem', a) == At(mem, a)
  }

  // ---- mremap

  /** The system may put the resized region where nothing else is, its old place included. */
  ghost predicate RemapOk(S: Spans, alien: Words, h: nat, remap: Offer, size: nat) {
    remap.Granted? ==> Fresh(S - {h}, alien, remap.base, size)
  }

  /** `n` words of `mem` from `src` on, put into `z` from `dst` on. */
  function Transfer(mem: Words, z: Words, src: int, dst: int, n: nat): Words {
    if n == 0 then z else Transfer(mem, z, src, dst, n - 1)[dst + n - 1 := At(mem, src + n - 1)]
  }

  lemma {:induction false} TransferAt(mem: Words, z: Words, src: int, dst: int, n: nat, a: int)
    ensures At(Transfer(mem, z, src, dst, n), a) == if dst <= a < dst + n then At(mem, src + (a - dst)) else At(z, a)
  {
    if n > 0 {
      TransferAt(mem, z, src, dst, n - 1, a);
    }
  }

  /** The words after `mremap`: those of the old region, and zeros behind them, at the new place. */
  function Remapped(mem: Words, base: int, size: nat, newbase: int, newsize: nat): Words {
    Transfer(mem, Zeroed(mem, newbase, newsize), base, newbase, Min(size, newsize))
  }

  lemma RemappedAt(mem: Words, base: int, size: nat, newbase: int, newsize: nat, a: int)
    ensures At(Remapped(mem, base, size, newbase, newsize), a) ==
            if !(newbase <= a < newbase + newsize) then At(mem, a)
            else if a - newbase < size then At(mem, a - newbase + base) else 0
  {
    TransferAt(mem, Zeroed(mem, newbase, newsize), base, newbase, Min(size, newsize), a);
    ZeroedAt(mem, newbase, newsize, a);
  }

  /** A foot that is right is not stale. */
  ghost method FixFoot(m: MState, q: int)
    requires m.Stored() && q in m.L && FootOk(m.mem, m.L, q)
    modifies m`staleFeet
    ensures m.Stored() && m.staleFeet == old(m.staleFeet) - {q}
  {
    m.staleFeet := m.staleFeet - {q};
    forall x {:trigger FootOk(m.mem, m.L, x)} | x in m.L && x !in m.staleFeet ensures FootOk(m.mem, m.L, x) {
    }
  }

  lemma RemovedAdded(L: Chunks, M: Chunks, N: Chunks, p: int, q: int)
    requires Beside(L, p, M, 0) && Added(M, N, q) && 0 !in M && p in L && p !in M
    ensures Beside(L, p, N, q)
  {
  }

  /** The layout after the region of the chunk at `p` has been resized and put elsewhere. */
  function Relaid(L: Chunks, p: int, newbase: int, newsize: nat): Chunks
    requires p in L && L[p].prv <= newsize
  {
    AddChunk(DropChunks(L, L[p].home), L[p].home, newbase, newsize, Mapped, L[p].prv)
  }

  lemma RemapReady(m: MState, p: int, newbase: int, newsize: nat)
    requires m.Valid() && p in m.L && m.L[p].kind.Mapped? && Fresh(m.S - {m.L[p].home}, m.alien, newbase, newsize)
    requires newsize % PAGE == 0 && m.L[p].prv + MMAP_PAD + MIN_LARGE <= newsize
    ensures var h, q, M := m.L[p].home, newbase + m.L[p].prv, Relaid(m.L, p, newbase, newsize);
            && h in m.S && m.S[h] == Region(m.L, p) && StandsAlone(h, newbase, newsize, Mapped, m.L[p].prv)
            && p - m.L[p].prv > 0
            && Roles(M, m.dv, m.dvsize, m.top, m.topsize, {}) && Beside(m.L, p, M, q)
            && q in M && M[q] == Chunk(newsize - m.L[p].prv, m.L[p].prv, Mapped, h)
    ensures forall q {:trigger q in m.L} :: q in m.L && m.L[q].home == m.L[p].home ==> !m.L[q].kind.Binned?
  {
    hide MState.Indexed;
    var h, lead := m.L[p].home, m.L[p].prv;
    ChunkAt(m.L, m.S, p);
    assert SpanOk(m.L, m.S, h);
    MappedAlone(m.L, m.S, p, p);
    UnmapRoles(m.L, m.S, m.dv, m.dvsize, m.top, m.topsize, p);
    var M := DropChunks(m.L, h);
    DropTiled(m.L, m.S, h);
    LeadAligned(m.S[h].base, lead, p, newbase);
    AddTiled(M, m.S - {h}, h, newbase, newsize, Mapped, lead);
    MappedRoles(M, m.dv, m.dvsize, m.top, m.topsize, h, newbase, newsize, lead);
    RemovedAdded(m.L, M, AddChunk(M, h, newbase, newsize, Mapped, lead), p, newbase + lead);
  }

  lemma LeadAligned(base: int, lead: nat, p: int, newbase: int)
    requires base % 8 == 0 && p % 8 == 0 && p == base + lead && newbase % 8 == 0
    ensures (newbase + lead) % 8 == 0 && lead % 8 == 0
  {
  }

  lemma RemapBooks(m: MState, L: Chunks, S: Spans, p: int, newbase: int, newsize: nat)
    requires SegsOk(S, m.segs, m.ids, m.direct) && DirectOk(L, m.direct) && p in L && L[p].kind.Mapped?
    requires L[p].home in S
    requires L[p].prv <= newsize && m.L == Relaid(L, p, newbase, newsize)
    requires S[L[p].home] == Region(L, p) && m.S == AddSpan(S - {L[p].home}, L[p].home, newbase, newsize, L[p].prv)
    requires TopEnds(m.segs, m.top, m.topsize) && m.Listed()
    requires m.footprint == Total(S) + newsize - Region(L, p).size <= m.maxFootprint
    ensures m.Booked()
  {
    var h := L[p].home;
    var x := Span(newbase, newsize, L[p].prv);
    assert p in L && h in m.direct;
    SegsRegion(S, m.segs, m.ids, m.direct, h, x);
    assert m.S == S[h := x];
    TotalOf(S, h);
    TotalPut(S, h, x);
  }

  /** The words of the client after the region has been put elsewhere. */
  lemma RemapWords(mem: Words, mem1: Words, mem2: Words, L: Chunks, M: Chunks, p: int, q: int, x: Span, newbase: int,
                   newsize: nat)
    requires p in L && L[p].kind.Mapped? && x == Region(L, p) && L[p].prv <= newsize && 0 <= Usable(L[p])
    requires mem1 == Remapped(mem, x.base, x.size, newbase, newsize) && q == newbase + L[p].prv
    requires Quiet(mem, mem1, DropChunks(L, L[p].home)) && Quiet(mem1, mem2, M) && Beside(L, p, M, q)
    requires q in M && M[q].kind.Mapped? && M[q].size == newsize - L[p].prv
    requires forall b {:trigger b in L} :: b in L && L[b].home == L[p].home ==> b == p
    ensures Moved(mem, mem2, p, q, Min(Usable(L[p]), Usable(M[q]))) && OthersKept(mem, mem2, L, p)
  {
    forall i {:trigger SameCell(mem, mem2, p, q, i)} | 0 <= i < Min(Usable(L[p]), Usable(M[q]))
      ensures SameCell(mem, mem2, p, q, i)
    {
      RemappedAt(mem, x.base, x.size, newbase, newsize, q + FD + i);
      assert InPayload(M, q, q + FD + i);
    }
    forall b, a {:trigger InPayload(L, b, a)} | InPayload(L, b, a) && b != p ensures At(mem2, a) == At(mem, a) {
      assert InPayload(DropChunks(L, L[p].home), b, a) && InPayload(M, b, a);
    }
  }

  lemma OnlyChunk(m: MState, p: int)
    requires m.Valid() && p in m.L && m.L[p].kind.Mapped?
    ensures forall b {:trigger b in m.L} :: b in m.L && m.L[b].home == m.L[p].home ==> b == p
  {
    forall b {:trigger b in m.L} | b in m.L && m.L[b].home == m.L[p].home ensures b == p {
      MappedAlone(m.L, m.S, p, b);
    }
  }

  /** The region with the contents `z` at its new place, and the words that mark the chunk in it. */
  method Rehouse(m: MState, p: int, offset: nat, newbase: int, newsize: nat, z: Words)
    requires m.Valid() && p in m.L && m.L[p].kind.Mapped? && Fresh(m.S - {m.L[p].home}, m.alien, newbase, newsize)
    requires newsize % PAGE == 0 && m.L[p].prv + MMAP_PAD + MIN_LARGE <= newsize && offset == m.L[p].prv
    requires Elsewhere(m.mem, z, newbase, newsize) && At(z, newbase + offset) == offset
    modifies m`mem, m`L, m`S, m`notes, m`staleHeads, m`staleFeet, m`staleTails, m`leastAddr
    ensures m.Valid() && m.L == Relaid(old(m.L), p, newbase, newsize) && m.notes == old(m.notes)
    ensures m.S == AddSpan(old(m.S) - {old(m.L)[p].home}, old(m.L)[p].home, newbase, newsize, old(m.L)[p].prv)
    ensures Quiet(old(m.mem), z, DropChunks(old(m.L), old(m.L)[p].home)) && Quiet(z, m.mem, m.L)
  {
    hide MState.Stored, MState.Indexed, Quiet, Roles, DropChunks, AddChunk, AddSpan, FreeRegion, OffAliens, StandsAlone;
    hide Elsewhere, Region, Beside;
    RemapReady(m, p, newbase, newsize);
    ghost var h := m.L[p].home;
    var newp := newbase + offset;
    MappedUnnoted(m, p);
    GhostDrop(m, h);
    FillRegion(m, newbase, newsize, z);
    Lower(m, newbase);
    GhostAdd(m, h, newbase, newsize, Mapped, offset);
    FixFoot(m, newp);
    WriteMarks(m, newp, newsize - offset - MMAP_PAD);
  }

  /** `mremap` itself: the contents of the region of the mapped chunk at `p`, at the new place and of the new size. */
  method MoveRegion(m: MState, p: int, newbase: int, newsize: nat) returns (newp: int, oldmmsize: int)
    requires m.Valid() && p in m.L && m.L[p].kind.Mapped?
    requires Fresh(m.S - {m.L[p].home}, m.alien, newbase, newsize)
    requires newsize % PAGE == 0 && m.L[p].prv + MMAP_PAD + MIN_LARGE <= newsize
    modifies m`mem, m`L, m`S, m`notes, m`staleHeads, m`staleFeet, m`staleTails, m`leastAddr
    ensures m.Valid() && m.notes == old(m.notes) && m.L == Relaid(old(m.L), p, newbase, newsize)
    ensures newp == newbase + old(m.L)[p].prv && oldmmsize == Region(old(m.L), p).size
    ensures m.S == AddSpan(old(m.S) - {old(m.L)[p].home}, old(m.L)[p].home, newbase, newsize, old(m.L)[p].prv)
    ensures old(m.L)[p].home in old(m.S) && old(m.S)[old(m.L)[p].home] == Region(old(m.L), p)
    ensures newp in m.L && m.L[newp].kind.Mapped? && m.L[newp].size == newsize - old(m.L)[p].prv && !m.L[newp].flag
    ensures Moved(old(m.mem), m.mem, p, newp, Min(Usable(old(m.L)[p]), Usable(m.L[newp])))
    ensures OthersKept(old(m.mem), m.mem, old(m.L), p) && Beside(old(m.L), p, m.L, newp)
  {
    hide MState.Stored, MState.Indexed, Quiet, Beside, Roles, DropChunks, Moved, OthersKept, Fresh, Remapped;
    hide Elsewhere, Relaid, AddSpan, StandsAlone, At;
    OwnedWords(m, p);
    ChunkFacts(m, p);
    RemapReady(m, p, newbase, newsize);
    OnlyChunk(m, p);
    ghost var L0 := m.L;
    var offset := At(m.mem, p);
    oldmmsize := ChunkSize(At(m.mem, p + HEAD)) + offset + MMAP_PAD;
    var z := Remapped(m.mem, p - offset, oldmmsize, newbase, newsize);
    newp := newbase + offset;
    RemapElsewhere(m.mem, p - offset, oldmmsize, newbase, newsize);
    RemappedAt(m.mem, p - offset, oldmmsize, newbase, newsize, newp);
    Rehouse(m, p, offset, newbase, newsize, z);
    RemapWords(old(m.mem), z, m.mem, L0, m.L, p, newp, Region(L0, p), newbase, newsize);
  }

  /** The region of the mapped chunk at `p` resized and put elsewhere by the system. */
  method Remap(m: MState, p: int, newbase: int, newsize: nat) returns (newp: int)
    requires m.Valid() && m.Booked() && p in m.L && m.L[p].kind.Mapped?
    requires Fresh(m.S - {m.L[p].home}, m.alien, newbase, newsize)
    requires newsize % PAGE == 0 && m.L[p].prv + MMAP_PAD + MIN_LARGE <= newsize
    modifies m
    ensures m.alien == old(m.alien)
    ensures m.Valid() && m.Booked() && newp == newbase + old(m.L)[p].prv && Beside(old(m.L), p, m.L, newp)
    ensures newp in m.L && m.L[newp].kind.Mapped? && m.L[newp].size == newsize - old(m.L)[p].prv && !m.L[newp].flag
    ensures m.footprint == old(m.footprint) + newsize - Region(old(m.L), p).size
    ensures Moved(old(m.mem), m.mem, p, newp, Min(Usable(old(m.L)[p]), Usable(m.L[newp])))
    ensures OthersKept(old(m.mem), m.mem, old(m.L), p)
  {
    hide MState.Stored, MState.Indexed, Quiet, Beside, SegsOk, DirectOk, Total, TopEnds, Roles, Moved, OthersKept;
    hide Fresh, Relaid, AddSpan, StandsAlone, MState.Listed;
    var oldmmsize;
    newp, oldmmsize := MoveRegion(m, p, newbase, newsize);
    m.footprint := m.footprint + newsize - oldmmsize;
    if m.footprint > m.maxFootprint {
      m.maxFootprint := m.footprint;
    }
    RemapBooks(m, old(m.L), old(m.S), p, newbase, newsize);
  }

  lemma RemapElsewhere(mem: Words, base: int, size: nat, newbase: int, newsize: nat)
    ensures Elsewhere(mem, Remapped(mem, base, size, newbase, newsize), newbase, newsize)
  {
    var z := Remapped(mem, base, size, newbase, newsize);
    forall a {:trigger At(z, a)} | !(newbase <= a < newbase + newsize) ensures At(z, a) == At(mem, a) {
      RemappedAt(mem, base, size, newbase, newsize, a);
    }
  }

  // ---- mmap_resize

  /** A chunk that is large enough, and not much too large. */
  predicate Keeps(oldsize: int, nb: nat) { nb + WORD <= oldsize <= nb + 2 * GRANULARITY }

  /** The mapped chunk `c` is resized, in place or not. */
  predicate Remaps(c: Chunk, nb: nat, remap: Offer) { !IsSmall(nb) && (Keeps(HeadSize(c), nb) || remap.Granted?) }

  /** Where the mapped chunk `c` at `p` is then: where it was, or at the same offset in the region the system gives. */
  function NewPlace(c: Chunk, p: int, nb: nat, remap: Offer): int {
    if Keeps(HeadSize(c), nb) || remap.Refused? then p else remap.base + c.prv
  }

  /** The bytes that a region for `nb` bytes has to spare. */
  function Slack(nb: nat): int { RegionSize(nb) - nb - WORD - MMAP_PAD }

  /** `mmap_resize` keeps the offset of the chunk in its region, but asks for a region as if there were none. */
  predicate Overruns(c: Chunk, nb: nat, remap: Offer) {
    !IsSmall(nb) && !Keeps(HeadSize(c), nb) && remap.Granted? && Slack(nb) < c.prv
  }

  /** The chunk that `mmap_resize` writes ends with its region and holds the request just when the offset is
      within the slack, which is less than a page and two words. */
  lemma OverrunIff(lead: nat, nb: nat)
    requires nb < SPACE && lead + MMAP_PAD <= SPACE
    ensures var psize := (RegionSize(nb) - lead - MMAP_PAD) % SPACE;
            lead + psize + MMAP_PAD == RegionSize(nb) && nb + WORD <= psize <==> lead <= Slack(nb)
    ensures Slack(nb) < 15 + PAGE && (RegionSize(nb) > nb ==> 15 <= Slack(nb))
  {
    RegionHolds(nb);
    var d := RegionSize(nb) - lead - MMAP_PAD;
    if d >= 0 {
      RegionBelow(nb);
      WrapOnce(d);
    } else {
      WrapBack(d);
    }
  }

  lemma RegionBelow(nb: nat)
    requires nb < SPACE
    ensures RegionSize(nb) < SPACE
  {
    Bits.Floor((nb + 48 + 7 + PAGE - 1) % SPACE, PAGE);
  }

  lemma WrapBack(d: int)
    requires d < 0 <= d + SPACE
    ensures d % SPACE == d + SPACE
  {
  }

  /** The chunk at `p` is now at `q` and holds a request of `nb` bytes; the contents are kept, up to the
      shorter of the two sizes, and nothing else that belongs to the client changes. */
  ghost predicate Rehomed(mem: Words, mem': Words, L: Chunks, M: Chunks, p: int, q: int, nb: int) {
    && p in L && q in M && Owned(M[q].kind) && Holds(M[q], nb) && Beside(L, p, M, q) && (M[q].flag ==> L[p].flag)
    && Moved(mem, mem', p, q, Min(Usable(L[p]), Usable(M[q]))) && OthersKept(mem, mem', L, p)
  }

  predicate Holds(c: Chunk, nb: int) { if c.kind.Mapped? then nb + WORD <= HeadSize(c) else nb <= c.size }

  lemma RehomedSame(mem: Words, L: Chunks, p: int, nb: int)
    requires p in L && Owned(L[p].kind) && Holds(L[p], nb)
    ensures Rehomed(mem, mem, L, L, p, p, nb)
  {
  }

  /** `mmap_resize`: the footprint changes by the difference of the two regions, and all is well unless the
      offset of the chunk overruns the new region. */
  method MmapResize(m: MState, p: int, nb: nat, remap: Offer) returns (newp: int)
    requires m.Valid() && m.Booked() && p in m.L && m.L[p].kind.Mapped? && nb % 8 == 0 && MIN_CHUNK <= nb < SPACE
    requires RemapOk(m.S, m.alien, m.L[p].home, remap, RegionSize(nb))
    modifies m
    ensures m.alien == old(m.alien)
    ensures 0 <= newp && (newp != 0 <==> Remaps(old(m.L)[p], nb, remap))
    ensures newp == 0 ==> unchanged(m)
    ensures newp != 0 ==> newp == NewPlace(old(m.L)[p], p, nb, remap)
    ensures newp != 0 ==>
              m.footprint == old(m.footprint) + if Keeps(HeadSize(old(m.L)[p]),
                  nb) then 0 else RegionSize(nb) - Region(old(m.L), p).size
    ensures !Overruns(old(m.L)[p], nb, remap) ==> m.Valid() && m.Booked()
    ensures !Overruns(old(m.L)[p], nb, remap) && newp != 0 ==> Rehomed(old(m.mem), m.mem, old(m.L), m.L, p, newp, nb)
  {
    hide MState.Stored, MState.Indexed, Quiet, Beside, SegsOk, DirectOk, Total, TopEnds, Roles, Moved, OthersKept;
    hide Fresh, RegionSize, Rehomed, MState.Listed;
    OwnedWords(m, p);
    ChunkFacts(m, p);
    RegionHolds(nb);
    var oldsize := ChunkSize(At(m.mem, p + HEAD));
    if IsSmall(nb) {
      return 0;
    }
    if oldsize >= nb + WORD && oldsize - nb <= 2 * GRANULARITY {
      RehomedSame(m.mem, m.L, p, nb);
      return p;
    }
    if remap.Refused? {
      return 0;
    }
    FreshBase(m.S - {m.L[p].home}, m.alien, remap.base, RegionSize(nb));
    var offset := At(m.mem, p);
    var newmmsize := RegionSize(nb);
    if offset <= Slack(nb) {
      newp := Remap(m, p, remap.base, newmmsize);
      MovedEnough(m, old(m.mem), old(m.L), p, newp, nb);
    } else {
      newp := WriteOverrun(m, p, offset, oldsize + offset + MMAP_PAD, remap.base, newmmsize);
    }
  }

  lemma FreshBase(S: Spans, alien: Words, base: int, size: nat)
    requires Fresh(S, alien, base, size)
    ensures 0 < base
  {
  }

  lemma MovedEnough(m: MState, mem: Words, L: Chunks, p: int, q: int, nb: int)
    requires p in L && Beside(L, p, m.L, q) && q in m.L && m.L[q].kind.Mapped? && nb + WORD <= HeadSize(m.L[q])
    requires !m.L[q].flag
    requires Moved(mem, m.mem, p, q, Min(Usable(L[p]), Usable(m.L[q]))) && OthersKept(mem, m.mem, L, p)
    ensures Rehomed(mem, m.mem, L, m.L, p, q, nb)
  {
  }

  /** The same words written when they do not lie in the new region: nothing is promised any more. */
  method WriteOverrun(m: MState, p: int, offset: int, oldmmsize: nat, newbase: int, newmmsize: nat) returns (newp: int)
    requires 0 < newbase && 0 <= offset
    modifies m`mem, m`leastAddr, m`footprint, m`maxFootprint
    ensures newp == newbase + offset && m.footprint == old(m.footprint) + newmmsize - oldmmsize
  {
    newp := newbase + offset;
    var psize := (newmmsize - offset - MMAP_PAD) % SPACE;
    m.mem := Remapped(m.mem, p - offset, oldmmsize, newbase, newmmsize)[newp + HEAD := psize];
    m.mem := m.mem[(newp + psize + HEAD) % SPACE := FENCEPOST];
    m.mem := m.mem[(newp + psize + WORD + HEAD) % SPACE := 0];
    if newbase < m.leastAddr {
      m.leastAddr := newbase;
    }
    m.footprint := m.footprint + newmmsize - oldmmsize;
    if m.footprint > m.maxFootprint {
      m.maxFootprint := m.footprint;
    }
  }
}
