/** `internal_memalign`: a chunk at a multiple of a power of two. */
module Memalign {
  import opened Bits
  import opened Calloc
  import opened Dlmalloc
  import opened Free
  import opened Growth
  import opened Layout
  import opened Malloc
  import opened MallocState
  import opened Memory
  import opened Mremap
  import opened Realloc
  import opened Regions
  import opened Segments
  import opened Sizes
  import opened SysMalloc
  import opened Words
  import Dlfree

  // ---- the alignment

  const HALF: nat := 0x8000_0000_0000_0000

  lemma HalfPower()
    ensures Pow2(4) == 16 && Pow2(63) == HALF
  {
    Pow64();
    assert Pow2(64) == 2 * Pow2(63);
    assert Pow2(2) == 4;
  }

  /** `a` doubled until it is not below `alignment` */
  function DoubleTo(a: nat, alignment: nat): nat
    requires a > 0
    decreases alignment - a
  {
    if a < alignment then DoubleTo(2 * a, alignment) else a
  }

  /** The least power of two from 16 up that is not below `alignment`, found by doubling.  For a larger
      alignment the doubling never ends: see `DoublingWraps`. */
  method Doubled(alignment: nat) returns (a: nat)
    requires alignment <= HALF
    ensures a == DoubleTo(16, alignment)
    ensures IsPower(a) && 16 <= a <= HALF && alignment <= a && (a == 16 || a < 2 * alignment)
  {
    a := 16;
    HalfPower();
    ghost var k := 4;
    while a < alignment
      invariant 4 <= k <= 63 && a == Pow2(k) && (a == 16 || a < 2 * alignment) && 16 <= a
      invariant DoubleTo(16, alignment) == DoubleTo(a, alignment)
      decreases 63 - k
    {
      LessPower(k, 63);
      k := k + 1;
      a := (2 * a) % SPACE;
      BelowSpace(k);
    }
    Pow2Monotone(k, 63);
  }

  lemma LessPower(j: nat, k: nat)
    requires Pow2(j) < Pow2(k)
    ensures j < k
  {
    if k <= j {
      Pow2Monotone(k, j);
    }
  }

  lemma BelowSpace(k: nat)
    requires k <= 63
    ensures Pow2(k) < SPACE
  {
    Pow2Monotone(k, 63);
    HalfPower();
  }

  /** `a` after `n` doublings in 64 bits */
  function AfterDoublings(n: nat): nat {
    if n == 0 then 16 else (2 * AfterDoublings(n - 1)) % SPACE
  }

  /** Beyond half the address space no number of doublings reaches the alignment. */
  lemma {:induction false} DoublingWraps(alignment: nat, n: nat)
    requires alignment > HALF
    ensures AfterDoublings(n) < alignment
  {
    DoublingValue(n);
  }

  lemma {:induction false} DoublingValue(n: nat)
    ensures AfterDoublings(n) <= HALF && AfterDoublings(n) == if n <= 59 then Pow2(n + 4) else 0
  {
    HalfPower();
    if n > 0 {
      DoublingValue(n - 1);
      WrapOnce(2 * AfterDoublings(n - 1));
    }
    if n <= 59 {
      Pow2Monotone(n + 4, 63);
    }
  }

  /** Rounding up to a multiple. */
  lemma UpMultiple(x: nat, d: nat)
    requires 32 <= d && d % 8 == 0 && x + d <= SPACE
    ensures x <= AlignUp(x, d) < x + d && AlignUp(x, d) % d == 0 && AlignUp(x, d) % 8 == 0
  {
    var y := x + d - 1;
    Small(y);
    var u := AlignUp(x, d);
    assert u == y - y % d;
    hide AlignUp;
    Floor(y, d);
    ModMul(d, y / d);
    TimesEight(d, y / d);
  }

  lemma Small(y: nat)
    requires y < SPACE
    ensures y % SPACE == y
  {
  }

  lemma EightTimes(k: nat)
    requires 3 <= k
    ensures Pow2(k) == 8 * Pow2(k - 3)
  {
    assert Pow2(k) == 2 * Pow2(k - 1) && Pow2(k - 1) == 2 * Pow2(k - 2);
  }

  lemma PowerEight(d: nat)
    requires IsPower(d) && 32 <= d
    ensures d % 8 == 0
  {
    var k: nat :| d == Pow2(k);
    if k < 3 {
      Pow2Monotone(k, 2);
    }
    EightTimes(k);
  }

  /** Where the aligned chunk goes in the chunk at `p`, `u` being the next aligned address: far enough for
      a chunk in front of it. */
  function Spot(p: int, u: int, al: int): int {
    if u - 16 - p >= MIN_CHUNK then u - 16 else u - 16 + al
  }

  lemma SpotFits(p: nat, u: nat, al: nat)
    requires p % 8 == 0 && u % 8 == 0 && al % 8 == 0 && 32 <= al && p + 16 <= u < p + 16 + al
    ensures MIN_CHUNK <= Spot(p, u, al) - p < al + MIN_CHUNK && Spot(p, u, al) % 8 == 0
  {
  }

  /** `q` is the first aligned place for a chunk in the one at `p`: `p` itself, or one with room for a chunk before. */
  ghost predicate FirstSpot(p: int, q: int, al: nat)
    requires al > 0
  {
    && AlignedTo(q + 16, al) && (q == p || MIN_CHUNK <= q - p)
    && forall r {:trigger AlignedTo(r + 16, al)} :: AlignedTo(r + 16, al) && (r == p || MIN_CHUNK <= r - p) ==> q <= r
  }

  /** The place that `internal_memalign` computes. */
  function SpotOf(p: int, al: nat): int
    requires al > 0
  {
    if p < 0 || AlignedTo(p + 16, al) then p else Spot(p, AlignUp(p + 16, al), al)
  }

  lemma FirstSpotIs(p: nat, al: nat)
    requires p % 8 == 0 && 32 <= al && al % 8 == 0 && p + 16 + al <= SPACE
    ensures FirstSpot(p, SpotOf(p, al), al)
  {
    hide AlignUp;
    if !AlignedTo(p + 16, al) {
      SpotAligned(p, al);
      var q := Spot(p, AlignUp(p + 16, al), al);
      forall r {:trigger AlignedTo(r + 16, al)} | AlignedTo(r + 16, al) && (r == p || MIN_CHUNK <= r - p)
        ensures q <= r
      {
        if r < q {
          UpMultiple(p + 16, al);
          SameResidue(r + 16, q + 16, al);
        }
      }
    }
  }

  lemma SameResidue(x: nat, y: nat, d: nat)
    requires d > 0 && x % d == 0 && y % d == 0 && x < y
    ensures x + d <= y
  {
    var a, b := x / d, y / d;
    assert x == a * d + x % d && y == b * d + y % d;
    if b <= a {
      Bits.MulMonotone(b, a, d);
    } else {
      Bits.MulStep(a, b, d);
      assert (a + 1) * d == a * d + d;
    }
  }

  lemma SpotAligned(p: nat, al: nat)
    requires p % 8 == 0 && 32 <= al && al % 8 == 0 && p + 16 + al <= SPACE
    ensures var s := Spot(p, AlignUp(p + 16, al), al);
            MIN_CHUNK <= s - p < al + MIN_CHUNK && AlignedTo(s + 16, al) && s % 8 == 0
  {
    hide AlignUp;
    UpMultiple(p + 16, al);
    var u := AlignUp(p + 16, al);
    SpotFits(p, u, al);
    NextMultiple(u, al);
    assert Spot(p, u, al) + 16 == u || Spot(p, u, al) + 16 == u + al;
  }

  lemma NextMultiple(u: nat, d: nat)
    requires d > 0 && u % d == 0
    ensures (u + d) % d == 0
  {
    var q := u / d;
    assert u == d * q;
    assert u + d == d * (q + 1);
    ModMul(d, q + 1);
  }

  predicate AlignedTo(a: int, al: nat)
    requires al > 0
  {
    a % al == 0
  }

  /** The alignment used: at least a minimum chunk, and a power of two. */
  function Rounded(alignment: nat): nat {
    var al := if alignment < MIN_CHUNK then MIN_CHUNK else alignment;
    if And(al, al - 1) != 0 then DoubleTo(16, al) else al
  }

  method RoundAlignment(alignment: nat) returns (al: nat)
    requires alignment <= HALF
    ensures al == Rounded(alignment) && IsPower(al) && 32 <= al <= HALF && alignment <= al && al % 8 == 0
  {
    al := if alignment < MIN_CHUNK then MIN_CHUNK else alignment;
    assert MIN_CHUNK == Pow2(5) by {
      HalfPower();
    }
    PowerTest(al);
    if And(al, al - 1) != 0 {
      al := Doubled(al);
    }
    PowerEight(al);
  }

  // ---- giving back the front of a chunk

  lemma LeadBeside(L: Chunks, S: Spans, p: int, n: nat, M: Chunks)
    requires CanCut(L, S, p, n, Live) && L[p].kind.Live? && Beside(Cut(L, p, n, Live), p, M, 0) && 0 !in M
    ensures Beside(L, p, M, p + n) && p + n in M && M[p + n].kind.Live? && M[p + n].size == L[p].size - n
    ensures !M[p + n].flag
  {
    var C := Cut(L, p, n, Live);
    CutFresh(L, S, p, n, Live);
    CutHeads(L, S, p, n);
    forall b {:trigger b in L} | b in L && Owned(L[b].kind) && b != p
      ensures b in M && b != p + n && M[b].kind == L[b].kind && M[b].size == L[b].size && M[b].home == L[b].home
      ensures M[b].flag == L[b].flag
    {
      assert b in C;
    }
    forall b {:trigger b in M} | b in M && Owned(M[b].kind) && b != p + n ensures b in L && b != p && Owned(L[b].kind) {
      assert b in C;
    }
  }

  method FreeLead(m: MState, p: int, lead: int, newsize: int)
    requires m.Valid() && m.Booked() && p in m.L && m.L[p].kind.Live? && m.L[p].size == lead + newsize
    requires lead % 8 == 0 && MIN_CHUNK <= lead && MIN_CHUNK <= newsize
    modifies m`mem, m`smallmap, m`treemap, m`L, m`rings, m`tries, m`staleHeads, m`staleFeet, m`dv, m`dvsize, m`top
    modifies m`topsize
    ensures m.Valid() && m.Booked() && Beside(old(m.L), p, m.L, p + lead) && Quiet(old(m.mem), m.mem, m.L)
    ensures p + lead in m.L && m.L[p + lead].kind.Live? && m.L[p + lead].size == newsize && !m.L[p + lead].flag
  {
    hide Tiled, Tagged, Bins, RingsStored, TriesStored, OffState, LeastOk, Cut, Quiet, Beside, SegsOk, DirectOk, Total;
    hide MState.Indexed, MState.Listed, Disposed;
    ChunkAt(m.L, m.S, m.top);
    TopPositive(m);
    CutInfo(m, p, lead);
    SplitLive(m, p, lead, newsize);
    ghost var L1, mem1 := m.L, m.mem;
    var large, grown := Dispose(m, p, lead);
    LeadBeside(old(m.L), m.S, p, lead, m.L);
    QuietTrans(old(m.mem), L1, mem1, p, m.L, m.mem);
    LeadBooks(m, old(m.L), p, p + lead, old(m.top), old(m.topsize));
  }

  lemma CutInfo(m: MState, p: int, n: nat)
    requires m.Valid() && p in m.L && m.L[p].kind.Live? && n % 8 == 0 && MIN_CHUNK <= n && n + MIN_CHUNK <= m.L[p].size
    ensures CanCut(m.L, m.S, p, n, Live) && p in Cut(m.L, p, n, Live)
    ensures Cut(m.L, p, n, Live)[p].kind.Live? && Cut(m.L, p, n, Live)[p].size == n
  {
    CutHeads(m.L, m.S, p, n);
  }

  lemma LeadBooks(m: MState, L: Chunks, p: int, q: int, top: int, topsize: int)
    requires SegsOk(m.S, m.segs, m.ids, m.direct) && DirectOk(L, m.direct) && Beside(L, p, m.L, q) && m.Cast({})
    requires q in m.L && m.L[q].kind.Live?
    requires TopEnds(m.segs, top, topsize) && top > 0 && topsize >= 0 && m.top + m.topsize == top + topsize
    requires m.Listed()
    requires m.footprint == Total(m.S) <= m.maxFootprint
    ensures m.Booked()
  {
    DirectKept(L, p, m.L, q, m.direct);
  }

  lemma AddedMoves(L: Chunks, L1: Chunks, M: Chunks, p: int, q: int)
    requires Added(L, L1, p) && Beside(L1, p, M, q) && q in M && Owned(M[q].kind) && (M[q].flag ==> L1[p].flag)
    ensures Added(L, M, q)
  {
  }

  // ---- a mapped chunk begins further into its region

  /** The region `h` with another offset of its chunk. */
  lemma ShiftBooks(m: MState, L: Chunks, S: Spans, p: int, lead: nat)
    requires SegsOk(S, m.segs, m.ids, m.direct) && DirectOk(L, m.direct) && p in L && L[p].kind.Mapped?
    requires L[p].home in S
    requires var x := S[L[p].home].(lead := lead);
             lead <= x.size && m.L == Remount(L, p, x) && m.S == S[L[p].home := x]
    requires TopEnds(m.segs, m.top, m.topsize) && m.footprint == Total(S) <= m.maxFootprint && m.Listed()
    ensures m.Booked()
  {
    var h := L[p].home;
    var x := S[h].(lead := lead);
    assert p in L;
    SegsRegion(S, m.segs, m.ids, m.direct, h, x);
    TotalOf(S, h);
    TotalPut(S, h, x);
  }

  lemma RemountRoles(L: Chunks, S: Spans, dv: int, dvsize: int, top: int, topsize: int, p: int, x: Span)
    requires Roles(L, dv, dvsize, top, topsize, {}) && CanRemount(L, S, p, x)
    ensures Roles(Remount(L, p, x), dv, dvsize, top, topsize, {}) && Beside(L, p, Remount(L, p, x), x.First())
  {
    var M := Remount(L, p, x);
    assert RoleOk(L, dv, top, {}, p);
    forall q {:trigger q in L} | q in L && q != p ensures q in M && q != x.First() && M[q] == L[q] {
      RemountChunk(L, S, p, x, q);
    }
    forall q {:trigger RoleOk(M, dv, top, {}, q)} | q in M ensures RoleOk(M, dv, top, {}, q) {
      if q == x.First() {
        assert dv in L ==> RoleOk(L, dv, top, {}, dv);
        assert top in L ==> RoleOk(L, dv, top, {}, top);
      } else {
        assert RoleOk(L, dv, top, {}, q);
      }
    }
  }

  /** Room for the shift: the region is a multiple of the page size. */
  lemma ShiftFits(al: nat, size: nat, lead: nat)
    requires IsPower(al) && size % PAGE == 0 && al + 72 <= size && MMAP_THRESHOLD <= size && lead < al + MIN_CHUNK
    requires lead % 8 == 0
    ensures lead + MMAP_PAD + MIN_LARGE <= size
  {
    if PAGE <= al {
      PowerPage(al);
      PageAbove(al, size);
    }
  }

  lemma PowerPage(al: nat)
    requires IsPower(al) && PAGE <= al
    ensures al % PAGE == 0
  {
    var k: nat :| al == Pow2(k);
    TwoTo12();
    assert Pow2(12) == 2 * Pow2(11);
    if k < 12 {
      Pow2Monotone(k, 11);
    }
    Pow2Add(12, k - 12);
    ModMul(PAGE, Pow2(k - 12));
  }

  lemma TwoTo12()
    ensures Pow2(12) == PAGE
  {
    assert Pow2(4) == 16;
    Pow2Add(4, 4);
    Pow2Add(8, 4);
  }

  lemma PageAbove(a: nat, b: nat)
    requires a % PAGE == 0 && b % PAGE == 0 && a < b
    ensures a + PAGE <= b
  {
  }

  /** `newp->prev_foot = p->prev_foot + leadsize; newp->head = newsize` */
  method ShiftMapped(m: MState, p: int, lead: nat, newsize: int)
    requires m.Valid() && m.Booked() && p in m.L && m.L[p].kind.Mapped? && newsize == HeadSize(m.L[p]) - lead
    requires lead % 8 == 0 && MIN_LARGE <= newsize
    modifies m`mem, m`L, m`S, m`staleTails, m`staleHeads, m`staleFeet
    ensures m.Valid() && m.Booked() && Beside(old(m.L), p, m.L, p + lead) && Quiet(old(m.mem), m.mem, m.L)
    ensures p + lead in m.L && m.L[p + lead].kind.Mapped? && HeadSize(m.L[p + lead]) == newsize && !m.L[p + lead].flag
  {
    hide Tiled, Tagged, Bins, RingsStored, TriesStored, OffState, LeastOk, Tailed, Foreign, MState.Indexed, Quiet;
    hide Beside, SegsOk, DirectOk, Total, Remount, CanRemount, MState.Listed;
    var newp := p + lead;
    Dlfree.OwnedWords(m, p);
    var foot := At(m.mem, p) + lead;
    ShiftReady(m, p, lead);
    ghost var h := m.L[p].home;
    ghost var x := m.S[h].(lead := m.S[h].lead + lead);
    GhostShift(m, p, m.S[h].lead + lead);
    PutFoot(m, newp, foot);
    ghost var mem1 := m.mem;
    PutHead(m, newp, newsize);
    QuietAgain(old(m.mem), mem1, m.mem, m.L);
    ShiftBooks(m, old(m.L), old(m.S), p, x.lead);
  }

  lemma ShiftReady(m: MState, p: int, lead: nat)
    requires m.Valid() && p in m.L && m.L[p].kind.Mapped? && lead % 8 == 0 && lead + MMAP_PAD + MIN_LARGE <= m.L[p].size
    ensures m.L[p].home in m.S && m.S[m.L[p].home].lead == m.L[p].prv && m.L[p].prv + lead <= m.S[m.L[p].home].size
    ensures var x := m.S[m.L[p].home].(lead := m.L[p].prv + lead); var M := Remount(m.L, p, x);
            && x.First() == p + lead && CanRemount(m.L, m.S, p, x) && Beside(m.L, p, M, p + lead)
            && Roles(M, m.dv, m.dvsize, m.top, m.topsize, {})
            && p + lead in M && M[p + lead] == Chunk(m.L[p].size - lead, m.L[p].prv + lead, Mapped, m.L[p].home)
  {
    var h := m.L[p].home;
    ChunkAt(m.L, m.S, p);
    var x := m.S[h].(lead := m.L[p].prv + lead);
    assert SpanOk(m.L, m.S, h);
    Eighths(m.S[h].base, m.L[p].prv, lead, p);
    forall g {:trigger Clears(m.S - {h}, g, x.base, x.size)} | g in m.S - {h}
      ensures Clears(m.S - {h}, g, x.base, x.size)
    {
      assert SpansApart(m.S, g, h);
    }
    RemountRoles(m.L, m.S, m.dv, m.dvsize, m.top, m.topsize, p, x);
  }

  lemma Eighths(base: int, prv: nat, lead: nat, p: int)
    requires base % 8 == 0 && p % 8 == 0 && p == base + prv && lead % 8 == 0
    ensures (prv + lead) % 8 == 0
  {
  }

  // ---- internal_memalign

  /** The front of a misaligned chunk given back, or left out of a mapped chunk. */
  method AlignFront(m: MState, p0: int, al: nat, nb: nat, ghost L0: Chunks) returns (p: int)
    requires m.Valid() && m.Booked() && p0 in m.L && Owned(m.L[p0].kind) && nb + al + 24 <= Usable(m.L[p0])
    requires Added(L0, m.L, p0)
    requires m.L[p0].kind.Mapped? ==> MMAP_THRESHOLD <= m.L[p0].size && m.L[p0].prv == 0
    requires 32 <= al && al % 8 == 0 && IsPower(al) && MIN_CHUNK <= nb
    modifies m
    ensures m.alien == old(m.alien)
    ensures m.Valid() && m.Booked() && Added(L0, m.L, p) && m.L[p].kind == old(m.L)[p0].kind && AlignedTo(p + 16, al)
    ensures if m.L[p].kind.Mapped? then nb + WORD <= HeadSize(m.L[p]) else nb <= m.L[p].size
    ensures Quiet(old(m.mem), m.mem, L0)
    ensures p == SpotOf(p0, al)
  {
    hide Tiled, Tagged, Bins, RingsStored, TriesStored, OffState, LeastOk, Quiet, Beside, SegsOk, DirectOk, Total;
    hide Added, Roles, AlignUp, AlignedTo, Spot, MState.Indexed, IsPower, MState.Listed;
    p := p0;
    BesideSame(m.L, m.mem, p0);
    QuietAdded(m.mem, m.mem, L0, m.L, p0);
    ChunkAt(m.L, m.S, p0);
    if !AlignedTo(p0 + 16, al) {
      SpotAligned(p0, al);
      var pos := Spot(p0, AlignUp(p0 + 16, al), al);
      var lead := pos - p0;
      Dlfree.OwnedWords(m, p0);
      var w := At(m.mem, p0 + HEAD);
      var newsize := ChunkSize(w) - lead;
      ghost var L1 := m.L;
      if !PInUse(w) && !CInUse(w) {
        ShiftFits(al, m.L[p0].size, lead);
        ShiftMapped(m, p0, lead, newsize);
      } else {
        FreeLead(m, p0, lead, newsize);
      }
      AddedMoves(L0, L1, m.L, p0, pos);
      QuietAdded(old(m.mem), m.mem, L0, m.L, pos);
      p := pos;
    }
  }

  /** Spare room at the end given back. */
  method TrimBack(m: MState, p: int, nb: nat, ghost L0: Chunks)
    requires m.Valid() && m.Booked() && p in m.L && m.L[p].kind.Live? && nb <= m.L[p].size
    requires Added(L0, m.L, p) && nb % 8 == 0 && MIN_CHUNK <= nb
    modifies m`mem, m`smallmap, m`treemap, m`L, m`rings, m`tries, m`staleHeads, m`staleFeet, m`dv, m`dvsize, m`top
    modifies m`topsize
    ensures m.Valid() && m.Booked() && Added(L0, m.L, p) && m.L[p].kind.Live? && nb <= m.L[p].size <= nb + MIN_CHUNK
    ensures m.L[p].size == if nb + MIN_CHUNK < old(m.L)[p].size then nb else old(m.L)[p].size
    ensures Quiet(old(m.mem), m.mem, L0)
  {
    hide MState.Stored, Quiet, Beside, SegsOk, DirectOk, Total, Added, Roles, MState.Indexed, MState.Listed;
    BesideSame(m.L, m.mem, p);
    QuietAdded(m.mem, m.mem, L0, m.L, p);
    LiveWords(m, p);
    var size := ChunkSize(At(m.mem, p + HEAD));
    if size > nb + MIN_CHUNK {
      ghost var L1 := m.L;
      SplitOff(m, p, nb, size - nb);
      AddedMoves(L0, L1, m.L, p, p);
      QuietAdded(old(m.mem), m.mem, L0, m.L, p);
    }
  }

  /** The request that leaves room for an aligned chunk and one in front of it. */
  function AlignRequest(al: nat, bytes: nat): nat { Request2Size(bytes) + al + MIN_CHUNK - OVERHEAD }

  /** `internal_memalign` */
  method Memalign(m: MState, alignment: nat, bytes: nat, direct: Offer, offer: Offer) returns (p: int)
    requires m.Valid() && m.Booked() && alignment <= HALF && bytes < SPACE
    requires bytes + Rounded(alignment) < MAX_REQUEST ==>
               var nb := PaddedSize(AlignRequest(Rounded(alignment), bytes));
               OfferOk(m.S, m.alien, direct, RegionSize(nb)) && OfferOk(m.S, m.alien, offer, SegmentSize(nb))
    modifies m
    ensures m.alien == old(m.alien)
    ensures m.Valid() && m.Booked() && Quiet(old(m.mem), m.mem, old(m.L))
    ensures p != 0 <==> && bytes + Rounded(alignment) < MAX_REQUEST
                        && old(CanServe(m, AlignRequest(Rounded(alignment), bytes), direct, offer))
    ensures p == 0 ==> unchanged(m)
    ensures p != 0 ==> Served(old(m.L), m.L, p, bytes)
    ensures p != 0 && m.L[p].kind.Live? ==> m.L[p].size <= Request2Size(bytes) + MIN_CHUNK
    ensures var al := Rounded(alignment);
            IsPower(al) && 32 <= al && alignment <= al && (p != 0 ==> AlignedTo(p + 16, al))
  {
    hide MState.Stored, SegsOk, DirectOk, Total, Added, Quiet, MState.Indexed, AlignedTo, Rounded, IsPower, SegmentSize;
    hide PaddedSize, Fresh, RegionSize, CanServe, MState.Listed;
    BesideSame(m.L, m.mem, 0);
    var al := RoundAlignment(alignment);
    if bytes >= MAX_REQUEST - al {
      p := 0;
    } else {
      PaddingHolds(bytes);
      var nb := Request2Size(bytes);
      p := Allocate(m, AlignRequest(al, bytes), direct, offer);
      if p != 0 {
        ServedOwned(old(m.L), m.L, p, AlignRequest(al, bytes));
        ghost var mem1 := m.mem;
        p := AlignFront(m, p, al, nb, old(m.L));
        QuietAgain(old(m.mem), mem1, m.mem, old(m.L));
        AddedThere(old(m.L), m.L, p);
        Dlfree.OwnedWords(m, p);
        var w := At(m.mem, p + HEAD);
        if PInUse(w) || CInUse(w) {
          ghost var mem2 := m.mem;
          TrimBack(m, p, nb, old(m.L));
          AddedThere(old(m.L), m.L, p);
          QuietAgain(old(m.mem), mem2, m.mem, old(m.L));
        }
      }
    }
  }

  lemma AddedThere(L: Chunks, M: Chunks, p: int)
    requires Added(L, M, p)
    ensures p in M && Owned(M[p].kind)
  {
  }

  // ---- memalign followed by realloc

  /** 256 KiB at a multiple of 1 MiB, in a region that begins one page behind such a multiple: the chunk is
      0xFEFF0 bytes into its region of 0x14_1000 bytes.  For 512 KiB `mmap_resize` asks the system for a
      region of 0x8_1000 bytes and puts the chunk as far into it, behind its end. */
  lemma MemalignOverrun()
    ensures var base, al := 0x7000_0000_1000, 0x10_0000;
            && RegionSize(PaddedSize(AlignRequest(al, 0x4_0000))) == 0x14_1000
            && Spot(base, AlignUp(base + 16, al), al) - base == 0xF_EFF0
    ensures var c, nb := Chunk(0x14_1000 - 0xF_EFF0, 0xF_EFF0, Mapped, 0), Request2Size(0x8_0000);
            && Overruns(c, nb, Granted(0x7000_0000_1000)) && RegionSize(nb) == 0x8_1000 < c.prv
  {
    assert Request2Size(0x4_0000) == 0x4_0008;
    assert AlignRequest(0x10_0000, 0x4_0000) == 0x14_0020;
    assert PaddedSize(0x14_0020) == 0x14_0028;
    assert Request2Size(0x8_0000) == 0x8_0008;
  }
}
