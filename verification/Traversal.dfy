/** `do_check_malloc_state`: the walk over all segments and chunks, through memory, meets no failing check, and what it
    adds up is within the footprint. */
module Traversal {
  import opened Checks
  import opened Free
  import opened Growth
  import opened Layout
  import opened MallocState
  import opened Memory
  import opened Records
  import opened Sizes
  import opened Words
  import BinWalks
  import Trim

  // ---- one step of the walk

  /** The words of a chunk of segment `k`. */
  lemma HeadOfChunk(m: MState, k: nat, q: int)
    requires m.Valid() && m.Booked() && k < |m.segs| == |m.ids| && q in m.L && m.L[q].home == m.ids[k]
    ensures m.segs[k].base <= q < m.segs[k].End() && !m.L[q].kind.Mapped? && MIN_CHUNK <= m.L[q].size
    ensures var w := At(m.mem, q + HEAD);
            && ChunkSize(w) == HeadSize(m.L[q]) && w != FENCEPOST && (IsInUse(w) <==> InUse(m.L[q].kind))
            && (q == m.segs[k].base ==> PInUse(w))
  {
    SegHome(m, 0, k);
    ChunkAt(m.L, m.S, q);
    ChunkAt(m.L, m.S, m.segs[k].base);
    HeadBits(m.L, m.S, q);
    HeadAt(m, q);
    if q != m.segs[k].base {
      assert Apart(m.L, q, m.segs[k].base);
    }
    NoneMapped(m, k, q);
    FreeIsPinned(m, q);
  }

  lemma NoneMapped(m: MState, k: nat, q: int)
    requires m.Valid() && m.Booked() && k < |m.segs| == |m.ids| && q in m.L && m.L[q].home == m.ids[k]
    ensures !m.L[q].kind.Mapped?
  {
    SegHome(m, 0, k);
    ChunkAt(m.L, m.S, q);
  }

  /** A free chunk of a segment has its PINUSE bit set, and so is told from one in use. */
  lemma FreeIsPinned(m: MState, q: int)
    requires m.Valid() && q in m.L
    ensures !InUse(m.L[q].kind) ==> Pin(m.L, q)
  {
    ChunkAt(m.L, m.S, q);
  }

  /** Only the top chunk ends the newest segment, and only its record any other. */
  lemma EndsWith(m: MState, k: nat, q: int)
    requires m.Valid() && m.Booked() && m.top != 0 && k < |m.segs| == |m.ids| == |m.links|
    requires q in m.L && m.L[q].home == m.ids[k]
    ensures Last(m.L[q].kind) <==> q == if k == 0 then m.top else m.links[k]
    ensures k > 0 ==> q != m.top && RecordChunk(m, k)
  {
    SegHome(m, 0, k);
    TopHome(m, 0);
    RecordReads(m, k);
    var e := if k == 0 then m.top else m.links[k];
    ChunkAt(m.L, m.S, q);
    ChunkAt(m.L, m.S, e);
    if q != e {
      assert Apart(m.L, q, e);
    }
    assert k > 0 ==> m.ids[0] != m.ids[k];
  }

  /** From a chunk to the next one, or from the record to the first fencepost. */
  lemma NextOfChunk(m: MState, k: nat, q: int)
    requires m.Valid() && m.Booked() && m.top != 0 && k < |m.segs| == |m.ids| == |m.links|
    requires q in m.L && m.L[q].home == m.ids[k] && q != m.top
    ensures var n := q + HeadSize(m.L[q]);
            if k > 0 && q == m.links[k] then n == q + RECORD < m.segs[k].End() && FenceAt(m.mem, n + HEAD)
            else n in m.L && m.L[n].home == m.ids[k] && Linked(m.L, q, n) && !Last(m.L[q].kind)
  {
    SegHome(m, 0, k);
    EndsWith(m, k, q);
    ChunkAt(m.L, m.S, q);
    if k > 0 && q == m.links[k] {
      assert TailOk(m.mem, m.L, q, m.notes);
      assert FenceAt(m.mem, q + RECORD + HEAD);
    } else {
      NoneMapped(m, k, q);
      NextAt(m.L, m.S, q);
    }
  }

  // ---- one segment

  /** Where the walk stands in segment `k`: at a chunk, or at the first fencepost. */
  ghost predicate Stands(m: MState, k: nat, q: int)
    requires k < |m.ids| == |m.links|
    reads m
  {
    || (q in m.L && m.L[q].home == m.ids[k])
    || (k > 0 && q == m.links[k] + RECORD && FenceAt(m.mem, q + HEAD))
  }

  /** The chunk before is free only if this one is in use. */
  ghost predicate Behind(m: MState, lastq: int, q: int)
    reads m
  {
    lastq == 0 || (lastq in m.L && (InUse(m.L[lastq].kind) || (Next(m.L, lastq) == q && !Last(m.L[lastq].kind))))
  }

  /** The inner loop of `traverse_and_check`: every check on the way holds. */
  method TraverseSegment(m: MState, s: Seg, ghost k: nat) returns (sum: int)
    requires m.Valid() && m.Booked() && m.top != 0 && k < |m.segs| == |m.ids| == |m.links|
    requires s.base == m.segs[k].base && s.size == m.segs[k].size
    ensures sum == (if k == 0 then m.top else m.links[k] + RECORD) - m.segs[k].base
  {
    hide MState.Valid, MState.Booked, ChunkSize, IsInUse, PInUse, InUse, HeadSize, At, FenceAt, Last;
    FirstOfSegment(m, k);
    var q, lastq := s.base, 0;
    sum := 0;
    HeadOfChunk(m, k, q);
    assert PInUse(At(m.mem, q + HEAD));
    while s.base <= q < s.base + s.size && q != m.top && At(m.mem, q + HEAD) != FENCEPOST
      invariant Stands(m, k, q) && sum == q - s.base && Behind(m, lastq, q) && (lastq == 0 <==> q == s.base)
      decreases s.base + s.size - q
    {
      var w := At(m.mem, q + HEAD);
      NotAtFence(m, k, q);
      HeadOfChunk(m, k, q);
      NextOfChunk(m, k, q);
      CheckedChunk(m, k, q);
      sum := sum + ChunkSize(w);
      var binned := BinWalks.BinFind(m, q);
      if IsInUse(w) {
        assert !binned;
        InUseChunk(m, q);
      } else {
        assert q == m.dv || binned;
        FreeChunk(m, q);
        NotTwoFree(m, lastq, q);
        assert lastq == 0 || IsInUse(At(m.mem, lastq + HEAD));
      }
      lastq := q;
      q := q + ChunkSize(w);
    }
    WalkEnds(m, k, q);
  }

  lemma FirstOfSegment(m: MState, k: nat)
    requires m.Valid() && m.Booked() && k < |m.segs| == |m.ids|
    ensures m.segs[k].base in m.L && m.L[m.segs[k].base].home == m.ids[k]
  {
    SegHome(m, 0, k);
  }

  lemma NotAtFence(m: MState, k: nat, q: int)
    requires k < |m.ids| == |m.links| && Stands(m, k, q) && At(m.mem, q + HEAD) != FENCEPOST
    ensures q in m.L && m.L[q].home == m.ids[k]
  {
  }

  lemma CheckedChunk(m: MState, k: nat, q: int)
    requires m.Valid() && m.Booked() && m.top != 0 && k < |m.segs| == |m.ids| == |m.links|
    requires q in m.L && m.L[q].home == m.ids[k] && q != m.top
    ensures if InUse(m.L[q].kind) then q !in m.rings.held && q !in m.tries.held
            else (m.L[q].kind.Binned? || m.L[q].kind.Victim?)
                 && (q == m.dv || q in m.rings.held || q in m.tries.held)
    ensures 0 < q && 0 < HeadSize(m.L[q]) && Behind(m, q, q + HeadSize(m.L[q]))
  {
    Traversed(m, q);
    NoneMapped(m, k, q);
    NextOfChunk(m, k, q);
    ChunkAt(m.L, m.S, q);
    assert RoleOk(m.L, m.dv, m.top, {}, q);
  }

  lemma NotTwoFree(m: MState, lastq: int, q: int)
    requires m.Valid() && Behind(m, lastq, q) && q in m.L && !InUse(m.L[q].kind)
    ensures lastq == 0 || IsInUse(At(m.mem, lastq + HEAD))
  {
    if lastq != 0 {
      if !Last(m.L[lastq].kind) {
        NextAt(m.L, m.S, lastq);
      }
      HeadBits(m.L, m.S, lastq);
      HeadAt(m, lastq);
    }
  }

  lemma WalkEnds(m: MState, k: nat, q: int)
    requires m.Valid() && m.Booked() && m.top != 0 && k < |m.segs| == |m.ids| == |m.links| && Stands(m, k, q)
    requires !(m.segs[k].base <= q < m.segs[k].End()) || q == m.top || At(m.mem, q + HEAD) == FENCEPOST
    ensures q == if k == 0 then m.top else m.links[k] + RECORD
  {
    if q in m.L && m.L[q].home == m.ids[k] {
      HeadOfChunk(m, k, q);
      EndsWith(m, k, q);
    }
  }

  // ---- all segments

  /** What the walk adds up over the segments from the second to the one before `n`. */
  ghost function Walked(segs: seq<Span>, links: seq<int>, n: nat): int
    requires n <= |segs| == |links|
  {
    if n <= 1 then 0 else Walked(segs, links, n - 1) + (links[n - 1] + RECORD - segs[n - 1].base)
  }

  /** `traverse_and_check` */
  method TraverseAndCheck(m: MState) returns (sum: int)
    requires m.Valid() && m.Booked()
    ensures m.top == 0 ==> sum == 0
    ensures |m.links| == |m.segs| && (m.top != 0 ==> m.segs != [])
    ensures m.top != 0 ==> sum == m.segs[0].size + Walked(m.segs, m.links, |m.segs|)
    ensures 0 <= sum <= m.footprint <= m.maxFootprint
  {
    hide MState.Stored, MState.Indexed, MState.Listed, SegsOk, DirectOk, Total, Roles;
    sum := 0;
    ListedLengths(m);
    WalkedWithin(m);
    if m.top != 0 {
      TopHome(m, 0);
      SegHome(m, 0, 0);
      sum := m.topsize + TOP_FOOT;
      var sp := SEG;
      ghost var k: nat := 0;
      while sp != 0
        invariant Found(m, sp, k) && (sp == 0 <==> k == |m.segs|)
        invariant sum == (if k == 0 then m.topsize + TOP_FOOT else m.segs[0].size + Walked(m.segs, m.links, k))
        decreases |m.segs| - k
      {
        RecordReads(m, k);
        var s := ReadSeg(m.seg, m.mem, sp);
        var n := TraverseSegment(m, s, k);
        sum := sum + n;
        sp := s.next;
        k := k + 1;
        Onward(m, k);
      }
    }
  }

  ghost function SizesOf(segs: seq<Span>): int {
    if segs == [] then 0 else SizesOf(segs[..|segs| - 1]) + segs[|segs| - 1].size
  }

  lemma {:induction false} SizesWithin(S: Spans, segs: seq<Span>, ids: seq<nat>, direct: set<nat>)
    requires SegsOk(S, segs, ids, direct)
    requires forall h {:trigger h in S} :: h in S ==> 0 <= S[h].size
    ensures SizesOf(segs) <= Total(S)
    decreases |segs|
  {
    if segs == [] {
      TotalPositive(S);
    } else {
      var k := |segs| - 1;
      Trim.SegsRemove(S, segs, ids, direct, k);
      assert SegAt(S, segs, ids, direct, k);
      assert Without(segs, k) == segs[..k] && Without(ids, k) == ids[..k];
      TotalOf(S, ids[k]);
      SizesWithin(S - {ids[k]}, segs[..k], ids[..k], direct);
    }
  }

  lemma {:induction false} TotalPositive(S: Spans)
    requires forall h {:trigger h in S} :: h in S ==> 0 <= S[h].size
    ensures 0 <= Total(S)
    decreases |S|
  {
    if h :| h in S {
      TotalOf(S, h);
      TotalPositive(S - {h});
    }
  }

  /** The walk over the older segments stays within their sizes. */
  lemma {:induction false} WalkedSizes(m: MState, n: nat)
    requires m.Valid() && m.Booked() && m.top != 0 && 1 <= n <= |m.segs| == |m.links|
    ensures 0 <= Walked(m.segs, m.links, n) <= SizesOf(m.segs[..n]) - m.segs[0].size
  {
    if n > 1 {
      WalkedSizes(m, n - 1);
      var k := n - 1;
      SegHome(m, 0, k);
      RecordReads(m, k);
      ChunkAt(m.L, m.S, m.links[k]);
      assert m.segs[..n][..n - 1] == m.segs[..n - 1];
    } else {
      assert m.segs[..1][..0] == [];
    }
  }

  lemma WalkedWithin(m: MState)
    requires m.Valid() && m.Booked() && |m.links| == |m.segs|
    ensures 0 <= m.footprint <= m.maxFootprint
    ensures m.top != 0 ==> m.segs != [] && 0 <= Walked(m.segs, m.links, |m.segs|) && 0 <= m.segs[0].size
                           && m.segs[0].size + Walked(m.segs, m.links, |m.segs|) <= m.footprint
  {
    forall h {:trigger h in m.S} | h in m.S ensures 0 <= m.S[h].size {
      assert SpanOk(m.L, m.S, h);
    }
    TotalPositive(m.S);
    SizesWithin(m.S, m.segs, m.ids, m.direct);
    if m.top != 0 {
      TopHome(m, 0);
      SegHome(m, 0, 0);
      WalkedSizes(m, |m.segs|);
      assert m.segs[..|m.segs|] == m.segs;
    }
  }

  // ---- the whole check

  lemma VictimChunk(m: MState)
    requires m.Valid() && m.dvsize != 0
    ensures m.dv in m.L && ChunkSize(At(m.mem, m.dv + HEAD)) == m.dvsize >= MIN_CHUNK
    ensures !m.L[m.dv].kind.Mapped? && m.dv !in m.rings.held && m.dv !in m.tries.held
  {
    assert RoleOk(m.L, m.dv, m.top, {}, m.dv);
    ChunkAt(m.L, m.S, m.dv);
    HeadBits(m.L, m.S, m.dv);
    HeadAt(m, m.dv);
    Traversed(m, m.dv);
  }

  lemma TopUnbinned(m: MState)
    requires m.Valid() && m.top != 0
    ensures m.top in m.L && !m.L[m.top].kind.Mapped? && m.top !in m.rings.held && m.top !in m.tries.held
  {
    assert RoleOk(m.L, m.dv, m.top, {}, m.top);
    Traversed(m, m.top);
  }

  /** `do_check_malloc_state` */
  method CheckMallocState(m: MState) returns (total: int)
    requires m.Valid() && m.Booked()
    ensures 0 <= total <= m.footprint <= m.maxFootprint
  {
    hide MState.Stored, MState.Indexed, MState.Listed, SegsOk, DirectOk, Total, ChunkSize, PInUse;
    ghost var binned := BinWalks.CheckBins(m);
    if m.dvsize != 0 {
      VictimChunk(m);
      AnyChunk(m, m.dv);
      assert OkAddress(m, m.dv) && m.dvsize == ChunkSize(At(m.mem, m.dv + HEAD)) && m.dvsize >= MIN_CHUNK;
      var found := BinWalks.BinFind(m, m.dv);
      assert !found;
    }
    if m.top != 0 {
      TopHome(m, 0);
      TopChunk(m);
      TopUnbinned(m);
      assert m.topsize > 0;
      var found := BinWalks.BinFind(m, m.top);
      assert !found;
    }
    total := TraverseAndCheck(m);
    assert total <= m.footprint && m.footprint <= m.maxFootprint;
  }
}
