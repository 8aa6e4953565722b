/** `release_unused_segments` and `sys_trim`: memory given back to the system. */
module Trim {
  import opened Blocks
  import opened Free
  import opened Growth
  import opened Layout
  import opened Malloc
  import opened MallocState
  import opened Memory
  import opened Records
  import opened Regions
  import opened Segments
  import opened Sizes
  import opened TreeOps
  import opened Words
  import AddSegment

  // ---- a segment of the list dropped

  lemma SegsRemove(S: Spans, segs: seq<Span>, ids: seq<nat>, direct: set<nat>, k: nat)
    requires SegsOk(S, segs, ids, direct) && k < |segs|
    ensures ids[k] in S && SegsOk(S - {ids[k]}, Without(segs, k), Without(ids, k), direct)
  {
    var h := ids[k];
    var T, s', i' := S - {h}, Without(segs, k), Without(ids, k);
    assert SegAt(S, segs, ids, direct, k);
    forall i {:trigger SegAt(T, s', i', direct, i)} | 0 <= i < |s'| ensures SegAt(T, s', i', direct, i) {
      var j := if i < k then i else i + 1;
      assert SegAt(S, segs, ids, direct, j);
      assert i < k ==> ids[i] != ids[k];
      assert k <= i ==> ids[k] != ids[i + 1];
    }
    forall i, j {:trigger i'[i], i'[j]} | 0 <= i < j < |i'| ensures i'[i] != i'[j] {
      var x, y := if i < k then i else i + 1, if j < k then j else j + 1;
      assert ids[x] != ids[y];
    }
    forall g {:trigger NameOk(T, i', direct, g)} ensures NameOk(T, i', direct, g) {
      assert NameOk(S, ids, direct, g);
      WithoutHolds(ids, k, g);
    }
  }

  lemma WithoutHolds(ids: seq<nat>, k: nat, g: nat)
    requires k < |ids| && forall i, j {:trigger ids[i], ids[j]} :: 0 <= i < j < |ids| ==> ids[i] != ids[j]
    ensures g in Without(ids, k) <==> g in ids && g != ids[k]
  {
    var w := Without(ids, k);
    if g in ids && g != ids[k] {
      var i :| 0 <= i < |ids| && ids[i] == g;
      assert w[if i < k then i else i - 1] == g;
    }
    if g in w {
      var i :| 0 <= i < |w| && w[i] == g;
      var j := if i < k then i else i + 1;
      assert ids[j] == g;
      assert i < k ==> ids[i] != ids[k];
      assert k <= i ==> ids[k] != ids[i + 1];
    }
  }

  // ---- release_unused_segments

  /** The first chunk of a segment is free and reaches to the record at its end. */
  predicate IdleSpan(L: Chunks, s: Span) {
    s.base in L && !InUse(L[s.base].kind) && s.base + L[s.base].size >= s.End() - TOP_FOOT
  }

  ghost predicate Idle(m: MState, k: nat)
    reads m
  {
    0 < k < |m.segs| && IdleSpan(m.L, m.segs[k])
  }

  /** The system is asked about idle segments, in order: those that stay when it gives these answers. */
  function Remaining(L: Chunks, segs: seq<Span>, answers: seq<bool>): seq<Span> {
    if segs == [] then []
    else if !IdleSpan(L, segs[0]) then [segs[0]] + Remaining(L, segs[1..], answers)
    else if answers == [] then [segs[0]] + Remaining(L, segs[1..], [])
    else (if answers[0] then [] else [segs[0]]) + Remaining(L, segs[1..], answers[1..])
  }

  /** The size of the others. */
  function Released(L: Chunks, segs: seq<Span>, answers: seq<bool>): nat {
    if segs == [] then 0
    else if !IdleSpan(L, segs[0]) then Released(L, segs[1..], answers)
    else if answers == [] then Released(L, segs[1..], [])
    else (if answers[0] then segs[0].size else 0) + Released(L, segs[1..], answers[1..])
  }

  /** The number of calls to the system. */
  function Asked(L: Chunks, segs: seq<Span>): nat {
    if segs == [] then 0 else (if IdleSpan(L, segs[0]) then 1 else 0) + Asked(L, segs[1..])
  }

  /** A system that takes everything takes all idle segments and no other. */
  lemma {:induction false} AllTaken(L: Chunks, segs: seq<Span>, answers: seq<bool>, s: Span)
    requires Asked(L, segs) <= |answers| && forall i {:trigger answers[i]} :: 0 <= i < Asked(L, segs) ==> answers[i]
    ensures s in Remaining(L, segs, answers) <==> s in segs && !IdleSpan(L, s)
  {
    if segs != [] {
      AllTaken(L, segs[1..], if IdleSpan(L, segs[0]) then answers[1..] else answers, s);
      assert segs == [segs[0]] + segs[1..];
    }
  }

  /** A system that takes nothing leaves all. */
  lemma {:induction false} NoneTaken(L: Chunks, segs: seq<Span>, answers: seq<bool>)
    requires forall i {:trigger answers[i]} :: 0 <= i < |answers| ==> !answers[i]
    ensures Remaining(L, segs, answers) == segs && Released(L, segs, answers) == 0
  {
    if segs != [] {
      NoneTaken(L, segs[1..], if IdleSpan(L, segs[0]) && answers != [] then answers[1..] else answers);
    }
  }

  function TotalSize(segs: seq<Span>): nat { if segs == [] then 0 else segs[0].size + TotalSize(segs[1..]) }

  /** What is released and what stays is what was there. */
  lemma {:induction false} ReleasedRest(L: Chunks, segs: seq<Span>, answers: seq<bool>)
    ensures TotalSize(segs) == TotalSize(Remaining(L, segs, answers)) + Released(L, segs, answers)
  {
    if segs != [] {
      var rest := if IdleSpan(L, segs[0]) && answers != [] then answers[1..] else answers;
      ReleasedRest(L, segs[1..], rest);
      var tail := Remaining(L, segs[1..], rest);
      assert ([segs[0]] + tail)[1..] == tail && [] + tail == tail;
    }
  }

  /** Chunks are gone at most, but for a designated victim that may have gone into a bin. */
  ghost predicate Thinned(L: Chunks, M: Chunks) {
    forall b {:trigger b in M} :: b in M ==>
      && b in L && M[b].size == L[b].size && M[b].home == L[b].home
      && (M[b].kind == L[b].kind || (L[b].kind.Victim? && M[b].kind.Binned?))
  }

  lemma ThinnedTrans(L: Chunks, M: Chunks, N: Chunks)
    requires Thinned(L, M) && Thinned(M, N)
    ensures Thinned(L, N)
  {
  }

  lemma ThinnedIdle(L: Chunks, M: Chunks, s: Span)
    requires Thinned(L, M) && s.base in M
    ensures IdleSpan(M, s) <==> IdleSpan(L, s)
  {
  }

  lemma ThinnedDrop(L: Chunks, b: int, h: nat)
    requires b in L && L[b].home == h
    ensures Thinned(L, DropChunks(Reuse(L, b, Loose), h))
  {
  }

  lemma ThinnedBinned(L: Chunks, b: int)
    requires b in L && (L[b].kind.Binned? || L[b].kind.Victim?)
    ensures Thinned(L, Reuse(Reuse(L, b, Loose), b, Binned))
  {
  }

  /** Two chunks do not fit into the space of a record. */
  lemma EndIsLast(L: Chunks, S: Spans, r: int)
    requires Tiled(L, S) && r in L && L[r].home in S && S[L[r].home].End() - TOP_FOOT <= r
    ensures Last(L[r].kind) && Next(L, r) == S[L[r].home].End()
  {
    ChunkAt(L, S, r);
    if !Last(L[r].kind) {
      NextAt(L, S, r);
      var s := Next(L, r);
      ChunkAt(L, S, s);
      if !Last(L[s].kind) {
        NextAt(L, S, s);
      }
    }
  }

  /** An idle segment holds one free chunk and its record, and neither is the top chunk. */
  lemma IdleChunks(m: MState, k: nat)
    requires m.Valid() && m.Booked() && m.top != 0 && Idle(m, k)
    ensures |m.ids| == |m.segs|
    ensures var b, h := m.segs[k].base, m.ids[k];
            && h in m.S && m.S[h] == m.segs[k] && h !in m.direct && m.L[b].home == h && MIN_LARGE <= m.L[b].size
            && b % 8 == 0
            && (m.L[b].kind.Binned? || m.L[b].kind.Victim?) && b != m.top
            && forall q {:trigger q in m.L} :: q in m.L && m.L[q].home == h && q != b ==> m.L[q].kind.Record?
  {
    var b, h := m.segs[k].base, m.ids[k];
    SegHome(m, 0, k);
    TopHome(m, 0);
    assert m.ids[0] != m.ids[k];
    SpanHolds(m.L, m.S, h);
    ChunkAt(m.L, m.S, b);
    assert RoleOk(m.L, m.dv, m.top, {}, b);
    NextAt(m.L, m.S, b);
    var r := Next(m.L, b);
    ChunkAt(m.L, m.S, r);
    EndIsLast(m.L, m.S, r);
    forall q {:trigger q in m.L} | q in m.L && m.L[q].home == h && q != b ensures q == r {
      ChunkAt(m.L, m.S, q);
      assert Apart(m.L, q, b);
      assert q != r ==> Apart(m.L, q, r);
    }
    assert RoleOk(m.L, m.dv, m.top, {}, r);
  }

  /** Dropping a region whose chunks are the loose chunk `b` and records. */
  lemma DropRoles(L: Chunks, dv: int, dvsize: int, top: int, topsize: int, b: int, h: nat)
    requires Roles(L, dv, dvsize, top, topsize, {b}) && b in L && L[b].home == h && top != 0 && L[top].home != h
    requires forall q {:trigger q in L} :: q in L && L[q].home == h && q != b ==> L[q].kind.Record?
    ensures Roles(DropChunks(L, h), dv, dvsize, top, topsize, {}) && Beside(L, 0, DropChunks(L, h), 0)
    ensures forall q {:trigger q in L} :: q in L && L[q].home == h ==> !L[q].kind.Binned?
  {
    var M := DropChunks(L, h);
    assert RoleOk(L, dv, top, {b}, b);
    assert dv in L ==> RoleOk(L, dv, top, {b}, dv);
    forall q {:trigger RoleOk(M, dv, top, {}, q)} | q in M ensures RoleOk(M, dv, top, {}, q) {
      assert RoleOk(L, dv, top, {b}, q);
    }
  }

  /** What becomes of the chunks when a free one is taken in hand. */
  lemma InHandRoles(L: Chunks, S: Spans, dv: int, dvsize: int, top: int, topsize: int, b: int)
    requires Tiled(L, S) && Roles(L, dv, dvsize, top, topsize, {}) && b in L && L[b].size > 0
    requires L[b].kind.Binned? || L[b].kind.Victim?
    ensures var d := b == dv;
            Roles(Reuse(L, b, Loose), if d then 0 else dv, if d then 0 else dvsize, top, topsize, {b})
    ensures (b == dv <==> L[b].kind.Victim?) && (b == dv ==> dvsize != 0)
  {
    hide Tiled;
    assert RoleOk(L, dv, top, {}, b);
    RolesReuse(L, dv, dvsize, top, topsize, {}, b, Loose);
    assert {} + {b} == {b};
  }

  /** The free chunk of an idle segment in hand: the designated victim given up, or unlinked from its bin. */
  method Detach(m: MState, b: int, psize: int)
    requires m.Valid() && b in m.L && (m.L[b].kind.Binned? || m.L[b].kind.Victim?) && MIN_LARGE <= m.L[b].size == psize
    modifies m`mem, m`treemap, m`L, m`tries, m`staleHeads, m`staleFeet, m`dv, m`dvsize
    ensures m.Stored() && m.Indexed() && m.Clean() && m.Cast({b}) && m.L == Reuse(old(m.L), b, Loose)
    ensures Quiet(old(m.mem), m.mem, m.L)
  {
    hide MState.Indexed, Tiled, Tagged, Bins, RingsStored, TriesStored, OffState, LeastOk, Tailed, Foreign, Roles;
    hide Reuse, Quiet;
    InHandRoles(m.L, m.S, m.dv, m.dvsize, m.top, m.topsize, b);
    BesideSame(m.L, m.mem, 0);
    if b == m.dv {
      DvLoose(m, {});
      BesideSame(m.L, m.mem, 0);
      m.dv := 0;
      m.dvsize := 0;
    } else {
      HeldBySize(m, b);
      UnlinkLarge(m, b);
    }
  }

  lemma DropBooks(m: MState, L: Chunks, S: Spans, segs: seq<Span>, ids: seq<nat>, k: nat)
    requires SegsOk(S, segs, ids, m.direct) && DirectOk(L, m.direct) && 0 < k < |segs| && Beside(L, 0, m.L, 0)
    requires 0 !in m.L
    requires m.S == S - {ids[k]} && m.segs == Without(segs, k) && m.ids == Without(ids, k)
    requires TopEnds(segs, m.top, m.topsize) && m.footprint == Total(S) - segs[k].size <= m.maxFootprint && m.Listed()
    ensures m.Booked()
  {
    assert SegAt(S, segs, ids, m.direct, k);
    SegsRemove(S, segs, ids, m.direct, k);
    TotalOf(S, ids[k]);
    DirectKept(L, 0, m.L, 0, m.direct);
  }

  lemma SameBooks(m: MState, L: Chunks)
    requires SegsOk(m.S, m.segs, m.ids, m.direct) && DirectOk(L, m.direct) && Beside(L, 0, m.L, 0) && 0 !in m.L
    requires TopEnds(m.segs, m.top, m.topsize) && m.footprint == Total(m.S) <= m.maxFootprint && m.Listed()
    ensures m.Booked()
  {
    DirectKept(L, 0, m.L, 0, m.direct);
  }

  lemma DetachRoles(L: Chunks, M: Chunks, b: int, top: int, h: nat)
    requires b in L && L[b].home == h && M == Reuse(L, b, Loose) && 0 !in L && top in L && L[top].home != h
    requires !Owned(L[b].kind)
    requires forall q {:trigger q in L} :: q in L && L[q].home == h && q != b ==> L[q].kind.Record?
    ensures forall q {:trigger q in M} :: q in M && M[q].home == h && q != b ==> M[q].kind.Record?
    ensures b in M && M[b] == L[b].(kind := Loose, flag := false) && M[top].home != h && Beside(L, 0, M, 0)
  {
    BesideReuse(L, b, Loose);
  }

  /** Only the loose chunk `b` and records are left in region `h`. */
  ghost predicate Emptied(L: Chunks, b: int, top: int, h: nat) {
    && b in L && L[b].kind.Loose? && L[b].home == h && MIN_LARGE <= L[b].size && top in L && L[top].home != h
    && forall q {:trigger q in L} :: q in L && L[q].home == h && q != b ==> L[q].kind.Record?
  }

  method DetachIdle(m: MState, base: int, ghost k: nat) returns (psize: int)
    requires m.Valid() && m.Booked() && m.top != 0 && Idle(m, k) && base == m.segs[k].base
    modifies m`mem, m`treemap, m`L, m`tries, m`staleHeads, m`staleFeet, m`dv, m`dvsize
    ensures m.Stored() && m.Indexed() && m.Clean() && m.Cast({base}) && |m.ids| == |m.segs| && m.ids[k] in m.S
    ensures Emptied(m.L, base, m.top, m.ids[k]) && m.L[base].size == psize
    ensures Beside(old(m.L), 0, m.L, 0) && Quiet(old(m.mem), m.mem, m.L)
    ensures base in old(m.L) && old(m.L)[base].home == m.ids[k] && m.L == Reuse(old(m.L), base, Loose)
    ensures old(m.L)[base].kind.Binned? || old(m.L)[base].kind.Victim?
  {
    hide MState.Stored, Quiet, Beside, Reuse, MState.Indexed, SegsOk, DirectOk, Total, MState.Listed;
    IdleChunks(m, k);
    TopHome(m, 0);
    IdsDiffer(m, k);
    psize := ReadSize(m, base);
    DetachRoles(m.L, Reuse(m.L, base, Loose), base, m.top, m.ids[k]);
    Detach(m, base, psize);
  }

  lemma EmptiedLoose(L: Chunks, b: int, top: int, h: nat)
    requires Emptied(L, b, top, h)
    ensures b in L && L[b].kind.Loose? && MIN_LARGE <= L[b].size
  {
  }

  /** The region goes, with its chunks and its record, which is on the list no more. */
  ghost method DropIdle(m: MState, h: nat, base: int, L0: Chunks, mem0: Words)
    requires m.Stored() && m.Indexed() && m.Clean() && m.Cast({base}) && h in m.S && m.top != 0
    requires Emptied(m.L, base, m.top, h) && m.Listed() && h !in m.ids
    requires Beside(L0, 0, m.L, 0) && Quiet(mem0, m.mem, m.L)
    modifies m`L, m`S, m`notes, m`staleTails, m`staleHeads, m`staleFeet
    ensures m.Valid() && m.Listed() && m.S == old(m.S) - {h} && Beside(L0, 0, m.L, 0) && Quiet(mem0, m.mem, m.L)
    ensures m.L == DropChunks(old(m.L), h)
  {
    hide MState.Stored, MState.Indexed, Quiet, Beside, DropChunks, Chained;
    ghost var L1, notes1 := m.L, m.notes;
    DropRoles(m.L, m.dv, m.dvsize, m.top, m.topsize, base, h);
    GhostDrop(m, h);
    ListedOff(m.seg, m.segs, m.ids, m.links, notes1, h);
    QuietLess(mem0, m.mem, L1, m.L);
    BesideTrans(L0, 0, L1, 0, m.L, 0);
  }

  /** The system takes back a segment whose free chunk is in hand, and its record leaves the list. */
  method UnmapIdle(m: MState, pred: int, next: int, size: int, ghost k: nat, ghost base: int, ghost L0: Chunks,
                   ghost mem0: Words)
    requires m.Stored() && m.Indexed() && m.Clean() && m.Cast({base}) && |m.ids| == |m.segs| && 0 < k < |m.segs|
    requires m.ids[k] in m.S && m.top != 0 && Emptied(m.L, base, m.top, m.ids[k])
    requires SegsOk(m.S, m.segs, m.ids, m.direct) && DirectOk(L0, m.direct) && TopEnds(m.segs, m.top, m.topsize)
    requires m.Listed() && |m.links| == |m.segs| && size == m.segs[k].size
    requires pred == RecordAt(m.links, k - 1) && next == NextRecord(m.links, k)
    requires m.footprint == Total(m.S) <= m.maxFootprint && Beside(L0, 0, m.L, 0) && Quiet(mem0, m.mem, m.L)
    modifies m`mem, m`L, m`S, m`staleTails, m`staleHeads, m`staleFeet, m`seg, m`segs, m`ids, m`links, m`notes
    modifies m`footprint
    ensures m.Valid() && m.Booked() && Beside(L0, 0, m.L, 0) && Quiet(mem0, m.mem, m.L)
    ensures m.segs == Without(old(m.segs), k) && m.links == Without(old(m.links), k)
    ensures m.footprint == old(m.footprint) - size && m.L == DropChunks(old(m.L), old(m.ids)[k])
  {
    hide MState.Stored, MState.Indexed, MState.Booked, MState.Listed, Quiet, Beside, Without, SegsOk, DirectOk, Total;
    hide TopEnds, Emptied, Roles;
    OffTheList(m, k);
    Unlink(m, pred, next, k);
    QuietOn(mem0, old(m.mem), m.mem, m.L);
    DropIdle(m, old(m.ids)[k], base, L0, mem0);
    NullIsFree(m);
    m.footprint := m.footprint - size;
    DropBooks(m, L0, old(m.S), old(m.segs), old(m.ids), k);
  }

  lemma OffTheList(m: MState, k: nat)
    requires SegsOk(m.S, m.segs, m.ids, m.direct) && k < |m.ids|
    ensures m.ids[k] !in Without(m.ids, k)
  {
    WithoutHolds(m.ids, k, m.ids[k]);
  }

  /** An idle segment: unmapped, if the system agrees, or its chunk put into a bin.  `pred` and `next` are the records
      before and after its own. */
  method ReleaseSegment(m: MState, base: int, size: int, pred: int, next: int, unmapped: bool, ghost k: nat)
    requires m.Valid() && m.Booked() && m.top != 0 && Idle(m, k) && base == m.segs[k].base && size == m.segs[k].size
    requires |m.links| == |m.segs| && pred == RecordAt(m.links, k - 1) && next == NextRecord(m.links, k)
    modifies m`mem, m`smallmap, m`treemap, m`L, m`S, m`staleTails, m`rings, m`tries, m`staleHeads, m`staleFeet, m`dv
    modifies m`dvsize, m`seg, m`segs, m`ids, m`links, m`notes, m`footprint
    ensures m.Valid() && m.Booked() && Beside(old(m.L), 0, m.L, 0) && Quiet(old(m.mem), m.mem, m.L)
    ensures m.segs == if unmapped then Without(old(m.segs), k) else old(m.segs)
    ensures m.links == if unmapped then Without(old(m.links), k) else old(m.links)
    ensures m.footprint == old(m.footprint) - (if unmapped then size else 0) && Thinned(old(m.L), m.L)
  {
    hide MState.Stored, MState.Indexed, MState.Listed, Quiet, Beside, Without, SegsOk, DirectOk, Total, TopEnds;
    hide Emptied, Thinned, Reuse, DropChunks;
    var psize := DetachIdle(m, base, k);
    ghost var L1, mem1 := m.L, m.mem;
    EmptiedLoose(m.L, base, m.top, m.ids[k]);
    if unmapped {
      UnmapIdle(m, pred, next, size, k, base, old(m.L), old(m.mem));
      ThinnedDrop(old(m.L), base, old(m.ids)[k]);
    } else {
      Reinsert(m, base, psize);
      ThinnedBinned(old(m.L), base);
      BesideTrans(old(m.L), 0, L1, 0, m.L, 0);
      SameBooks(m, old(m.L));
      QuietTrans(old(m.mem), L1, mem1, 0, m.L, m.mem);
    }
  }

  lemma IdsDiffer(m: MState, k: nat)
    requires SegsOk(m.S, m.segs, m.ids, m.direct) && 0 < k < |m.segs|
    ensures m.ids[0] != m.ids[k]
  {
  }

  lemma QuietLess(mem: Words, mem': Words, L: Chunks, M: Chunks)
    requires Quiet(mem, mem', L) && Beside(L, 0, M, 0) && 0 !in M
    ensures Quiet(mem, mem', M)
  {
    forall b, a {:trigger InPayload(M, b, a)} | InPayload(M, b, a) ensures At(mem', a) == At(mem, a) {
      assert InPayload(L, b, a);
    }
  }

  method Reinsert(m: MState, b: int, psize: int)
    requires m.Stored() && m.Indexed() && m.Clean() && m.Cast({b}) && b in m.L && m.L[b].kind.Loose?
    requires MIN_LARGE <= m.L[b].size == psize
    modifies m`mem, m`smallmap, m`treemap, m`L, m`rings, m`tries
    ensures m.Valid() && Beside(old(m.L), 0, m.L, 0) && Quiet(old(m.mem), m.mem, m.L)
    ensures m.L == Reuse(old(m.L), b, Binned)
  {
    hide MState.Stored, Quiet, Beside, MState.Indexed;
    BesideReuse(m.L, b, Binned);
    assert {b} - {b} == {};
    InsertChunk(m, b, psize, {b});
  }

  /** The test on the words of the first chunk of a segment finds the idle ones. */
  lemma FirstChunk(m: MState, k: nat)
    requires m.Valid() && m.Booked() && 0 < k < |m.segs|
    ensures var b := m.segs[k].base;
            && b in m.L && At(m.mem, b + HEAD) == HeadWord(m.L, b)
            && (!IsInUse(At(m.mem, b + HEAD)) && b + ChunkSize(At(m.mem, b + HEAD)) >= m.segs[k].End() - TOP_FOOT <==>
                    Idle(m, k))
  {
    var b := m.segs[k].base;
    SegHome(m, 0, k);
    HeadBits(m.L, m.S, b);
    HeadAt(m, b);
    ChunkAt(m.L, m.S, b);
    if !InUse(m.L[b].kind) {
      assert RoleOk(m.L, m.dv, m.top, {}, b);
      NotTop(m, k);
    }
  }

  lemma NotTop(m: MState, k: nat)
    requires m.Valid() && m.Booked() && 0 < k < |m.segs|
    ensures m.segs[k].base != m.top
  {
    SegHome(m, 0, k);
    ChunkAt(m.L, m.S, m.segs[k].base);
    TopHome(m, 0);
    IdsDiffer(m, k);
  }

  /** One turn of the loop: the segment at `sp` is released if it is idle and the system agrees. */
  method ReleaseNext(m: MState, pred: int, sp: int, unmaps: bool, ghost k: nat)
    returns (next: int, size: int, asked: bool)
    requires m.Valid() && m.Booked() && m.top != 0 && 0 < k < |m.segs| == |m.links| && Found(m, sp, k)
    requires pred == RecordAt(m.links, k - 1)
    modifies m`mem, m`smallmap, m`treemap, m`L, m`S, m`staleTails, m`rings, m`tries, m`staleHeads, m`staleFeet, m`dv
    modifies m`dvsize, m`seg, m`segs, m`ids, m`links, m`notes, m`footprint
    ensures m.Valid() && m.Booked() && Beside(old(m.L), 0, m.L, 0) && Quiet(old(m.mem), m.mem, m.L)
    ensures 0 <= size && m.footprint == old(m.footprint) - (if asked && unmaps then size else 0)
    ensures m.segs == if asked && unmaps then Without(old(m.segs), k) else old(m.segs)
    ensures m.links == if asked && unmaps then Without(old(m.links), k) else old(m.links)
    ensures (asked <==> old(Idle(m, k))) && size == old(m.segs)[k].size && Thinned(old(m.L), m.L)
    ensures next == NextRecord(old(m.links), k)
    ensures k + 1 < |old(m.segs)| ==> next == RecordAt(old(m.links), k + 1) != 0
  {
    hide MState.Stored, Quiet, Beside, Without, MState.Indexed, SegsOk, DirectOk, Total, TopEnds, HeadWord;
    hide IsInUse, ChunkSize, MState.Listed, Roles, IdleSpan;
    RecordReads(m, k);
    var s := ReadSeg(m.seg, m.mem, sp);
    var base := s.base;
    size, next := s.size, s.next;
    Onward(m, k + 1);
    FirstChunk(m, k);
    BesideSame(m.L, m.mem, 0);
    var w := At(m.mem, base + HEAD);
    asked := !IsInUse(w) && base + ChunkSize(w) >= base + size - TOP_FOOT;
    if asked {
      ReleaseSegment(m, base, size, pred, next, unmaps, k);
    }
  }

  /** The answers from the call numbered `n` on. */
  function From(answers: seq<bool>, n: nat): seq<bool> { if n <= |answers| then answers[n..] else [] }

  /** Up to segment `k` of the current list the loop has done what it should, with `n` calls. */
  ghost predicate Turned(L: Chunks, segs: seq<Span>, answers: seq<bool>, now: seq<Span>, k: nat, n: nat,
                         released: int) {
    && 1 <= k <= |now| && segs != [] && now[0] == segs[0]
    && Remaining(L, segs[1..], answers) == now[1..k] + Remaining(L, now[k..], From(answers, n))
    && Released(L, segs[1..], answers) == released + Released(L, now[k..], From(answers, n))
  }

  lemma TurnStart(L: Chunks, segs: seq<Span>, answers: seq<bool>)
    requires segs != []
    ensures Turned(L, segs, answers, segs, 1, 0, 0)
  {
    assert segs[1..1] == [] && answers[0..] == answers;
    assert [] + Remaining(L, segs[1..], answers) == Remaining(L, segs[1..], answers);
  }

  /** The segment stays. */
  lemma TurnStays(L: Chunks, segs: seq<Span>, answers: seq<bool>, now: seq<Span>, k: nat, n: nat, released: int)
    requires Turned(L, segs, answers, now, k, n, released) && k < |now|
    requires IdleSpan(L, now[k]) ==> !(n < |answers| && answers[n])
    ensures Turned(L, segs, answers, now, k + 1, if IdleSpan(L, now[k]) then n + 1 else n, released)
  {
    var rest, a := now[k..], From(answers, n);
    assert rest[0] == now[k] && rest[1..] == now[k + 1..] && now[1..k + 1] == now[1..k] + [now[k]];
    assert a != [] ==> a[0] == answers[n] && a[1..] == From(answers, n + 1);
    assert a == [] ==> From(answers, n + 1) == [];
  }

  /** The segment goes. */
  lemma TurnTaken(L: Chunks, segs: seq<Span>, answers: seq<bool>, now: seq<Span>, k: nat, n: nat, released: int)
    requires Turned(L, segs, answers, now, k, n, released) && k < |now|
    requires IdleSpan(L, now[k]) && n < |answers| && answers[n]
    ensures Turned(L, segs, answers, Without(now, k), k, n + 1, released + now[k].size)
  {
    var rest, a, w := now[k..], From(answers, n), Without(now, k);
    assert rest[0] == now[k] && rest[1..] == now[k + 1..] == w[k..] && w[1..k] == now[1..k];
    assert a[0] == answers[n] && a[1..] == From(answers, n + 1);
    assert [] + Remaining(L, rest[1..], a[1..]) == Remaining(L, rest[1..], a[1..]);
  }

  lemma TurnEnd(L: Chunks, segs: seq<Span>, answers: seq<bool>, now: seq<Span>, n: nat, released: int)
    requires Turned(L, segs, answers, now, |now|, n, released)
    ensures now == [segs[0]] + Remaining(L, segs[1..], answers) && released == Released(L, segs[1..], answers)
  {
    assert now[|now|..] == [] && now == [now[0]] + now[1..];
    assert now[1..|now|] + [] == now[1..];
  }

  /** Idle now is idle at the beginning. */
  lemma StillIdle(m: MState, L: Chunks, k: nat)
    requires m.Valid() && m.Booked() && 0 < k < |m.segs| && Thinned(L, m.L)
    ensures Idle(m, k) <==> IdleSpan(L, m.segs[k])
  {
    hide MState.Valid, MState.Booked, IdleSpan, Thinned;
    FirstChunk(m, k);
    ThinnedIdle(L, m.L, m.segs[k]);
  }

  /** The counter of large frees up to the next scan, for `n` segments scanned. */
  function NextScan(n: int): int { if n > MAX_RELEASE_CHECK_RATE then n else MAX_RELEASE_CHECK_RATE }

  /** What `release_unused_segments` leaves of the list. */
  ghost predicate Pruned(L: Chunks, segs: seq<Span>, answers: seq<bool>, M: Chunks, now: seq<Span>) {
    segs != [] && now == [segs[0]] + Remaining(L, segs[1..], answers) && Thinned(L, M)
  }

  /** `release_unused_segments`.  `answers` tells which calls of `munmap` succeed. */
  method ReleaseUnused(m: MState, answers: seq<bool>) returns (released: int)
    requires m.Valid() && m.Booked() && m.top != 0
    modifies m`mem, m`smallmap, m`treemap, m`L, m`S, m`staleTails, m`rings, m`tries, m`staleHeads, m`staleFeet, m`dv
    modifies m`dvsize, m`seg, m`segs, m`ids, m`links, m`notes, m`footprint, m`releaseChecks
    ensures m.Valid() && m.Booked() && Beside(old(m.L), 0, m.L, 0) && Quiet(old(m.mem), m.mem, m.L)
    ensures 0 <= released == old(m.footprint) - m.footprint
    ensures Pruned(old(m.L), old(m.segs), answers, m.L, m.segs)
    ensures released == Released(old(m.L), old(m.segs)[1..], answers)
    ensures m.releaseChecks == NextScan(|old(m.segs)| - 1)
  {
    hide MState.Stored, MState.Owing, Quiet, Beside, Without, MState.Indexed, NextRecord, RecordAt, Turned, Thinned;
    hide IdleSpan, Idle, Released, Remaining, From, Roles;
    released := 0;
    var nsegs, calls := 0, 0;
    ghost var k: nat := 1;
    ghost var L0, segs0 := m.L, m.segs;
    BesideSame(m.L, m.mem, 0);
    ThinnedSame(m.L);
    var pred, sp := SecondRecord(m);
    TurnStart(L0, segs0, answers);
    while sp != 0
      invariant m.Valid() && m.Booked() && 1 <= k <= |m.segs| && Beside(L0, 0, m.L, 0)
      invariant Quiet(old(m.mem), m.mem, m.L)
      invariant 0 <= released == old(m.footprint) - m.footprint && calls >= 0 && nsegs == |segs0| - |m.segs| + k - 1
      invariant Found(m, sp, k) && (sp != 0 <==> k < |m.segs|) && pred == RecordAt(m.links, k - 1)
      invariant Turned(L0, segs0, answers, m.segs, k, calls, released) && Thinned(L0, m.L)
      decreases |m.segs| - k
    {
      ghost var L1, mem1, links1, segs1 := m.L, m.mem, m.links, m.segs;
      var unmaps := calls < |answers| && answers[calls];
      StillIdle(m, L0, k);
      var next, size, asked := ReleaseNext(m, pred, sp, unmaps, k);
      nsegs := nsegs + 1;
      NullIsFree(m);
      BesideTrans(L0, 0, L1, 0, m.L, 0);
      QuietTrans(old(m.mem), L1, mem1, 0, m.L, m.mem);
      ThinnedTrans(L0, L1, m.L);
      RecordsOn(links1, k);
      if asked && unmaps {
        TurnTaken(L0, segs0, answers, segs1, k, calls, released);
        WithoutShorter(segs1, k);
        released := released + size;
        WithoutRecords(links1, k);
      } else {
        TurnStays(L0, segs0, answers, segs1, k, calls, released);
        pred := sp;
        k := k + 1;
      }
      if asked {
        calls := calls + 1;
      }
      sp := next;
    }
    TurnEnd(L0, segs0, answers, m.segs, calls, released);
    m.releaseChecks := if nsegs > MAX_RELEASE_CHECK_RATE then nsegs else MAX_RELEASE_CHECK_RATE;
  }

  /** When the system takes everything, no idle segment is left. */
  lemma NoneIdle(m: MState, L: Chunks, segs: seq<Span>, answers: seq<bool>, k: nat)
    requires m.Valid() && m.Booked() && Pruned(L, segs, answers, m.L, m.segs)
    requires Asked(L, segs[1..]) <= |answers|
    requires forall i {:trigger answers[i]} :: 0 <= i < Asked(L, segs[1..]) ==> answers[i]
    ensures !Idle(m, k)
  {
    hide MState.Valid, MState.Booked, IdleSpan, Thinned;
    if 0 < k < |m.segs| {
      StillIdle(m, L, k);
      assert m.segs[k] == m.segs[1..][k - 1] && m.segs[1..] == Remaining(L, segs[1..], answers);
      AllTaken(L, segs[1..], answers, m.segs[k]);
    }
  }

  lemma ThinnedSame(L: Chunks)
    ensures Thinned(L, L)
  {
  }

  lemma WithoutShorter(segs: seq<Span>, k: nat)
    requires k < |segs|
    ensures |Without(segs, k)| == |segs| - 1
  {
  }

  /** `pred = &m->seg; sp = pred->next` */
  method SecondRecord(m: MState) returns (pred: int, sp: int)
    requires m.Valid() && m.Booked() && m.top != 0
    ensures m.segs != [] && Found(m, sp, 1) && (sp != 0 <==> 1 < |m.segs|) && pred == RecordAt(m.links, 0)
  {
    hide MState.Stored, SegsOk, DirectOk, Total, TopEnds, MState.Indexed, MState.Listed;
    SomeSegment(m);
    ListedLengths(m);
    RecordReads(m, 0);
    pred := SEG;
    sp := ReadSeg(m.seg, m.mem, pred).next;
    Onward(m, 1);
  }

  lemma SomeSegment(m: MState)
    requires m.Booked() && m.top != 0
    ensures m.segs != []
  {
  }

  lemma RecordsOn(links: seq<int>, k: nat)
    requires k < |links|
    ensures k + 1 == |links| ==> NextRecord(links, k) == 0
  {
  }

  lemma WithoutRecords(links: seq<int>, k: nat)
    requires 0 < k < |links|
    ensures var l := Without(links, k);
            && |l| == |links| - 1 && RecordAt(l, k - 1) == RecordAt(links, k - 1)
            && (k < |l| ==> RecordAt(l, k) == RecordAt(links, k + 1))
  {
  }

  // ---- sys_trim

  /** Whole units of the top chunk beyond `pad`, keeping at least one. */
  function Extra(topsize: int, pad: int): int
    requires topsize > pad
  {
    ((topsize - pad + (GRANULARITY - 1)) / GRANULARITY - 1) * GRANULARITY
  }

  /** What is left is more than `pad`, and not a whole unit more than that. */
  lemma ExtraLeaves(topsize: int, pad: int)
    requires topsize > pad
    ensures 0 <= Extra(topsize, pad) < topsize - pad <= Extra(topsize, pad) + GRANULARITY
    ensures Whole(Extra(topsize, pad)) && Extra(topsize, pad) % 8 == 0
  {
    var q := (topsize - pad + (GRANULARITY - 1)) / GRANULARITY - 1;
    assert q * GRANULARITY == 8 * (q * 0x2000);
  }

  /** The sums of `sys_trim` do not wrap around. */
  lemma TrimFits(m: MState)
    requires m.Valid() && m.Booked() && m.top != 0
    ensures m.topsize + GRANULARITY <= SPACE
  {
    TopHome(m, 0);
    SegHome(m, 0, 0);
    ChunkAt(m.L, m.S, m.top);
    SpanHolds(m.L, m.S, m.ids[0]);
    WholeBelow(m.segs[0].size);
  }

  lemma WholeBelow(n: nat)
    requires Whole(n) && n < SPACE
    ensures n + GRANULARITY <= SPACE
  {
  }

  /** No segment record lies in the newest segment, so it is never pinned. */
  lemma NotPinned(m: MState, q: int)
    requires m.Valid() && m.Booked() && m.top != 0 && q in m.L && m.L[q].kind.Record?
    ensures m.L[q].home != m.ids[0]
  {
    TopHome(m, 0);
    SegHome(m, 0, 0);
    ChunkAt(m.L, m.S, q);
    ChunkAt(m.L, m.S, m.top);
    assert Apart(m.L, q, m.top);
  }

  lemma NeverPinned(m: MState, k: nat)
    requires m.Valid() && m.Booked() && m.top != 0 && k < |m.links|
    ensures m.segs != [] && |m.links| == |m.segs|
    ensures !(m.segs[0].base <= RecordAt(m.links, k) < m.segs[0].End())
  {
    TopHome(m, 0);
    SegHome(m, 0, 0);
    RecordReads(m, k);
    if k > 0 {
      var q := m.links[k];
      NotPinned(m, q);
      ChunkAt(m.L, m.S, q);
      assert SpansApart(m.S, m.L[q].home, m.ids[0]);
    } else {
      assert SpanClear(m.S, m.ids[0]);
    }
  }

  lemma NoLink(m: MState, s: Seg, linked: bool)
    requires m.Valid() && m.Booked() && m.top != 0 && m.segs != [] && |m.links| == |m.segs|
    requires s.base == m.segs[0].base && s.size == m.segs[0].size
    requires linked <==> exists k {:trigger RecordAt(m.links, k)} ::
               0 <= k < |m.links| && s.base <= RecordAt(m.links, k) < s.base + s.size
    ensures !linked
  {
    hide MState.Valid, MState.Booked;
    forall k {:trigger RecordAt(m.links, k)} | 0 <= k < |m.links|
      ensures !(s.base <= RecordAt(m.links, k) < s.base + s.size)
    {
      NeverPinned(m, k);
    }
  }

  lemma ShrinkOk(m: MState, extra: nat)
    requires m.Valid() && m.Booked() && m.top != 0 && extra < m.topsize && extra % 8 == 0
    ensures m.top in m.L && CanResize(m.L, m.S, m.top, m.topsize - extra + TOP_FOOT)
  {
    TopHome(m, 0);
    ChunkAt(m.L, m.S, m.top);
  }

  lemma ShrinkReady(m: MState, extra: nat)
    requires m.Valid() && m.Booked() && m.top != 0 && extra < m.topsize && extra % 8 == 0 && Whole(extra)
    ensures m.top in m.L && CanResize(m.L, m.S, m.top, m.topsize - extra + TOP_FOOT) && m.segs != []
    ensures |m.ids| == |m.segs| == |m.links| && m.L[m.top].home == m.ids[0] && m.ids[0] in m.S
    ensures m.S[m.ids[0]] == m.segs[0] && m.segs[0].base <= m.top && Whole(m.segs[0].size - extra)
    ensures m.top + m.topsize + TOP_FOOT == m.segs[0].End() && extra < m.segs[0].size
    ensures var s := ReadSeg(m.seg, m.mem, SEG); s.base == m.segs[0].base && s.size == m.segs[0].size
  {
    hide MState.Stored, MState.Indexed, SegsOk, DirectOk, Total, Roles, CanResize;
    TopHome(m, 0);
    SegHome(m, 0, 0);
    AddSegment.TopInFirst(m, 0);
    ShrinkOk(m, extra);
    WholeSum(m.segs[0].size, extra);
    RecordReads(m, 0);
  }

  lemma FirstSet(segs: seq<Span>, s: Span)
    requires segs != []
    ensures segs[0 := s][1..] == segs[1..]
  {
  }

  /** The top chunk and the record of its segment made shorter. */
  method ShrinkSpan(m: MState, sp: int, extra: nat)
    requires m.Valid() && m.Booked() && m.top != 0 && extra < m.topsize && extra % 8 == 0 && Whole(extra)
    requires Found(m, sp, 0) && m.segs != [] && m.top in m.L && m.L[m.top].home in m.S
    requires CanResize(m.L, m.S, m.top, m.topsize - extra + TOP_FOOT) && m.S[m.L[m.top].home].base <= m.top
    requires var s := ReadSeg(m.seg, m.mem, sp); s.base == m.segs[0].base && s.size == m.segs[0].size
    requires extra < m.segs[0].size
    modifies m`mem, m`L, m`S, m`staleTails, m`staleHeads, m`staleFeet, m`top, m`topsize, m`trimCheck, m`seg, m`segs
    modifies m`notes
    ensures m.Valid() && m.top == old(m.top) && m.topsize == old(m.topsize) - extra && m.trimCheck == TRIM_THRESHOLD
    ensures Beside(old(m.L), 0, m.L, 0) && Quiet(old(m.mem), m.mem, m.L) && m.Listed()
    ensures m.S == ResizeSpan(old(m.L), old(m.S), m.top, m.topsize + TOP_FOOT)
    ensures m.L == Resize(old(m.L), m.top, m.topsize + TOP_FOOT)
    ensures m.segs == old(m.segs)[0 := Span(old(m.segs)[0].base, old(m.segs)[0].size - extra)]
  {
    hide MState.Stored, Quiet, Beside, MState.Indexed, SegsOk, DirectOk, Total, Whole, CanResize, ResizeSpan;
    hide MState.Listed, Roles, Resize, TopEnds;
    var s := ReadSeg(m.seg, m.mem, sp);
    GrowTop(m, m.topsize - extra);
    ghost var mem1 := m.mem;
    SetSpan(m, sp, s.base, s.size - extra, 0);
    QuietOn(old(m.mem), mem1, m.mem, m.L);
  }

  /** The end of the newest segment given back. */
  method ShrinkTop(m: MState, sp: int, extra: nat)
    requires m.Valid() && m.Booked() && m.top != 0 && extra < m.topsize && extra % 8 == 0 && Whole(extra)
    requires Found(m, sp, 0)
    modifies m`mem, m`L, m`S, m`staleTails, m`staleHeads, m`staleFeet, m`top, m`topsize, m`trimCheck, m`seg, m`segs
    modifies m`notes, m`footprint
    ensures m.Valid() && m.Booked() && m.top == old(m.top) && m.topsize == old(m.topsize) - extra
    ensures m.footprint == old(m.footprint) - extra && Beside(old(m.L), 0, m.L, 0) && Quiet(old(m.mem), m.mem, m.L)
    ensures m.top in old(m.L) && m.L == Resize(old(m.L), m.top, m.topsize + TOP_FOOT) && m.trimCheck == TRIM_THRESHOLD
    ensures |m.segs| == |old(m.segs)| && m.segs != [] && m.segs[1..] == old(m.segs)[1..]
  {
    hide MState.Stored, Quiet, Beside, MState.Indexed, SegsOk, DirectOk, Total, Whole, CanResize, ResizeSpan;
    hide MState.Listed, Roles, Resize;
    ShrinkReady(m, extra);
    ShrinkSpan(m, sp, extra);
    FirstSet(old(m.segs), Span(old(m.segs)[0].base, old(m.segs)[0].size - extra));
    NullIsFree(m);
    m.footprint := m.footprint - extra;
    ResizeBooks(m, old(m.L), old(m.S), old(m.segs));
  }

  /** The newest segment shrunk in whole units, if the system agrees. */
  method TrimTop(m: MState, keep: int, shrunk: bool) returns (released: int)
    requires m.Valid() && m.Booked() && m.top != 0 && m.topsize > keep >= 0
    modifies m`mem, m`L, m`S, m`staleTails, m`staleHeads, m`staleFeet, m`top, m`topsize, m`trimCheck, m`seg, m`segs
    modifies m`notes, m`footprint
    ensures m.Valid() && m.Booked() && m.top == old(m.top) && Beside(old(m.L), 0, m.L, 0)
    ensures Quiet(old(m.mem), m.mem, m.L)
    ensures released == old(m.footprint) - m.footprint == old(m.topsize) - m.topsize
    ensures released == if shrunk then Extra(old(m.topsize), keep) else 0
    ensures 0 <= released && (shrunk ==> keep < m.topsize <= keep + GRANULARITY)
    ensures m.top in old(m.L) && m.L == Resize(old(m.L), m.top, m.topsize + TOP_FOOT)
    ensures |m.segs| == |old(m.segs)| && m.segs != [] && m.segs[1..] == old(m.segs)[1..]
    ensures m.trimCheck == if released > 0 then TRIM_THRESHOLD else old(m.trimCheck)
  {
    hide MState.Stored, MState.Indexed, SegsOk, DirectOk, Total, Extra, Whole, Roles, MState.Listed;
    released := 0;
    var extra := Extra(m.topsize, keep);
    ExtraLeaves(m.topsize, keep);
    AddSegment.TopInFirst(m, 0);
    var sp, k := SegmentHolding(m, m.top);
    assert k == 0;
    RecordReads(m, 0);
    var s := ReadSeg(m.seg, m.mem, sp);
    SameTop(m);
    TrimFits(m);
    assert m.topsize - keep + (GRANULARITY - 1) < SPACE;    // the sum does not wrap around
    var linked := HasSegmentLink(m, s);
    NoLink(m, s, linked);
    if s.size >= extra && !linked && shrunk && extra != 0 {
      ShrinkTop(m, sp, extra);
      released := extra;
    }
  }

  lemma SameTop(m: MState)
    requires m.Valid() && m.top != 0
    ensures m.top in m.L && m.topsize >= 0 && Resize(m.L, m.top, m.topsize + TOP_FOOT) == m.L
  {
    assert RoleOk(m.L, m.dv, m.top, {}, m.top);
    ChunkAt(m.L, m.S, m.top);
  }

  lemma TopOrNone(m: MState)
    requires m.Valid()
    ensures m.top == 0 ==> m.topsize == 0
  {
  }

  /** What `sys_trim` takes off the top chunk. */
  function TopTrim(topsize: int, pad: int, shrunk: bool): int {
    if shrunk && pad + TOP_FOOT < topsize then Extra(topsize, pad + TOP_FOOT) else 0
  }

  /** As `Thinned`, with another size for the top chunk. */
  ghost predicate Trimmed(L: Chunks, M: Chunks, top: int) {
    forall b {:trigger b in M} :: b in M ==>
      && b in L && M[b].home == L[b].home && (M[b].size == L[b].size || b == top)
      && (M[b].kind == L[b].kind || (L[b].kind.Victim? && M[b].kind.Binned?))
  }

  lemma TrimmedBy(L: Chunks, M: Chunks, top: int, size: nat)
    requires top in L && Thinned(Resize(L, top, size), M)
    ensures Trimmed(L, M, top)
  {
  }

  /** Both layouts have the same idle segments. */
  lemma {:induction false} SameIdle(L: Chunks, M: Chunks, segs: seq<Span>, answers: seq<bool>)
    requires forall i {:trigger segs[i]} :: 0 <= i < |segs| ==> (IdleSpan(L, segs[i]) <==> IdleSpan(M, segs[i]))
    ensures Remaining(L, segs, answers) == Remaining(M, segs, answers)
    ensures Released(L, segs, answers) == Released(M, segs, answers)
  {
    if segs != [] {
      forall i {:trigger segs[1..][i]} | 0 <= i < |segs[1..]|
        ensures IdleSpan(L, segs[1..][i]) <==> IdleSpan(M, segs[1..][i])
      {
        assert segs[1..][i] == segs[i + 1];
      }
      assert segs[0] == segs[0];
      SameIdle(L, M, segs[1..], if IdleSpan(L, segs[0]) && answers != [] then answers[1..] else answers);
    }
  }

  /** The size of the top chunk does not matter for the other segments. */
  lemma ResizedIdle(m: MState, L: Chunks, size: nat, answers: seq<bool>)
    requires m.Valid() && m.Booked() && m.top != 0 && m.segs != [] && m.top in L && m.L == Resize(L, m.top, size)
    ensures Remaining(L, m.segs[1..], answers) == Remaining(m.L, m.segs[1..], answers)
    ensures Released(L, m.segs[1..], answers) == Released(m.L, m.segs[1..], answers)
  {
    hide MState.Valid, MState.Booked;
    var segs := m.segs[1..];
    forall i {:trigger segs[i]} | 0 <= i < |segs| ensures IdleSpan(L, segs[i]) <==> IdleSpan(m.L, segs[i]) {
      assert segs[i] == m.segs[i + 1];
      NotTop(m, i + 1);
    }
    SameIdle(L, m.L, segs, answers);
  }

  /** The threshold after `sys_trim`: as set with the new top chunk, and out of reach if nothing was released. */
  function TrimCheckAfter(check: int, topsize: int, fromTop: int, released: int): int {
    if released == 0 && topsize > check then SPACE - 1 else if fromTop > 0 then TRIM_THRESHOLD else check
  }

  /** All that `sys_trim` does, if it does anything. */
  ghost predicate TrimmedAll(L: Chunks, segs: seq<Span>, topsize: int, check: int, pad: nat, shrunk: bool,
                             answers: seq<bool>, m: MState, released: int)
    reads m
  {
    && segs != [] && m.segs != [] && m.topsize == topsize - TopTrim(topsize, pad, shrunk)
    && released == TopTrim(topsize, pad, shrunk) + Released(L, segs[1..], answers)
    && m.segs[1..] == Remaining(L, segs[1..], answers) && Trimmed(L, m.L, m.top)
    && m.trimCheck == TrimCheckAfter(check, topsize, topsize - m.topsize, released)
    && m.releaseChecks == NextScan(|segs| - 1)
  }

  /** The top chunk shrunk, then idle segments released. */
  method TrimAll(m: MState, pad: nat, shrunk: bool, answers: seq<bool>) returns (fromTop: int, more: int)
    requires m.Valid() && m.Booked() && m.top != 0
    modifies m`mem, m`smallmap, m`treemap, m`L, m`S, m`staleTails, m`rings, m`tries, m`staleHeads, m`staleFeet, m`dv
    modifies m`dvsize, m`seg, m`segs, m`ids, m`links, m`notes, m`footprint, m`releaseChecks, m`top, m`topsize
    modifies m`trimCheck
    ensures m.Valid() && m.Booked() && m.top == old(m.top) && 0 <= fromTop && 0 <= more
    ensures Beside(old(m.L), 0, m.L, 0) && Quiet(old(m.mem), m.mem, m.L)
    ensures fromTop + more == old(m.footprint) - m.footprint
    ensures fromTop == TopTrim(old(m.topsize), pad, shrunk) == old(m.topsize) - m.topsize
    ensures shrunk && pad + TOP_FOOT < old(m.topsize) ==> pad + TOP_FOOT < m.topsize <= pad + TOP_FOOT + GRANULARITY
    ensures old(m.segs) != [] && m.segs != [] && m.segs[1..] == Remaining(old(m.L), old(m.segs)[1..], answers)
    ensures more == Released(old(m.L), old(m.segs)[1..], answers) && Trimmed(old(m.L), m.L, m.top)
    ensures m.trimCheck == if fromTop > 0 then TRIM_THRESHOLD else old(m.trimCheck)
    ensures m.releaseChecks == NextScan(|old(m.segs)| - 1)
  {
    hide MState.Stored, MState.Indexed, MState.Owing, Quiet, Beside, Roles, Released, Remaining, Resize, Thinned;
    hide Trimmed, Extra, NextScan;
    SameTop(m);
    SomeSegment(m);
    BesideSame(m.L, m.mem, 0);
    fromTop := 0;
    if m.topsize > pad + TOP_FOOT {
      fromTop := TrimTop(m, pad + TOP_FOOT, shrunk);
    }
    ghost var L1, mem1 := m.L, m.mem;
    ResizedIdle(m, old(m.L), m.topsize + TOP_FOOT, answers);
    more := ReleaseUnused(m, answers);
    TrimmedBy(old(m.L), m.L, m.top, m.topsize + TOP_FOOT);
    NullIsFree(m);
    BesideTrans(old(m.L), 0, L1, 0, m.L, 0);
    QuietTrans(old(m.mem), L1, mem1, 0, m.L, m.mem);
  }

  /** `sys_trim`.  `shrunk` tells whether the system takes back the end of the newest segment. */
  method SysTrim(m: MState, pad: nat, shrunk: bool, answers: seq<bool>) returns (released: int)
    requires m.Valid() && m.Booked()
    modifies m
    ensures m.alien == old(m.alien)
    ensures m.Valid() && m.Booked() && Beside(old(m.L), 0, m.L, 0) && Quiet(old(m.mem), m.mem, m.L)
    ensures 0 <= released == old(m.footprint) - m.footprint && m.footprintLimit == old(m.footprintLimit)
    ensures if shrunk && pad < MAX_REQUEST && pad + TOP_FOOT < old(m.topsize) then
              pad + TOP_FOOT < m.topsize <= pad + TOP_FOOT + GRANULARITY
            else m.topsize == old(m.topsize)
    ensures m.top == old(m.top) && m.maxFootprint == old(m.maxFootprint)
    ensures if pad < MAX_REQUEST && m.top != 0 then
              TrimmedAll(old(m.L), old(m.segs), old(m.topsize), old(m.trimCheck), pad, shrunk, answers, m, released)
            else unchanged(m)
  {
    hide MState.Stored, MState.Indexed, MState.Owing, Quiet, Beside, Roles, Released, Remaining, Trimmed, Extra;
    hide NextScan;
    released := 0;
    BesideSame(m.L, m.mem, 0);
    TopOrNone(m);
    if pad < MAX_REQUEST && m.top != 0 {
      var fromTop, more := TrimAll(m, pad, shrunk, answers);
      released := fromTop + more;
      if released == 0 && m.topsize > m.trimCheck {
        m.trimCheck := SPACE - 1;
      }
    }
  }
}
