/** `internal_bulk_free`: an array of blocks freed together, neighbours joined first. */
module BulkFree {
  import opened Blocks
  import opened Dlfree
  import opened Free
  import opened Layout
  import opened MallocState
  import opened Memory
  import opened Sizes
  import opened Trim
  import opened Words
  import AddSegment
  import Growth

  /** The block of the chunk at `b` is in the array. */
  predicate Listed(s: seq<int>, b: int) { b + FD in s }

  /** Blocks are null, or belong to client chunks, each once. */
  ghost predicate OwnedBlocks(L: Chunks, s: seq<int>) {
    && (forall i {:trigger s[i]} :: 0 <= i < |s| && s[i] != 0 ==> s[i] - FD in L && Owned(L[s[i] - FD].kind))
    && (forall i, j {:trigger s[i], s[j]} :: 0 <= i < j < |s| && s[i] != 0 ==> s[i] != s[j])
  }

  predicate SameChunk(L: Chunks, M: Chunks, b: int)
    requires b in L
  {
    b in M && M[b].kind == L[b].kind && M[b].size == L[b].size && M[b].home == L[b].home && M[b].flag == L[b].flag
  }

  /** With `s` still to be freed, the other client chunks are those that were not listed, and perhaps mapped
      ones that the system did not take back. */
  ghost predicate Freeing(L: Chunks, all: seq<int>, M: Chunks, s: seq<int>) {
    && (forall b {:trigger Listed(all, b)} :: b in L && Owned(L[b].kind) && !Listed(all, b) ==>
            SameChunk(L, M, b) && !Listed(s, b))
    && (forall b {:trigger Listed(s, b)} :: b in M && Owned(M[b].kind) && !Listed(s, b) ==>
          b in L && Owned(L[b].kind) && (!Listed(all, b) || M[b].kind.Mapped?))
    && (forall b {:trigger b in M} :: b in M && M[b].kind.Mapped? ==> b in L && SameChunk(L, M, b))
  }

  /** No block is mapped by itself. */
  ghost predicate LiveBlocks(L: Chunks, s: seq<int>) {
    forall i {:trigger s[i]} :: 0 <= i < |s| && s[i] != 0 ==> s[i] - FD in L && L[s[i] - FD].kind.Live?
  }

  /** The chunk at `b` is not about to be freed, or it is mapped and may be left. */
  predicate Staying(M: Chunks, s: seq<int>, b: int) {
    b in M && Owned(M[b].kind) && (M[b].kind.Mapped? || !Listed(s, b))
  }

  ghost predicate Fewer(M: Chunks, s: seq<int>, N: Chunks, t: seq<int>) {
    forall b {:trigger Staying(N, t, b)} :: Staying(N, t, b) ==> Staying(M, s, b)
  }

  lemma StayingSame(L: Chunks, all: seq<int>, M: Chunks, s: seq<int>, b: int)
    requires Freeing(L, all, M, s) && Staying(M, s, b)
    ensures b in L && SameChunk(L, M, b)
  {
    if !M[b].kind.Mapped? {
      assert !Listed(s, b) && !Listed(all, b);
    }
  }

  /** The blocks that stay are untouched. */
  ghost predicate Spared(mem: Words, mem': Words, M: Chunks, s: seq<int>) {
    forall b, a {:trigger InPayload(M, b, a)} :: InPayload(M, b, a) && Staying(M, s, b) ==> At(mem', a) == At(mem, a)
  }

  lemma SparedOn(mem: Words, mem1: Words, mem2: Words, L: Chunks, all: seq<int>, M: Chunks, s: seq<int>, N: Chunks,
                 t: seq<int>)
    requires Spared(mem, mem1, M, s) && Quiet(mem1, mem2, N) && Fewer(M, s, N, t) && Freeing(L, all, M, s)
    requires Freeing(L, all, N, t)
    ensures Spared(mem, mem2, N, t)
  {
    forall b, a {:trigger InPayload(N, b, a)} | InPayload(N, b, a) && Staying(N, t, b)
      ensures At(mem2, a) == At(mem, a)
    {
      assert Staying(M, s, b);
      StayingSame(L, all, M, s, b);
      StayingSame(L, all, N, t, b);
      assert InPayload(M, b, a);
    }
  }

  // ---- listed blocks with regions of their own

  /** The entry is a block mapped by itself. */
  predicate MappedEntry(L: Chunks, e: int) { e != 0 && e - FD in L && L[e - FD].kind.Mapped? }

  /** The system takes back the region of entry `i`. */
  predicate Takes(unmaps: seq<bool>, i: nat) { i < |unmaps| && unmaps[i] }

  function EntryBytes(L: Chunks, S: Spans, e: int, taken: bool): nat {
    if taken && MappedEntry(L, e) && L[e - FD].home in S then S[L[e - FD].home].size else 0
  }

  /** The regions that the system takes back for the first `n` entries. */
  function TakenBytes(L: Chunks, S: Spans, all: seq<int>, unmaps: seq<bool>, n: nat): nat
    requires n <= |all|
  {
    if n == 0 then 0
    else TakenBytes(L, S, all, unmaps, n - 1) + EntryBytes(L, S, all[n - 1], Takes(unmaps, n - 1))
  }

  /** One entry freed: mapped chunks stay, but for the one listed there if the system takes it. */
  ghost predicate MappedStep(L: Chunks, M: Chunks, e: int, taken: bool) {
    && (forall b {:trigger b in L} :: b in L && L[b].kind.Mapped? && !(taken && b + FD == e) ==>
            b in M && M[b].kind.Mapped?)
    && (taken && MappedEntry(L, e) ==> !MappedEntry(M, e))
  }

  /** The regions of `T` are among those of `S`. */
  ghost predicate SubSpans(S: Spans, T: Spans) { forall h {:trigger h in T} :: h in T ==> h in S && T[h] == S[h] }

  /** Of the mapped blocks listed before `n` those are left that the system did not take, and all others are still
      listed as they were. */
  ghost predicate MappedDone(L: Chunks, all: seq<int>, unmaps: seq<bool>, M: Chunks, now: seq<int>, n: nat) {
    && |now| == |all| && n <= |all|
    && (forall i {:trigger all[i]} :: 0 <= i < n && MappedEntry(L, all[i]) ==>
            (MappedEntry(M, all[i]) <==> !Takes(unmaps, i)))
    && (forall i {:trigger all[i]} :: n <= i < |all| && MappedEntry(L, all[i]) ==>
            MappedEntry(M, all[i]) && now[i] == all[i])
    && (forall i {:trigger now[i]} :: n <= i < |all| && MappedEntry(M, now[i]) ==>
            now[i] == all[i] && MappedEntry(L, all[i]))
  }

  /** How the array changes: the entry after `i` may become that of a joined live chunk. */
  ghost predicate ArrayStep(L: Chunks, M: Chunks, a: seq<int>, a': seq<int>, i: nat) {
    && |a'| == |a| && i < |a|
    && forall j {:trigger a'[j]} :: i < j < |a| && a'[j] != a[j] ==> !MappedEntry(L, a[j]) && !MappedEntry(M, a'[j])
  }

  lemma MappedOn(L: Chunks, all: seq<int>, unmaps: seq<bool>, M: Chunks, now: seq<int>, N: Chunks, now': seq<int>,
                 i: nat)
    requires MappedDone(L, all, unmaps, M, now, i) && i < |all| && MappedStep(M, N, now[i], Takes(unmaps, i))
    requires ArrayStep(M, N, now, now', i) && Distinct(all)
    requires forall b {:trigger b in N} :: b in N && N[b].kind.Mapped? ==> b in M && M[b].kind.Mapped?
    ensures MappedDone(L, all, unmaps, N, now', i + 1)
  {
    forall j {:trigger all[j]} | 0 <= j < i + 1 && MappedEntry(L, all[j])
      ensures MappedEntry(N, all[j]) <==> !Takes(unmaps, j)
    {
      if j < i {
        assert all[j] != all[i];
      }
    }
    forall j {:trigger all[j]} | i + 1 <= j < |all| && MappedEntry(L, all[j])
      ensures MappedEntry(N, all[j]) && now'[j] == all[j]
    {
      assert all[i] != all[j];
    }
    forall j {:trigger now'[j]} | i + 1 <= j < |all| && MappedEntry(N, now'[j])
      ensures now'[j] == all[j] && MappedEntry(L, all[j])
    {
      assert now'[j] == now[j];
    }
  }

  /** No block is listed twice. */
  ghost predicate Distinct(all: seq<int>) {
    forall i, j {:trigger all[i], all[j]} :: 0 <= i < j < |all| && all[i] != 0 ==> all[i] != all[j]
  }

  // ---- one step

  /** Null entries are passed over. */
  lemma SkipNull(L: Chunks, all: seq<int>, M: Chunks, s: seq<int>)
    requires Freeing(L, all, M, s) && s != [] && s[0] == 0 && OwnedBlocks(M, s) && 0 !in M && -FD !in M
    ensures Freeing(L, all, M, s[1..]) && OwnedBlocks(M, s[1..]) && Fewer(M, s, M, s[1..])
  {
    forall b {:trigger Listed(s[1..], b)} | b in M ensures Listed(s, b) <==> Listed(s[1..], b) {
    }
    Tail(M, s);
  }

  lemma Tail(M: Chunks, s: seq<int>)
    requires OwnedBlocks(M, s) && s != []
    ensures OwnedBlocks(M, s[1..])
  {
    var t := s[1..];
    forall i {:trigger t[i]} | 0 <= i < |t| && t[i] != 0 ensures t[i] - FD in M && Owned(M[t[i] - FD].kind) {
      assert t[i] == s[i + 1];
    }
    forall i, j {:trigger t[i], t[j]} | 0 <= i < j < |t| && t[i] != 0 ensures t[i] != t[j] {
      assert t[i] == s[i + 1] && t[j] == s[j + 1];
    }
  }

  /** A listed chunk is freed. */
  lemma StepFreed(L: Chunks, all: seq<int>, M: Chunks, s: seq<int>, N: Chunks, p: int)
    requires Freeing(L, all, M, s) && OwnedBlocks(M, s) && s != [] && s[0] == p + FD != 0 && 0 !in N
    requires Beside(M, p, N, 0)
    ensures Freeing(L, all, N, s[1..]) && OwnedBlocks(N, s[1..]) && Fewer(M, s, N, s[1..])
  {
    var t := s[1..];
    forall b {:trigger Listed(t, b)} ensures Listed(s, b) <==> Listed(t, b) || b == p {
      assert s == [s[0]] + t;
    }
    NotAgain(M, s);
    forall b {:trigger Listed(all, b)} | b in L && Owned(L[b].kind) && !Listed(all, b)
      ensures SameChunk(L, N, b) && !Listed(t, b)
    {
      assert !Listed(s, b) && b in M;
    }
    forall b {:trigger Listed(t, b)} | b in N && Owned(N[b].kind) && !Listed(t, b)
      ensures b in L && Owned(L[b].kind) && (!Listed(all, b) || N[b].kind.Mapped?)
    {
      assert !Listed(s, b);
    }
    Tail(M, s);
    forall i {:trigger t[i]} | 0 <= i < |t| && t[i] != 0 ensures t[i] - FD in N && Owned(N[t[i] - FD].kind) {
      assert t[i] - FD in M;
    }
  }

  lemma NotAgain(M: Chunks, s: seq<int>)
    requires OwnedBlocks(M, s) && s != [] && s[0] != 0
    ensures s[0] !in s[1..]
  {
    var t := s[1..];
    forall i | 0 <= i < |t| ensures t[i] != s[0] {
      assert t[i] == s[i + 1];
    }
  }

  /** A mapped chunk that the system does not take back is left alone. */
  lemma StepKept(L: Chunks, all: seq<int>, M: Chunks, s: seq<int>, p: int)
    requires Freeing(L, all, M, s) && OwnedBlocks(M, s) && s != [] && s[0] == p + FD != 0 && p in M && M[p].kind.Mapped?
    ensures Freeing(L, all, M, s[1..]) && OwnedBlocks(M, s[1..]) && Fewer(M, s, M, s[1..])
  {
    var t := s[1..];
    forall b {:trigger Listed(t, b)} ensures Listed(s, b) <==> Listed(t, b) || b == p {
      assert s == [s[0]] + t;
    }
    forall b {:trigger Listed(all, b)} | b in L && Owned(L[b].kind) && !Listed(all, b)
      ensures SameChunk(L, M, b) && !Listed(t, b)
    {
      assert !Listed(s, b);
    }
    Tail(M, s);
  }

  // ---- joining with the next block of the array

  lemma JoinLive(L: Chunks, S: Spans, p: int)
    requires Tiled(L, S) && p in L && L[p].kind.Live? && Next(L, p) in L && L[Next(L, p)].kind.Live?
    ensures CanJoin(L, S, p)
    ensures var n, M := Next(L, p), Join(L, p);
            && p in M && M[p].kind.Live? && M[p].size == L[p].size + L[n].size && Pin(M, p) == Pin(L, p) && !M[p].flag
            && n !in M && n != p && p > 0
            && (forall b {:trigger b in M} :: b in M && b != p ==> b in L && b != n && M[b].kind == L[b].kind)
            && (forall b {:trigger b in L} :: b in L && b != p && b != n ==> SameChunk(L, M, b)) && SameRecords(L, M)
  {
    NextAt(L, S, p);
    ChunkAt(L, S, p);
    JoinPin(L, S, p, p);
  }

  lemma JoinLiveRoles(L: Chunks, S: Spans, dv: int, dvsize: int, top: int, topsize: int, p: int)
    requires Tiled(L, S) && p in L && L[p].kind.Live? && Next(L, p) in L && L[Next(L, p)].kind.Live?
    requires Roles(L, dv, dvsize, top, topsize, {})
    ensures Roles(Join(L, p), dv, dvsize, top, topsize, {})
  {
    NextAt(L, S, p);
    assert RoleOk(L, dv, top, {}, p) && RoleOk(L, dv, top, {}, Next(L, p));
    RolesJoin(L, S, dv, dvsize, top, topsize, {}, p);
    assert {} - {p} == {};
  }

  lemma JoinLiveBooks(m: MState, L: Chunks, p: int)
    requires p in L && Next(L, p) in L && m.L == Join(L, p) && DirectOk(L, m.direct)
    requires forall b {:trigger b in m.L} :: b in m.L && b != p ==> b in L && m.L[b].kind == L[b].kind
    requires forall b {:trigger b in L} :: b in L && b != p && b != Next(L, p) ==> SameChunk(L, m.L, b)
    requires p in m.L && m.L[p].kind.Live? && Next(L, p) !in m.L
    ensures DirectOk(m.L, m.direct)
  {
    forall b {:trigger b in m.L} | b in m.L && m.L[b].kind.Mapped? ensures m.L[b].home in m.direct {
      assert b in L;
    }
  }

  /** `set_inuse` of two live chunks as one */
  method MergeNext(m: MState, p: int, newsize: int)
    requires m.Valid() && m.Booked() && p in m.L && m.L[p].kind.Live? && Next(m.L, p) in m.L
    requires m.L[Next(m.L, p)].kind.Live?
    requires newsize == m.L[p].size + m.L[Next(m.L, p)].size
    modifies m`mem, m`L, m`staleHeads, m`staleFeet
    ensures m.Valid() && m.Booked() && m.L == Join(old(m.L), p) && Quiet(old(m.mem), m.mem, m.L)
    ensures SameRecords(old(m.L), m.L)
  {
    hide Tagged, Bins, RingsStored, TriesStored, OffState, LeastOk, Join, SegsOk, DirectOk, Total, TopEnds;
    hide MState.Indexed, MState.Listed;
    JoinLive(m.L, m.S, p);
    JoinLiveRoles(m.L, m.S, m.dv, m.dvsize, m.top, m.topsize, p);
    HeadBits(m.L, m.S, p);
    HeadAt(m, p);
    var w := At(m.mem, p + HEAD);
    GhostJoin(m, p);
    assert m.staleFeet == {} && m.staleTails == {};
    PutHead(m, p, w % 2 + newsize + 2);
    JoinLiveBooks(m, old(m.L), p);
  }

  /** Two neighbours in the array become one entry. */
  lemma StepMerged(L: Chunks, all: seq<int>, M: Chunks, S: Spans, s: seq<int>, p: int)
    requires Freeing(L, all, M, s) && OwnedBlocks(M, s) && |s| >= 2 && s[0] == p + FD != 0 && Tiled(M, S)
    requires p in M && M[p].kind.Live? && Next(M, p) in M && M[Next(M, p)].kind.Live? && s[1] == Next(M, p) + FD
    ensures var t := [p + FD] + s[2..];
            Freeing(L, all, Join(M, p), t) && OwnedBlocks(Join(M, p), t) && Fewer(M, s, Join(M, p), t)
  {
    var n, N, t := Next(M, p), Join(M, p), [p + FD] + s[2..];
    JoinLive(M, S, p);
    forall b {:trigger Listed(t, b)} ensures Listed(s, b) <==> Listed(t, b) || b == n {
      assert s == [s[0], s[1]] + s[2..];
    }
    assert !Listed(t, n) by {
      MergedOnce(M, s);
    }
    forall b {:trigger Listed(all, b)} | b in L && Owned(L[b].kind) && !Listed(all, b)
      ensures SameChunk(L, N, b) && !Listed(t, b)
    {
      assert !Listed(s, b) && b in M && Listed(s, p) && Listed(s, n);
    }
    forall b {:trigger Listed(t, b)} | b in N && Owned(N[b].kind) && !Listed(t, b)
      ensures b in L && Owned(L[b].kind) && (!Listed(all, b) || N[b].kind.Mapped?)
    {
      assert !Listed(s, b) && Listed(t, p);
    }
    MergedBlocks(M, N, s, p);
  }

  lemma MergedOnce(M: Chunks, s: seq<int>)
    requires OwnedBlocks(M, s) && |s| >= 2 && s[0] != 0 && s[1] != 0
    ensures s[1] !in s[2..] && s[0] !in s[2..] && s[0] != s[1]
  {
    forall i | 0 <= i < |s[2..]| ensures s[2..][i] != s[1] && s[2..][i] != s[0] {
      assert s[2..][i] == s[i + 2];
    }
  }

  lemma MergedBlocks(M: Chunks, N: Chunks, s: seq<int>, p: int)
    requires OwnedBlocks(M, s) && |s| >= 2 && s[0] == p + FD != 0 && s[1] != 0 && p in N && N[p].kind.Live?
    requires forall b {:trigger b in M} :: b in M && b != p && b + FD != s[1] ==> SameChunk(M, N, b)
    ensures OwnedBlocks(N, [p + FD] + s[2..])
  {
    var t := [p + FD] + s[2..];
    MergedOnce(M, s);
    forall i {:trigger t[i]} | 0 <= i < |t| && t[i] != 0 ensures t[i] - FD in N && Owned(N[t[i] - FD].kind) {
      if i > 0 {
        assert t[i] == s[i + 1] && t[i] in s[2..];
      }
    }
    forall i, j {:trigger t[i], t[j]} | 0 <= i < j < |t| && t[i] != 0 ensures t[i] != t[j] {
      assert t[j] == s[j + 1];
      assert i > 0 ==> t[i] == s[i + 1];
      assert i == 0 ==> t[i] == s[0];
    }
  }

  // ---- the loop

  /** The first word behind a mapped chunk belongs to no chunk, so a mapped chunk is never joined. */
  lemma MappedNotJoined(m: MState, p: int)
    requires m.Valid() && p in m.L && m.L[p].kind.Mapped?
    ensures p + HeadSize(m.L[p]) !in m.L
  {
    var q := p + HeadSize(m.L[p]);
    ChunkAt(m.L, m.S, p);
    assert q in m.L ==> ChunkOk(m.L, m.S, q);
    assert q in m.L ==> Apart(m.L, p, q);
  }

  lemma PositiveChunks(m: MState)
    requires m.Valid()
    ensures -FD !in m.L && 0 !in m.L
  {
    assert -FD in m.L ==> ChunkOk(m.L, m.S, -FD);
    assert -FD in m.L ==> SpanOk(m.L, m.S, m.L[-FD].home);
  }

  /** What the entry `e` of a block does to mapped chunks, regions and the footprint. */
  ghost predicate EntryFreed(L: Chunks, S: Spans, footprint: int, m: MState, e: int, taken: bool)
    reads m
  {
    && MappedStep(L, m.L, e, taken) && SubSpans(S, m.S) && m.footprint == footprint - EntryBytes(L, S, e, taken)
    && (forall b {:trigger b in m.L} :: b in m.L && m.L[b].kind.Mapped? ==> b in L && L[b].kind.Mapped?)
  }

  /** The region of a mapped chunk is the span that holds it. */
  lemma RegionIs(m: MState, p: int)
    requires m.Valid() && p in m.L
    ensures m.L[p].kind.Mapped? ==> m.L[p].home in m.S && Region(m.L, p).size == m.S[m.L[p].home].size
  {
    ChunkAt(m.L, m.S, p);
  }

  lemma TopThere(m: MState, p: int)
    requires m.Valid() && p in m.L
    ensures m.top != 0
  {
  }

  /** What decides about trimming, apart from the size of the top chunk. */
  ghost predicate SameThreshold(segs: seq<Span>, trimCheck: int, releaseChecks: int, m: MState)
    reads m
  {
    m.segs == segs && m.trimCheck == trimCheck && m.releaseChecks == releaseChecks
  }

  lemma EntryKept(m: MState, e: int)
    requires MappedEntry(m.L, e)
    ensures EntryFreed(m.L, m.S, m.footprint, m, e, false)
  {
  }

  lemma EntryTaken(L: Chunks, S: Spans, footprint: int, m: MState, p: int)
    requires p in L && L[p].kind.Mapped? && L[p].home in S && Beside(L, p, m.L, 0) && 0 !in m.L && p + FD != 0
    requires m.S == S - {L[p].home} && m.footprint == footprint - S[L[p].home].size
    ensures EntryFreed(L, S, footprint, m, p + FD, true)
  {
  }

  lemma EntryLive(L: Chunks, m: MState, p: int, taken: bool)
    requires p in L && L[p].kind.Live? && Beside(L, p, m.L, 0) && 0 !in m.L
    ensures EntryFreed(L, m.S, m.footprint, m, p + FD, taken)
  {
  }

  lemma NoEntry(L: Chunks)
    ensures !MappedEntry(L, 0)
  {
  }

  /** A null entry, or one joined with the next. */
  lemma EntryPassed(L: Chunks, m: MState, e: int, taken: bool)
    requires !MappedEntry(L, e)
    requires forall b {:trigger b in L} :: b in L && L[b].kind.Mapped? ==> b in m.L && m.L[b].kind.Mapped?
    requires forall b {:trigger b in m.L} :: b in m.L && m.L[b].kind.Mapped? ==> b in L && L[b].kind.Mapped?
    ensures EntryFreed(L, m.S, m.footprint, m, e, taken)
  {
  }

  lemma JoinMapped(L: Chunks, S: Spans, p: int)
    requires Tiled(L, S) && p in L && L[p].kind.Live? && Next(L, p) in L && L[Next(L, p)].kind.Live?
    ensures var M := Join(L, p);
            && p in M && M[p].kind.Live?
            && (forall b {:trigger b in L} :: b in L && L[b].kind.Mapped? ==> b in M && M[b].kind.Mapped?)
            && (forall b {:trigger b in M} :: b in M && M[b].kind.Mapped? ==> b in L && L[b].kind.Mapped?)
  {
    JoinLive(L, S, p);
  }

  /** `dispose_chunk` of a listed chunk */
  method DisposeListed(m: MState, p: int, psize: int, mapped: bool, unmapped: bool, ghost L0: Chunks,
                       ghost all: seq<int>, ghost s: seq<int>)
    requires m.Valid() && m.Booked() && p in m.L && Owned(m.L[p].kind) && psize == HeadSize(m.L[p])
    requires mapped == m.L[p].kind.Mapped?
    requires Freeing(L0, all, m.L, s) && OwnedBlocks(m.L, s) && s != [] && s[0] == p + FD
    modifies m
    ensures m.alien == old(m.alien)
    ensures m.Valid() && m.Booked() && Freeing(L0, all, m.L, s[1..]) && OwnedBlocks(m.L, s[1..])
    ensures Quiet(old(m.mem), m.mem, m.L)
    ensures Fewer(old(m.L), s, m.L, s[1..]) && SameRecords(old(m.L), m.L)
    ensures LiveBlocks(old(m.L), s) ==> m.S == old(m.S) && LiveBlocks(m.L, s[1..])
    ensures EntryFreed(old(m.L), old(m.S), old(m.footprint), m, p + FD, unmapped)
    ensures SameThreshold(old(m.segs), old(m.trimCheck), old(m.releaseChecks), m) && m.top != 0
  {
    hide MState.Stored, Beside, SegsOk, DirectOk, Total, TopEnds, Quiet, MState.Indexed, Freeing, OwnedBlocks, Fewer;
    hide SameRecords, LiveBlocks, MState.Listed, EntryFreed, Disposed;
    PositiveChunks(m);
    LiveFirst(m.L, s, p);
    RegionIs(m, p);
    TopThere(m, p);
    if mapped {
      OwnedWords(m, p);
      var prevsize := At(m.mem, p);
      FreeMapped(m, p, psize + prevsize + MMAP_PAD, unmapped);
      if !unmapped {
        StepKept(L0, all, m.L, s, p);
        EntryKept(m, p + FD);
        return;
      }
      EntryTaken(old(m.L), old(m.S), old(m.footprint), m, p);
    } else {
      var large, grown := FreeInHeap(m, p, psize);
      LiveRest(old(m.L), s, m.L, p);
      EntryLive(old(m.L), m, p, unmapped);
    }
    StepFreed(L0, all, old(m.L), s, m.L, p);
  }

  /** A listed chunk joined with the next one of the array, which lies behind it. */
  method MergeListed(m: MState, p: int, psize: int, ghost taken: bool, ghost L0: Chunks, ghost all: seq<int>,
                     ghost s: seq<int>)
    requires m.Valid() && m.Booked() && p in m.L && Owned(m.L[p].kind) && psize == HeadSize(m.L[p])
    requires Freeing(L0, all, m.L, s) && OwnedBlocks(m.L, s) && |s| >= 2 && s[0] == p + FD != 0
    requires s[1] == p + psize + FD
    modifies m`mem, m`L, m`staleHeads, m`staleFeet
    ensures m.Valid() && m.Booked() && Quiet(old(m.mem), m.mem, m.L) && SameRecords(old(m.L), m.L)
    ensures var t := [p + FD] + s[2..];
            && Freeing(L0, all, m.L, t) && OwnedBlocks(m.L, t) && Fewer(old(m.L), s, m.L, t)
            && (LiveBlocks(old(m.L), s) ==> LiveBlocks(m.L, t))
    ensures EntryFreed(old(m.L), m.S, m.footprint, m, p + FD, taken)
    ensures !MappedEntry(old(m.L), s[1]) && !MappedEntry(m.L, p + FD)
  {
    hide Tiled, Tagged, Bins, RingsStored, TriesStored, OffState, LeastOk, Beside, SegsOk, DirectOk, Total, TopEnds;
    hide Quiet, MState.Indexed, Freeing, Join, ChunkSize, HeadSize, Roles, Fewer, SameRecords, LiveBlocks;
    hide MState.Listed, EntryFreed, OwnedBlocks, Tailed, Foreign;
    NextListed(m, s, p);
    var next := p + psize;
    OwnedWords(m, next);
    var newsize := ChunkSize(At(m.mem, next + HEAD)) + psize;
    StepMerged(L0, all, m.L, m.S, s, p);
    LiveMerged(m.L, m.S, s, p);
    JoinMapped(m.L, m.S, p);
    MergeNext(m, p, newsize);
    EntryPassed(old(m.L), m, p + FD, taken);
  }

  method Step(m: MState, a: array<int>, i: nat, unmapped: bool, ghost L0: Chunks, ghost all: seq<int>)
    requires m.Valid() && m.Booked() && i < a.Length && Freeing(L0, all, m.L, a[i..]) && OwnedBlocks(m.L, a[i..])
    modifies m, a
    ensures m.alien == old(m.alien)
    ensures m.Valid() && m.Booked() && Freeing(L0, all, m.L, a[i + 1..]) && OwnedBlocks(m.L, a[i + 1..])
    ensures Quiet(old(m.mem), m.mem, m.L)
    ensures a[i] == 0 && a[..i] == old(a[..i]) && Fewer(old(m.L), old(a[i..]), m.L, a[i + 1..])
    ensures SameRecords(old(m.L), m.L)
    ensures LiveBlocks(old(m.L), old(a[i..])) ==> m.S == old(m.S) && LiveBlocks(m.L, a[i + 1..])
    ensures EntryFreed(old(m.L), old(m.S), old(m.footprint), m, old(a[i]), unmapped)
    ensures ArrayStep(old(m.L), m.L, old(a[..]), a[..], i)
    ensures SameThreshold(old(m.segs), old(m.trimCheck), old(m.releaseChecks), m) && (m.top == 0 <==> old(m.top) == 0)
  {
    hide MState.Stored, MState.Booked, Quiet, MState.Indexed, Freeing, ChunkSize, HeadSize, Roles, Fewer, SameRecords;
    hide LiveBlocks, EntryFreed, MappedEntry, OwnedBlocks;
    ghost var s := a[i..];
    PositiveChunks(m);
    var mem := a[i];
    assert s[0] == mem && s[1..] == a[i + 1..];
    if mem != 0 {
      var p := mem - FD;
      FirstOwned(m.L, s, p);
      TopThere(m, p);
      OwnedWords(m, p);
      var w := At(m.mem, p + HEAD);
      assert OkAddress(m, p) && IsInUse(w);   // RTCHECK
      var mapped := !PInUse(w) && !CInUse(w);
      var psize := ChunkSize(w);
      a[i] := 0;
      var next := p + psize;
      if i + 1 < a.Length && a[i + 1] == next + FD {
        assert s[1] == next + FD;
        MergeListed(m, p, psize, unmapped, L0, all, s);
        a[i + 1] := p + FD;
        assert a[i + 1..] == [p + FD] + s[2..];
      } else {
        DisposeListed(m, p, psize, mapped, unmapped, L0, all, s);
        assert a[i + 1..] == s[1..];
      }
    } else {
      SkipNull(L0, all, m.L, s);
      NoEntry(m.L);
      EntryPassed(m.L, m, 0, unmapped);
      LiveTail(m.L, s);
      BesideSame(m.L, m.mem, 0);
    }
  }

  lemma FirstOwned(L: Chunks, s: seq<int>, p: int)
    requires OwnedBlocks(L, s) && s != [] && s[0] == p + FD != 0
    ensures p in L && Owned(L[p].kind)
  {
  }

  lemma LiveFirst(L: Chunks, s: seq<int>, p: int)
    requires s != [] && s[0] == p + FD != 0
    ensures LiveBlocks(L, s) ==> p in L && L[p].kind.Live?
  {
  }

  lemma LiveTail(L: Chunks, s: seq<int>)
    requires s != []
    ensures LiveBlocks(L, s) ==> LiveBlocks(L, s[1..])
  {
    if LiveBlocks(L, s) {
      forall i {:trigger s[1..][i]} | 0 <= i < |s[1..]| && s[1..][i] != 0
        ensures s[1..][i] - FD in L && L[s[1..][i] - FD].kind.Live?
      {
        assert s[1..][i] == s[i + 1];
      }
    }
  }

  lemma LiveRest(L: Chunks, s: seq<int>, M: Chunks, p: int)
    requires s != [] && s[0] == p + FD != 0 && Beside(L, p, M, 0) && OwnedBlocks(L, s)
    ensures LiveBlocks(L, s) ==> LiveBlocks(M, s[1..])
  {
    if LiveBlocks(L, s) {
      NotAgain(L, s);
      var t := s[1..];
      forall i {:trigger t[i]} | 0 <= i < |t| && t[i] != 0 ensures t[i] - FD in M && M[t[i] - FD].kind.Live? {
        assert t[i] == s[i + 1] && t[i] != s[0];
        assert t[i] - FD in L;
      }
    }
  }

  lemma LiveMerged(L: Chunks, S: Spans, s: seq<int>, p: int)
    requires |s| >= 2 && s[0] == p + FD != 0 && Tiled(L, S) && OwnedBlocks(L, s)
    requires p in L && L[p].kind.Live? && Next(L, p) in L && L[Next(L, p)].kind.Live? && s[1] == Next(L, p) + FD
    ensures LiveBlocks(L, s) ==> LiveBlocks(Join(L, p), [p + FD] + s[2..])
  {
    if LiveBlocks(L, s) {
      JoinLive(L, S, p);
      var t, M := [p + FD] + s[2..], Join(L, p);
      MergedOnce(L, s);
      forall i {:trigger t[i]} | 0 <= i < |t| && t[i] != 0 ensures t[i] - FD in M && M[t[i] - FD].kind.Live? {
        if i > 0 {
          assert t[i] == s[i + 1] && t[i] in s[2..];
          assert t[i] - FD in L;
        }
      }
    }
  }

  /** The next entry is the chunk behind `p`: both are live chunks of a segment. */
  lemma NextListed(m: MState, s: seq<int>, p: int)
    requires m.Valid() && OwnedBlocks(m.L, s) && |s| >= 2 && s[0] == p + FD != 0 && s[1] == p + HeadSize(m.L[p]) + FD
    requires p in m.L && Owned(m.L[p].kind)
    ensures m.L[p].kind.Live? && Next(m.L, p) in m.L && m.L[Next(m.L, p)].kind.Live? && HeadSize(m.L[p]) == m.L[p].size
    ensures HeadSize(m.L[Next(m.L, p)]) == m.L[Next(m.L, p)].size
  {
    ChunkAt(m.L, m.S, p);
    assert s[1] - FD in m.L;
    if m.L[p].kind.Mapped? {
      MappedNotJoined(m, p);
    } else {
      NextAt(m.L, m.S, p);
    }
  }

  lemma FreeingBeside(L: Chunks, all: seq<int>, M: Chunks, N: Chunks)
    requires Freeing(L, all, M, []) && Beside(M, 0, N, 0) && 0 !in N && 0 !in M
    ensures Freeing(L, all, N, []) && Fewer(M, [], N, [])
  {
    forall b {:trigger Listed(all, b)} | b in L && Owned(L[b].kind) && !Listed(all, b)
      ensures SameChunk(L, N, b) && !Listed([], b)
    {
      assert b in M;
    }
    forall b {:trigger Listed([], b)} | b in N && Owned(N[b].kind) && !Listed([], b)
      ensures b in L && Owned(L[b].kind) && (!Listed(all, b) || N[b].kind.Mapped?)
    {
      assert !Listed([], b) && b in M;
    }
  }

  /** The bytes of one entry, by the layout at the beginning. */
  lemma SameBytes(m: MState, L: Chunks, S: Spans, all: seq<int>, unmaps: seq<bool>, now: seq<int>, s: seq<int>, i: nat)
    requires m.Valid() && Freeing(L, all, m.L, s) && MappedDone(L, all, unmaps, m.L, now, i) && i < |all|
    requires SubSpans(S, m.S)
    ensures EntryBytes(m.L, m.S, now[i], Takes(unmaps, i)) == EntryBytes(L, S, all[i], Takes(unmaps, i))
  {
    assert all[i] == all[i] && now[i] == now[i];
    if MappedEntry(m.L, now[i]) {
      RegionIs(m, now[i] - FD);
      assert SameChunk(L, m.L, now[i] - FD);
    }
  }

  /** All listed mapped blocks are done with. */
  ghost predicate MappedFreed(L: Chunks, all: seq<int>, unmaps: seq<bool>, M: Chunks) {
    forall i {:trigger all[i]} :: 0 <= i < |all| && MappedEntry(L, all[i]) ==>
      (MappedEntry(M, all[i]) <==> !Takes(unmaps, i))
  }

  /** The loop of `internal_bulk_free`: all listed blocks are freed and the array is cleared; nothing else
      changes, and the segments stay as they are if no listed block is mapped by itself.  A listed block with a
      region of its own stays just when the system does not take it, and the footprint falls by the regions taken. */
  method FreeListed(m: MState, a: array<int>, unmaps: seq<bool>)
    requires m.Valid() && m.Booked() && OwnedBlocks(m.L, a[..])
    modifies m, a
    ensures m.alien == old(m.alien)
    ensures m.Valid() && m.Booked() && Freeing(old(m.L), old(a[..]), m.L, []) && Spared(old(m.mem), m.mem, m.L, [])
    ensures forall i :: 0 <= i < a.Length ==> a[i] == 0
    ensures SameRecords(old(m.L), m.L) && (LiveBlocks(old(m.L), old(a[..])) ==> m.S == old(m.S))
    ensures MappedFreed(old(m.L), old(a[..]), unmaps, m.L)
    ensures m.footprint == old(m.footprint) - TakenBytes(old(m.L), old(m.S), old(a[..]), unmaps, a.Length)
    ensures SameThreshold(old(m.segs), old(m.trimCheck), old(m.releaseChecks), m) && (m.top == 0 <==> old(m.top) == 0)
  {
    hide MState.Stored, Beside, SegsOk, DirectOk, Total, TopEnds, Quiet, MState.Indexed, Freeing, OwnedBlocks, Spared;
    hide Fewer, SameRecords, LiveBlocks, MState.Listed, MappedStep, ArrayStep, MappedDone, SubSpans, EntryBytes;
    ghost var L0, all, mem0 := m.L, a[..], m.mem;
    ghost var S0 := m.S;
    Begin(L0, all, mem0);
    BeginMapped(L0, S0, all, unmaps);
    BesideSame(m.L, m.mem, 0);
    var i := 0;
    assert a[0..] == all;
    while i < a.Length
      invariant 0 <= i <= a.Length && m.Valid() && m.Booked() && Freeing(L0, all, m.L, a[i..])
      invariant OwnedBlocks(m.L, a[i..])
      invariant Spared(mem0, m.mem, m.L, a[i..]) && m.alien == old(m.alien) && forall k :: 0 <= k < i ==> a[k] == 0
      invariant SameRecords(L0, m.L) && (LiveBlocks(L0, all) ==> m.S == S0 && LiveBlocks(m.L, a[i..]))
      invariant MappedDone(L0, all, unmaps, m.L, a[..], i) && SubSpans(S0, m.S)
      invariant m.footprint == old(m.footprint) - TakenBytes(L0, S0, all, unmaps, i)
      invariant SameThreshold(old(m.segs), old(m.trimCheck), old(m.releaseChecks), m)
      invariant m.top == 0 <==> old(m.top) == 0
    {
      ghost var L1, mem1, before, s, now, S1 := m.L, m.mem, a[..i], a[i..], a[..], m.S;
      SameBytes(m, L0, S0, all, unmaps, now, s, i);
      Step(m, a, i, i < |unmaps| && unmaps[i], L0, all);
      SparedOn(mem0, mem1, m.mem, L0, all, L1, s, m.L, a[i + 1..]);
      RecordsTrans(L0, L1, m.L);
      MappedOn(L0, all, unmaps, L1, now, m.L, a[..], i);
      SubTrans(S0, S1, m.S);
      forall k | 0 <= k < i ensures a[k] == 0 {
        assert a[..i][k] == before[k];
      }
      i := i + 1;
    }
    assert a[i..] == [];
    AllDone(L0, all, unmaps, m.L, a[..]);
  }

  lemma BeginMapped(L: Chunks, S: Spans, all: seq<int>, unmaps: seq<bool>)
    requires OwnedBlocks(L, all)
    ensures MappedDone(L, all, unmaps, L, all, 0) && SubSpans(S, S) && Distinct(all)
  {
  }

  lemma SubTrans(S: Spans, T: Spans, U: Spans)
    requires SubSpans(S, T) && SubSpans(T, U)
    ensures SubSpans(S, U)
  {
  }

  lemma AllDone(L: Chunks, all: seq<int>, unmaps: seq<bool>, M: Chunks, now: seq<int>)
    requires MappedDone(L, all, unmaps, M, now, |all|)
    ensures MappedFreed(L, all, unmaps, M)
  {
  }

  lemma FreedBeside(L: Chunks, all: seq<int>, unmaps: seq<bool>, M: Chunks, N: Chunks)
    requires MappedFreed(L, all, unmaps, M) && Freeing(L, all, M, []) && Freeing(L, all, N, []) && Beside(M, 0, N, 0)
    requires 0 !in M && 0 !in N
    ensures MappedFreed(L, all, unmaps, N)
  {
    forall i {:trigger all[i]} | 0 <= i < |all| && MappedEntry(L, all[i])
      ensures MappedEntry(N, all[i]) <==> !Takes(unmaps, i)
    {
      var b := all[i] - FD;
      if MappedEntry(N, all[i]) {
        assert b in M && Owned(M[b].kind);
        assert N[b].kind == M[b].kind;
      }
    }
  }

  // ---- where the top chunk begins after the loop

  /** A live block of the segment that is not listed. */
  predicate Unlisted(L: Chunks, all: seq<int>, seg: Span, b: int) {
    b in L && L[b].kind.Live? && !Listed(all, b) && seg.base <= b < seg.End()
  }

  /** The last unlisted block of the segment ends at `top`; with none, the segment begins there. */
  ghost predicate TopBelow(L: Chunks, all: seq<int>, seg: Span, top: int) {
    && (forall b {:trigger Unlisted(L, all, seg, b)} :: Unlisted(L, all, seg, b) ==> b + L[b].size <= top)
    && seg.base <= top
    && (top == seg.base
        || exists b {:trigger Unlisted(L, all, seg, b)} :: Unlisted(L, all, seg, b) && b + L[b].size == top)
  }

  /** There is one such place. */
  lemma OneTop(L: Chunks, all: seq<int>, seg: Span, x: int, y: int)
    requires TopBelow(L, all, seg, x) && TopBelow(L, all, seg, y)
    ensures x == y
  {
  }

  lemma TopIsBelow(m: MState, L: Chunks, all: seq<int>)
    requires m.Valid() && m.Booked() && m.top != 0 && Freeing(L, all, m.L, [])
    ensures m.segs != [] && m.top + m.topsize + TOP_FOOT == m.segs[0].End() && TopBelow(L, all, m.segs[0], m.top)
  {
    AddSegment.TopInFirst(m, 0);
    Growth.TopHome(m, 0);
    Growth.SegHome(m, 0, 0);
    ChunkAt(m.L, m.S, m.top);
    hide MState.Valid, MState.Booked;
    var seg := m.segs[0];
    forall b {:trigger Unlisted(L, all, seg, b)} | Unlisted(L, all, seg, b) ensures b + L[b].size <= m.top {
      StillBelow(m, L, all, b);
    }
    if m.top != seg.base {
      PrevOfTop(m, L, all);
    }
  }

  lemma StillBelow(m: MState, L: Chunks, all: seq<int>, b: int)
    requires m.Valid() && m.top in m.L && Freeing(L, all, m.L, []) && b in L && L[b].kind.Live? && !Listed(all, b)
    requires b < m.top + m.L[m.top].size
    requires m.L[m.top].kind.Top?
    ensures b + L[b].size <= m.top
  {
    assert SameChunk(L, m.L, b);
    assert Apart(m.L, b, m.top);
  }

  /** The chunk before the top chunk is a block that was not listed. */
  lemma PrevOfTop(m: MState, L: Chunks, all: seq<int>)
    requires m.Valid() && m.Booked() && m.top != 0 && Freeing(L, all, m.L, []) && m.segs != []
    requires m.top in m.L && m.L[m.top].kind.Top? && m.L[m.top].home in m.S && m.S[m.L[m.top].home] == m.segs[0]
    requires m.top != m.segs[0].base
    ensures exists b {:trigger Unlisted(L, all, m.segs[0], b)} ::
              Unlisted(L, all, m.segs[0], b) && b + L[b].size == m.top
  {
    ChunkAt(m.L, m.S, m.top);
    var b := m.top - m.L[m.top].prv;
    ChunkAt(m.L, m.S, b);
    assert !Listed([], b);
    assert b in L && !Listed(all, b);
    assert SameChunk(L, m.L, b);
    assert Unlisted(L, all, m.segs[0], b);
  }

  /** What `internal_bulk_free` does at its end, from a layout and accounts in which the blocks are free and the top
      chunk reaches down to the last block of the newest segment that was not listed. */
  ghost predicate EndOfBulk(L: Chunks, S: Spans, all: seq<int>, unmaps: seq<bool>, b: Accounts, a: Answers, m: MState,
                            M: Chunks, c: Accounts)
    reads m
  {
    && c == b.(topsize := c.topsize, footprint := b.footprint - TakenBytes(L, S, all, unmaps, |all|)) && b.segs != []
    && TopBelow(L, all, b.segs[0], b.segs[0].End() - TOP_FOOT - c.topsize)
    && Freeing(L, all, M, []) && GaveBack(M, c, false, true, a, m)
  }

  /** `internal_bulk_free`.  In between, the layout is `M` with the accounts `c`. */
  method BulkFree(m: MState, a: array<int>, unmaps: seq<bool>, answers: Answers)
    returns (ghost M: Chunks, ghost c: Accounts)
    requires m.Valid() && m.Booked() && OwnedBlocks(m.L, a[..])
    modifies m, a
    ensures m.alien == old(m.alien)
    ensures m.Valid() && m.Booked() && Freeing(old(m.L), old(a[..]), m.L, []) && Spared(old(m.mem), m.mem, m.L, [])
    ensures forall i :: 0 <= i < a.Length ==> a[i] == 0
    ensures MappedFreed(old(m.L), old(a[..]), unmaps, m.L)
    ensures old(m.top) != 0 ==>
              EndOfBulk(old(m.L), old(m.S), old(a[..]), unmaps, old(Books(m)), answers, m, M, c)
  {
    hide MState.Stored, Beside, SegsOk, DirectOk, Total, TopEnds, Quiet, MState.Indexed, Freeing, OwnedBlocks, Spared;
    hide Fewer, SameRecords, MState.Listed, MappedFreed, TakenBytes, TopBelow, TrimmedAll;
    ghost var L0, all, mem0 := m.L, a[..], m.mem;
    FreeListed(m, a, unmaps);
    M, c := m.L, Books(m);
    if m.top != 0 {
      TopIsBelow(m, L0, all);
    }
    if m.topsize > m.trimCheck {
      ghost var mem1 := m.mem;
      NullIsFree(m);
      var released := SysTrim(m, 0, answers.shrunk, answers.segments);
      NullIsFree(m);
      FreeingBeside(L0, all, M, m.L);
      FreedBeside(L0, all, unmaps, M, m.L);
      SparedOn(mem0, mem1, m.mem, L0, all, M, [], m.L, []);
    }
  }

  lemma Begin(L: Chunks, s: seq<int>, mem: Words)
    ensures Freeing(L, s, L, s) && Spared(mem, mem, L, s)
  {
  }
}
