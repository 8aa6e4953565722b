/** The order in which blocks are freed does not matter: the free chunks of a heap are the gaps between the
    chunks in use, so all ways of freeing the same blocks lead to the same layout. */
module FreeOrder {
  import opened BulkFree
  import opened Dlfree
  import opened Free
  import opened Layout
  import opened MallocState
  import opened Memory
  import opened Words

  /** The chunks in use are those of `L` outside `gone`. */
  ghost predicate Vacated(L: Chunks, M: Chunks, gone: set<int>) {
    && (forall b {:trigger b in L} :: b in L && InUse(L[b].kind) && b !in gone ==>
          b in M && M[b].kind == L[b].kind && M[b].size == L[b].size)
    && (forall b {:trigger b in M} :: b in M && InUse(M[b].kind) ==> b in L && InUse(L[b].kind) && b !in gone)
  }

  lemma VacatedOn(L: Chunks, M: Chunks, N: Chunks, x: set<int>, y: set<int>)
    requires Vacated(L, M, x) && Vacated(M, N, y)
    ensures Vacated(L, N, x + y)
  {
  }

  /** Two layouts of the same segments are equal but for the uses of free chunks. */
  ghost predicate SameLayout(L: Chunks, M: Chunks) {
    && L.Keys == M.Keys
    && forall p {:trigger p in L} :: p in L ==>
            && L[p].size == M[p].size && L[p].prv == M[p].prv && L[p].home == M[p].home
                                                && InUse(L[p].kind) == InUse(M[p].kind)
  }

  /** Two ways of freeing the same blocks. */
  lemma SameGaps(L: Chunks, M: Chunks, N: Chunks, S: Spans, gone: set<int>)
    requires Vacated(L, M, gone) && Vacated(L, N, gone) && Tiled(M, S) && Tiled(N, S)
    ensures SameLayout(M, N)
  {
    assert SameUse(M, N) by {
      forall p {:trigger p in M} | p in M && InUse(M[p].kind)
        ensures p in N && InUse(N[p].kind) && N[p].size == M[p].size
      {
        assert p in L;
      }
      forall p {:trigger p in N} | p in N && InUse(N[p].kind) ensures p in M && InUse(M[p].kind) {
        assert p in L;
      }
    }
    LayoutIsDetermined(M, N, S);
  }

  /** Blocks freed one after the other, the segments staying as they are: `run[i + 1]` is the layout after
      the chunk `ps[i]` has been freed. */
  ghost predicate FreeRun(run: seq<Chunks>, S: Spans, ps: seq<int>) {
    && |run| == |ps| + 1 && (forall i {:trigger run[i]} :: 0 <= i < |run| ==> Tiled(run[i], S))
    && (forall i {:trigger ps[i]} :: 0 <= i < |ps| ==> Vacated(run[i], run[i + 1], {ps[i]}))
  }

  function Elements(ps: seq<int>): set<int> { set i | 0 <= i < |ps| :: ps[i] }

  lemma {:induction false} RunVacates(run: seq<Chunks>, S: Spans, ps: seq<int>, n: nat)
    requires FreeRun(run, S, ps) && n <= |ps|
    ensures Vacated(run[0], run[n], Elements(ps[..n]))
  {
    if n == 0 {
      assert ps[..0] == [];
    } else {
      RunVacates(run, S, ps, n - 1);
      assert ps[n - 1] == ps[n - 1];
      VacatedOn(run[0], run[n - 1], run[n], Elements(ps[..n - 1]), {ps[n - 1]});
      assert Elements(ps[..n]) == Elements(ps[..n - 1]) + {ps[n - 1]} by {
        forall x ensures x in Elements(ps[..n]) <==> x in Elements(ps[..n - 1]) + {ps[n - 1]} {
          if x in Elements(ps[..n]) {
            var i :| 0 <= i < n && ps[..n][i] == x;
            assert i < n - 1 ==> ps[..n - 1][i] == x;
          }
          if x in Elements(ps[..n - 1]) {
            var i :| 0 <= i < n - 1 && ps[..n - 1][i] == x;
            assert ps[..n][i] == x;
          }
          assert ps[..n][n - 1] == ps[n - 1];
        }
      }
    }
  }

  /** Every order of frees of the same blocks ends in the same layout. */
  lemma OrderDoesNotMatter(run: seq<Chunks>, ps: seq<int>, run': seq<Chunks>, qs: seq<int>, S: Spans)
    requires FreeRun(run, S, ps) && FreeRun(run', S, qs) && run[0] == run'[0] && Elements(ps) == Elements(qs)
    ensures SameLayout(run[|ps|], run'[|qs|])
  {
    RunVacates(run, S, ps, |ps|);
    RunVacates(run', S, qs, |qs|);
    assert ps[..|ps|] == ps && qs[..|qs|] == qs;
    assert Tiled(run[|ps|], S) && Tiled(run'[|qs|], S);
    SameGaps(run[0], run[|ps|], run'[|qs|], S, Elements(ps));
  }

  lemma RemovedVacates(L: Chunks, M: Chunks, p: int)
    requires Removed(L, M, p) && SameRecords(L, M) && 0 !in L && 0 !in M && p in L && Owned(L[p].kind)
    ensures Vacated(L, M, {p})
  {
  }

  /** `dlfree` without trimming is one step of such a run. */
  method FreeStep(m: MState, p: int)
    requires m.Valid() && m.Booked() && p in m.L && m.L[p].kind.Live?
    modifies m`mem, m`smallmap, m`treemap, m`L, m`rings, m`tries, m`staleHeads, m`staleFeet, m`dv, m`dvsize, m`top
    modifies m`topsize
    ensures m.Valid() && m.Booked() && Vacated(old(m.L), m.L, {p}) && FreeRun([old(m.L), m.L], m.S, [p])
  {
    hide MState.Indexed, MState.Booked, Beside, SameRecords, Quiet, Vacated, Tagged, Bins, RingsStored, TriesStored;
    hide Tailed, Foreign, Disposed;
    OwnedWords(m, p);
    ghost var L0 := m.L;
    var large, grown := FreeInHeap(m, p, ChunkSize(At(m.mem, p + HEAD)));
    RemovedVacates(L0, m.L, p);
  }

  /** The chunks of the listed blocks. */
  ghost function ListedChunks(s: seq<int>): set<int> { set i | 0 <= i < |s| && s[i] != 0 :: s[i] - FD }

  lemma FreeingVacates(L: Chunks, all: seq<int>, M: Chunks)
    requires Freeing(L, all, M, []) && SameRecords(L, M) && OwnedBlocks(L, all) && LiveBlocks(L, all) && -FD !in L
    ensures Vacated(L, M, ListedChunks(all))
  {
    forall b | b in L ensures b in ListedChunks(all) <==> Listed(all, b) {
      if Listed(all, b) {
        var i :| 0 <= i < |all| && all[i] == b + FD;
        assert all[i] - FD in ListedChunks(all);
      }
    }
    forall b {:trigger b in L} | b in L && InUse(L[b].kind) && b !in ListedChunks(all)
      ensures b in M && M[b].kind == L[b].kind && M[b].size == L[b].size
    {
      assert !Listed(all, b);
    }
    forall b {:trigger b in M} | b in M && InUse(M[b].kind)
      ensures b in L && InUse(L[b].kind) && b !in ListedChunks(all)
    {
      assert !Listed([], b);
    }
  }

  /** `bulk_free` without trimming, its merging of neighbours included, ends in the same layout as freeing the
      blocks one by one, in any order. */
  method BulkAsOneByOne(m: MState, a: array<int>, unmaps: seq<bool>, ghost run: seq<Chunks>, ghost ps: seq<int>)
    requires m.Valid() && m.Booked() && OwnedBlocks(m.L, a[..]) && LiveBlocks(m.L, a[..])
    requires FreeRun(run, m.S, ps) && run[0] == m.L && Elements(ps) == ListedChunks(a[..])
    modifies m, a
    ensures m.Valid() && m.Booked() && m.S == old(m.S) && SameLayout(m.L, run[|ps|])
  {
    hide MState.Indexed, MState.Booked, Freeing, OwnedBlocks, SameRecords, Spared, Vacated, LiveBlocks, ListedChunks;
    hide Tagged, Bins, RingsStored, TriesStored, Tailed, Foreign;
    ghost var L0, all := m.L, a[..];
    PositiveChunks(m);
    FreeListed(m, a, unmaps);
    FreeingVacates(L0, all, m.L);
    RunVacates(run, m.S, ps, |ps|);
    assert ps[..|ps|] == ps;
    assert Tiled(run[|ps|], m.S);
    SameGaps(L0, m.L, run[|ps|], m.S, Elements(ps));
  }
}
