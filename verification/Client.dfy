/** The client's side of the memory: stores inside a live chunk never touch what the allocator reads. */
module Client {
  import opened Layout
  import opened MallocState
  import opened Memory
  import opened Sizes
  import opened Words
  import SmallBins
  import TreeBins

  /** Only words of the payload of the chunk at `b` differ. */
  ghost predicate Inside(mem: Words, mem': Words, L: Chunks, b: int) {
    forall a {:trigger At(mem', a)} :: At(mem', a) != At(mem, a) ==> InPayload(L, b, a)
  }

  /** A word of a chunk that is not a payload word of `b`: its head, its first word unless the chunk before
      is `b`, anything in another chunk. */
  lemma NotPayload(L: Chunks, S: Spans, b: int, q: int, k: int)
    requires Tiled(L, S) && b in L && Owned(L[b].kind) && q in L && 0 <= k < L[q].size
    requires || k == HEAD || (k == 0 && (!Pin(L, q) || L[q].kind.Mapped?))
             || (FD <= k && q != b) || (Last(L[q].kind) && Front(L[q]) <= k)
    ensures !InPayload(L, b, q + k)
  {
    ChunkAt(L, S, b);
    ChunkAt(L, S, q);
    assert q != b ==> Apart(L, q, b);
    if !L[b].kind.Mapped? {
      NextAt(L, S, b);
      var n := Next(L, b);
      assert q != n ==> Apart(L, q, n);
    }
  }

  lemma OffPayload(L: Chunks, S: Spans, b: int, a: int)
    requires Tiled(L, S) && OffState(S) && InPayload(L, b, a)
    ensures a < SmallBins.STATE || SmallBins.STATE_END <= a
  {
    ChunkAt(L, S, b);
    if a < Next(L, b) {
      ClearOfState(L, S, b, a - b);
    } else {
      ChunkAt(L, S, Next(L, b));
      ClearOfState(L, S, Next(L, b), a - Next(L, b));
    }
  }

  lemma InsideTagged(mem: Words, mem': Words, L: Chunks, S: Spans, H: set<int>, F: set<int>, b: int)
    requires Tiled(L, S) && Tagged(mem, L, H, F) && Inside(mem, mem', L, b) && b in L && Owned(L[b].kind)
    ensures Tagged(mem', L, H, F)
  {
    forall q {:trigger HeadOk(mem', L, q)} | q in L && q !in H ensures HeadOk(mem', L, q) {
      ChunkAt(L, S, q);
      NotPayload(L, S, b, q, HEAD);
      assert HeadOk(mem, L, q);
    }
    forall q {:trigger FootOk(mem', L, q)} | q in L && q !in F ensures FootOk(mem', L, q) {
      ChunkAt(L, S, q);
      assert FootOk(mem, L, q);
      if !Pin(L, q) || L[q].kind.Mapped? {
        NotPayload(L, S, b, q, 0);
      }
    }
  }

  lemma InsideRings(mem: Words, mem': Words, L: Chunks, S: Spans, r: SmallBins.Rings, t: TreeBins.Tries, b: int)
    requires Tiled(L, S) && OffState(S) && Bins(L, r, t) && RingsStored(mem, r) && Inside(mem, mem', L, b) && b in L
    requires Owned(L[b].kind)
    ensures RingsStored(mem', r)
  {
    forall q {:trigger RingWords(mem', r, q)} | q in r.held ensures RingWords(mem', r, q) {
      assert BinnedAt(L, r, t, q);
      ChunkAt(L, S, q);
      NotPayload(L, S, b, q, FD);
      NotPayload(L, S, b, q, BK);
      assert RingWords(mem, r, q);
    }
    forall i {:trigger SmallBins.Header(i)} | 0 <= i < NBINS ensures RingWords(mem', r, SmallBins.Header(i)) {
      var q := SmallBins.Header(i);
      assert RingWords(mem, r, q);
      if InPayload(L, b, q + FD) {
        OffPayload(L, S, b, q + FD);
      }
      if InPayload(L, b, q + BK) {
        OffPayload(L, S, b, q + BK);
      }
    }
  }

  lemma InsideNode(mem: Words, mem': Words, L: Chunks, S: Spans, r: SmallBins.Rings, t: TreeBins.Tries, b: int, q: int)
    requires Tiled(L, S) && Bins(L, r, t) && Inside(mem, mem', L, b) && b in L && Owned(L[b].kind) && q in t.held
    requires NodeWords(mem, t, q)
    ensures NodeWords(mem', t, q)
  {
    assert BinnedAt(L, r, t, q);
    NotPayload(L, S, b, q, FD);
    NotPayload(L, S, b, q, BK);
    NotPayload(L, S, b, q, LEFT);
    NotPayload(L, S, b, q, RIGHT);
    NotPayload(L, S, b, q, UP);
    NotPayload(L, S, b, q, TAG);
  }

  lemma InsideTries(mem: Words, mem': Words, L: Chunks, S: Spans, r: SmallBins.Rings, t: TreeBins.Tries, b: int)
    requires Tiled(L, S) && OffState(S) && Bins(L, r, t) && TriesStored(mem, t) && Inside(mem, mem', L, b) && b in L
    requires Owned(L[b].kind)
    ensures TriesStored(mem', t)
  {
    forall q {:trigger NodeWords(mem', t, q)} | q in t.held ensures NodeWords(mem', t, q) {
      assert NodeWords(mem, t, q);
      InsideNode(mem, mem', L, S, r, t, b, q);
    }
    forall i {:trigger RootWord(mem', t, i)} | 0 <= i < NBINS ensures RootWord(mem', t, i) {
      assert RootWord(mem, t, i);
      if InPayload(L, b, TreeBins.TreeBin(i)) {
        OffPayload(L, S, b, TreeBins.TreeBin(i));
      }
    }
  }

  lemma InsideTails(mem: Words, mem': Words, L: Chunks, S: Spans, T: set<int>, b: int, notes: Notes)
    requires Tiled(L, S) && Tailed(mem, L, T, notes) && Inside(mem, mem', L, b) && b in L && Owned(L[b].kind)
    ensures Tailed(mem', L, T, notes)
  {
    forall q {:trigger TailOk(mem', L, q, notes)} | q in L && q !in T ensures TailOk(mem', L, q, notes) {
      ChunkAt(L, S, q);
      assert TailOk(mem, L, q, notes);
      if Last(L[q].kind) {
        forall a | q + Front(L[q]) <= a < q + L[q].size ensures At(mem', a) == At(mem, a) {
          NotPayload(L, S, b, q, a - q);
        }
      }
      if L[q].kind.Record? {
        forall a {:trigger FenceAt(mem', a)} | q + RECORD + HEAD <= a < q + L[q].size && a % 8 == 0
          ensures FenceAt(mem', a)
        {
          assert FenceAt(mem, a);
        }
      }
    }
  }

  lemma InsideForeign(mem: Words, mem': Words, L: Chunks, S: Spans, alien: Words, b: int)
    requires Tiled(L, S) && Foreign(mem, S, alien) && Inside(mem, mem', L, b) && b in L && Owned(L[b].kind)
    ensures Foreign(mem', S, alien)
  {
    ChunkAt(L, S, b);
    forall a {:trigger AlienOk(mem', alien, a)} | a in alien ensures AlienOk(mem', alien, a) {
      assert AlienOk(mem, alien, a) && Misses(S, L[b].home, a);
      if InPayload(L, b, a) && Next(L, b) <= a {
        NextAt(L, S, b);
      }
    }
  }

  /** Payloads do not overlap. */
  lemma PayloadsApart(L: Chunks, S: Spans, b: int, c: int, a: int)
    requires Tiled(L, S) && InPayload(L, b, a) && InPayload(L, c, a)
    ensures b == c
  {
    ChunkAt(L, S, b);
    ChunkAt(L, S, c);
    assert b != c ==> Apart(L, b, c);
  }

  /** The client's stores into one of its chunks leave the heap and every other payload alone. */
  method Store(m: MState, b: int, mem': Words)
    requires m.Valid() && b in m.L && Owned(m.L[b].kind) && Inside(m.mem, mem', m.L, b)
    modifies m`mem
    ensures m.Valid() && m.mem == mem'
    ensures forall c, a {:trigger InPayload(m.L, c, a)} :: InPayload(m.L, c, a) && c != b ==>
              At(m.mem, a) == At(old(m.mem), a)
  {
    InsideTagged(m.mem, mem', m.L, m.S, m.staleHeads, m.staleFeet, b);
    InsideRings(m.mem, mem', m.L, m.S, m.rings, m.tries, b);
    InsideTries(m.mem, mem', m.L, m.S, m.rings, m.tries, b);
    InsideTails(m.mem, mem', m.L, m.S, m.staleTails, b, m.notes);
    InsideForeign(m.mem, mem', m.L, m.S, m.alien, b);
    forall c, a {:trigger InPayload(m.L, c, a)} | InPayload(m.L, c, a) && c != b ensures At(mem', a) == At(m.mem, a) {
      if InPayload(m.L, b, a) {
        PayloadsApart(m.L, m.S, b, c, a);
      }
    }
    m.mem := mem';
  }
}
