/** `malloc_state` and the memory behind it, with one method for each kind of word the allocator
    writes. */
module MallocState {
  import opened BinMaps
  import opened Bits
  import opened Layout
  import opened Memory
  import opened Sizes
  import opened Words
  import SmallBins
  import TreeBins

  /** `struct malloc_segment`, but for its flags, which are the same for all segments. */
  datatype Seg = Seg(base: int, size: int, next: int)

  class MState {
    var mem: Words
    var smallmap: BinMap
    var treemap: BinMap
    var dv: int
    var dvsize: int
    var top: int
    var topsize: int
    var leastAddr: int
    var seg: Seg                         // the record of the newest segment
    var footprint: int
    var maxFootprint: int
    var footprintLimit: int
    var trimCheck: int
    var releaseChecks: int

    ghost var L: Chunks                  // the layout of the segments
    ghost var S: Spans                   // the segments and the regions mapped for one chunk
    ghost var segs: seq<Span>            // the list of segments, the newest first
    ghost var ids: seq<nat>              // the names of the segments, in the order of `segs`
    ghost var links: seq<int>            // the chunks of their records, but for the first
    ghost var notes: Notes               // what the records say
    ghost var direct: set<nat>           // the names of the other regions
    ghost var rings: SmallBins.Rings     // the links of the bins
    ghost var tries: TreeBins.Tries
    ghost var staleHeads: set<int>       // words not yet written since the layout changed
    ghost var staleFeet: set<int>
    ghost var staleTails: set<int>       // chunks with such words behind them
    ghost var alien: Words               // words of others, outside the heap

    /** Memory records the layout and the links, except for the words known to be stale. */
    ghost predicate Stored()
      reads `mem, `L, `S, `rings, `tries, `leastAddr, `staleHeads, `staleFeet, `staleTails, `alien, `notes
    {
      && Tiled(L, S) && OffState(S) && Bins(L, rings, tries) && LeastOk(S, leastAddr)
      && Tagged(mem, L, staleHeads, staleFeet) && RingsStored(mem, rings) && TriesStored(mem, tries)
      && Tailed(mem, L, staleTails, notes) && Foreign(mem, S, alien)
    }

    /** The chunks outside the bins, apart from `loose`, which an operation has in hand. */
    ghost predicate Cast(loose: set<int>)
      reads `L, `dv, `dvsize, `top, `topsize
    {
      Roles(L, dv, dvsize, top, topsize, loose)
    }

    /** No word is stale. */
    ghost predicate Clean()
      reads `staleHeads, `staleFeet, `staleTails
    {
      staleHeads == {} && staleFeet == {} && staleTails == {}
    }

    /** The invariant of the allocator between operations. */
    ghost predicate Valid()
      reads this
    {
      Stored() && Indexed() && Clean() && Cast({})
    }

    /** The records form the list of segments. */
    ghost predicate Listed()
      reads `seg, `segs, `ids, `links, `notes
    {
      Chained(seg, segs, ids, links, notes)
    }

    /** The list of segments is right, and so are the accounts but for `n` bytes not yet in a region. */
    ghost predicate Owing(n: int)
      reads `L, `S, `seg, `segs, `ids, `links, `notes, `direct, `top, `topsize, `footprint, `maxFootprint
    {
      && SegsOk(S, segs, ids, direct) && TopEnds(segs, top, topsize) && DirectOk(L, direct) && Listed()
      && footprint == Total(S) + n <= maxFootprint
    }

    ghost predicate Booked()
      reads `L, `S, `seg, `segs, `ids, `links, `notes, `direct, `top, `topsize, `footprint, `maxFootprint
    {
      Owing(0)
    }

    /** The static state before the first allocation: every word is zero. */
    constructor ()
      ensures Valid() && Booked() && L == map[] && S == map[] && alien == map[] && footprint == 0
    {
      hide SmallBins.Valid, TreeBins.Valid, Tiled, Tagged, Bins, RingsStored, TriesStored, Tailed, Foreign, Total;
      hide SegsOk, DirectOk, Chained;
      mem, smallmap, treemap, dv, dvsize, top, topsize, leastAddr := map[], 0, 0, 0, 0, 0, 0, 0;
      seg, footprint, maxFootprint, footprintLimit, trimCheck, releaseChecks := Seg(0, 0, 0), 0, 0, 0, 0, 0;
      L, S, segs, ids, links, notes, direct := map[], map[], [], [], [], map[], {};
      staleHeads, staleFeet, staleTails, alien := {}, {}, {}, map[];
      rings := SmallBins.Rings(map[], map[], map[], 0, 0, map[]);
      tries := TreeBins.Tries(map[], map[], map[], map[], map[], map[], map[], map[], 0, map[], map[], 0, map[]);
      new;
      EmptyIndexed(rings, tries);
      EmptyStored(rings, tries);
      EmptyBooks();
    }

    /** The bins are well-formed, and the maps index them. */
    ghost predicate Indexed()
      reads `rings, `tries, `smallmap, `treemap
    {
      && SmallBins.Valid(rings) && TreeBins.Valid(tries)
      && smallmap == rings.binmap && treemap == tries.binmap
    }
  }

  lemma EmptyIndexed(r: SmallBins.Rings, t: TreeBins.Tries)
    requires r == SmallBins.Rings(map[], map[], map[], 0, 0, map[])
    requires t == TreeBins.Tries(map[], map[], map[], map[], map[], map[], map[], map[], 0, map[], map[], 0, map[])
    ensures SmallBins.Valid(r) && TreeBins.Valid(t)
  {
    forall i: nat ensures !BitAt(0, i) {
      ZeroBits(i);
    }
    forall i {:trigger TreeBins.RootOk(t, i)} | 0 <= i < NBINS ensures TreeBins.RootOk(t, i) {
    }
  }

  lemma EmptyStored(r: SmallBins.Rings, t: TreeBins.Tries)
    requires r == SmallBins.Rings(map[], map[], map[], 0, 0, map[])
    requires t == TreeBins.Tries(map[], map[], map[], map[], map[], map[], map[], map[], 0, map[], map[], 0, map[])
    ensures Tiled(map[], map[]) && Bins(map[], r, t) && RingsStored(map[], r) && TriesStored(map[], t)
    ensures Tagged(map[], map[], {}, {}) && Tailed(map[], map[], {}, map[]) && Foreign(map[], map[], map[])
  {
  }

  lemma EmptyBooks()
    ensures SegsOk(map[], [], [], {}) && DirectOk(map[], {}) && Total(map[]) == 0
    ensures Chained(Seg(0, 0, 0), [], [], [], map[])
  {
  }

  /** `&m->seg`, in the static state behind the bins */
  const SEG: int := SmallBins.STATE + 900

  /** The address of the record of segment `k`. */
  function RecordAt(links: seq<int>, k: nat): int
    requires k < |links|
  {
    if k == 0 then SEG else links[k] + FD
  }

  /** The address of the record after that of segment `k`, or null. */
  function NextRecord(links: seq<int>, k: nat): int { if k + 1 < |links| then links[k + 1] + FD else 0 }

  predicate LinkAt(segs: seq<Span>, ids: seq<nat>, links: seq<int>, notes: Notes, k: nat)
    requires k < |segs| == |ids| == |links|
  {
    links[k] in notes && notes[links[k]] == Note(segs[k].base, segs[k].size, NextRecord(links, k), ids[k])
  }

  /** The newest segment has its record in the state, every other in a chunk at its end, and each leads to the next. */
  ghost predicate Chained(seg: Seg, segs: seq<Span>, ids: seq<nat>, links: seq<int>, notes: Notes) {
    && |segs| == |ids| == |links|
    && seg == (if segs == [] then Seg(0, 0, 0) else Seg(segs[0].base, segs[0].size, NextRecord(links, 0)))
    && (forall k {:trigger LinkAt(segs, ids, links, notes, k)} :: 0 < k < |segs| ==> LinkAt(segs, ids, links, notes, k))
    && (forall i, j {:trigger ids[i], ids[j]} :: 0 <= i < j < |ids| ==> ids[i] != ids[j])
  }

  /** The list names each segment once. */
  ghost predicate SegsOk(S: Spans, segs: seq<Span>, ids: seq<nat>, direct: set<nat>) {
    && |ids| == |segs| && (forall h {:trigger NameOk(S, ids, direct, h)} :: NameOk(S, ids, direct, h))
    && (forall i {:trigger SegAt(S, segs, ids, direct, i)} :: 0 <= i < |segs| ==> SegAt(S, segs, ids, direct, i))
    && (forall i, j {:trigger ids[i], ids[j]} :: 0 <= i < j < |ids| ==> ids[i] != ids[j])
  }

  predicate NameOk(S: Spans, ids: seq<nat>, direct: set<nat>, h: nat) {
    h in S <==> h in ids || h in direct
  }

  /** Segments come and grow in units of the granularity. */
  predicate Whole(size: nat) { size % GRANULARITY == 0 }

  lemma WholeSum(a: nat, b: nat)
    requires Whole(a) && Whole(b)
    ensures Whole(a + b) && (b <= a ==> Whole(a - b))
  {
  }

  predicate SegAt(S: Spans, segs: seq<Span>, ids: seq<nat>, direct: set<nat>, i: nat)
    requires i < |segs| == |ids|
  {
    ids[i] in S && S[ids[i]] == segs[i] && ids[i] !in direct && Whole(segs[i].size) && segs[i].lead == 0
  }

  /** The top chunk ends the newest segment. */
  predicate TopEnds(segs: seq<Span>, top: int, topsize: int) {
    if top == 0 then segs == [] else segs != [] && top + topsize + TOP_FOOT == segs[0].End()
  }

  ghost predicate DirectOk(L: Chunks, direct: set<nat>) {
    forall p {:trigger p in L} :: p in L && L[p].kind.Mapped? ==> L[p].home in direct
  }

  /** The bytes in all regions together. */
  ghost function Total(S: Spans): int {
    if S == map[] then 0 else
      var h :| h in S;
      S[h].size + Total(S - {h})
  }

  lemma {:induction false} TotalOf(S: Spans, h: nat)
    requires h in S
    ensures Total(S) == S[h].size + Total(S - {h})
    decreases |S|
  {
    var g :| g in S && Total(S) == S[g].size + Total(S - {g});
    if g != h {
      TotalOf(S - {g}, h);
      TotalOf(S - {h}, g);
      assert S - {g} - {h} == S - {h} - {g};
    }
  }

  lemma TotalPut(S: Spans, h: nat, x: Span)
    ensures Total(S[h := x]) == Total(S - {h}) + x.size
  {
    TotalOf(S[h := x], h);
    assert S[h := x] - {h} == S - {h};
  }

  /** The designated victim, the top chunk and the loose chunks are the ones the layout says. */
  predicate RoleOk(L: Chunks, dv: int, top: int, loose: set<int>, p: int)
    requires p in L
  {
    && (L[p].kind.Victim? <==> p == dv) && (L[p].kind.Top? <==> p == top) && (L[p].kind.Loose? <==> p in loose)
  }

  ghost predicate Roles(L: Chunks, dv: int, dvsize: int, top: int, topsize: int, loose: set<int>) {
    && (forall p {:trigger RoleOk(L, dv, top, loose, p)} :: p in L ==> RoleOk(L, dv, top, loose, p))
    && (if dv == 0 then dvsize == 0 else dvsize > 0 && dv in L && L[dv].size == dvsize)
    && (if top == 0 then topsize == 0 && L == map[] else top in L && L[top].size == topsize + TOP_FOOT)
    && loose <= L.Keys && 0 !in L
  }

  predicate LeastAt(S: Spans, least: int, h: nat)
    requires h in S
  {
    least <= S[h].base
  }

  /** `least_addr` is at or below every segment. */
  ghost predicate LeastOk(S: Spans, least: int) {
    forall h {:trigger LeastAt(S, least, h)} :: h in S ==> LeastAt(S, least, h)
  }

  /** `ok_address` */
  predicate OkAddress(m: MState, a: int)
    reads m
  {
    m.leastAddr <= a
  }

  /** The run-time address check never fails on a chunk. */
  lemma ChunkAddressOk(m: MState, p: int)
    requires m.Stored() && p in m.L
    ensures OkAddress(m, p)
  {
    ChunkAt(m.L, m.S, p);
    assert LeastAt(m.S, m.leastAddr, m.L[p].home);
  }

  lemma NullIsFree(m: MState)
    requires m.Valid()
    ensures 0 !in m.L
  {
  }

  lemma StoredTiled(m: MState)
    requires m.Stored()
    ensures Tiled(m.L, m.S)
  {
  }

  lemma ChunkFacts(m: MState, p: int)
    requires m.Stored() && p in m.L
    ensures p % 8 == 0 && m.L[p].size % 8 == 0 && MIN_CHUNK <= m.L[p].size && 0 < p
    ensures (m.L[p].flag ==> Owned(m.L[p].kind))
    ensures m.L[p].kind.Mapped? ==> MMAP_PAD + MIN_LARGE <= m.L[p].size
  {
    ChunkAt(m.L, m.S, p);
  }

  /** `p->head = w` */
  method PutHead(m: MState, p: int, w: int)
    requires m.Stored() && p in m.L && w == HeadWord(m.L, p)
    modifies m`mem, m`staleHeads
    ensures m.Stored() && m.staleHeads == old(m.staleHeads) - {p}
    ensures Quiet(old(m.mem), m.mem, m.L)
    ensures forall a {:trigger At(m.mem, a)} :: a != p + HEAD ==> At(m.mem, a) == At(old(m.mem), a)
  {
    ghost var mem0 := m.mem;
    ChunkAt(m.L, m.S, p);
    PokeTagged(mem0, m.L, m.S, m.staleHeads, m.staleFeet, p, HEAD, w);
    PokeRings(mem0, m.L, m.S, m.rings, m.tries, p, HEAD, w);
    PokeTries(mem0, m.L, m.S, m.rings, m.tries, p, HEAD, w);
    PokeQuiet(mem0, m.L, m.S, p, HEAD, w);
    PokeTails(mem0, m.L, m.S, m.staleTails, p, HEAD, w, m.notes);
    PokeForeign(mem0, m.L, m.S, m.alien, p, HEAD, w);
    m.mem := m.mem[p + HEAD := w];
    m.staleHeads := m.staleHeads - {p};
    assert HeadOk(m.mem, m.L, p);
  }

  /** `set_foot`: the foot of the chunk before `p` */
  method PutFoot(m: MState, p: int, w: int)
    requires m.Stored() && p in m.L && (!Pin(m.L, p) || m.L[p].kind.Mapped?) && w == m.L[p].prv
    modifies m`mem, m`staleFeet
    ensures m.Stored() && m.staleFeet == old(m.staleFeet) - {p}
    ensures Quiet(old(m.mem), m.mem, m.L)
    ensures forall a {:trigger At(m.mem, a)} :: a != p ==> At(m.mem, a) == At(old(m.mem), a)
  {
    ghost var mem0 := m.mem;
    ChunkAt(m.L, m.S, p);
    PokeTagged(mem0, m.L, m.S, m.staleHeads, m.staleFeet, p, 0, w);
    PokeRings(mem0, m.L, m.S, m.rings, m.tries, p, 0, w);
    PokeTries(mem0, m.L, m.S, m.rings, m.tries, p, 0, w);
    PokeQuiet(mem0, m.L, m.S, p, 0, w);
    PokeTails(mem0, m.L, m.S, m.staleTails, p, 0, w, m.notes);
    PokeForeign(mem0, m.L, m.S, m.alien, p, 0, w);
    m.mem := m.mem[p := w];
    m.staleFeet := m.staleFeet - {p};
    assert FootOk(m.mem, m.L, p);
  }

  /** `q->fd = v` in a small bin */
  method PutFd(m: MState, q: int, v: int)
    requires m.Stored() && (q in m.rings.held || IsHeader(q))
    modifies m`mem, m`rings
    ensures m.Stored() && m.rings == old(m.rings).(fd := old(m.rings).fd[q := v])
    ensures Quiet(old(m.mem), m.mem, m.L)
  {
    PokeFd(m.mem, m.L, m.S, m.rings, m.tries, q, v);
    PokeRingLink(m.mem, m.L, m.S, m.rings, m.tries, m.staleHeads, m.staleFeet, q, FD, v);
    PokeLinkRest(m.mem, m.L, m.S, m.rings, m.tries, m.staleTails, m.alien, q, FD, v, m.notes);
    m.mem := m.mem[q + FD := v];
    m.rings := m.rings.(fd := m.rings.fd[q := v]);
    BinsSame(m.L, old(m.rings), m.tries, m.rings, m.tries);
  }

  /** `q->bk = v` in a small bin */
  method PutBk(m: MState, q: int, v: int)
    requires m.Stored() && (q in m.rings.held || IsHeader(q))
    modifies m`mem, m`rings
    ensures m.Stored() && m.rings == old(m.rings).(bk := old(m.rings).bk[q := v])
    ensures Quiet(old(m.mem), m.mem, m.L)
  {
    PokeBk(m.mem, m.L, m.S, m.rings, m.tries, q, v);
    PokeRingLink(m.mem, m.L, m.S, m.rings, m.tries, m.staleHeads, m.staleFeet, q, BK, v);
    PokeLinkRest(m.mem, m.L, m.S, m.rings, m.tries, m.staleTails, m.alien, q, BK, v, m.notes);
    m.mem := m.mem[q + BK := v];
    m.rings := m.rings.(bk := m.rings.bk[q := v]);
    BinsSame(m.L, old(m.rings), m.tries, m.rings, m.tries);
  }

  /** A ring link touches nothing but the rings. */
  lemma PokeRingLink(mem: Words, L: Chunks, S: Spans, r: SmallBins.Rings, t: TreeBins.Tries, H: set<int>, F: set<int>,
                     q: int, k: int, v: int)
    requires Tiled(L, S) && OffState(S) && Bins(L, r, t) && Tagged(mem, L, H, F) && TriesStored(mem, t)
    requires (q in r.held || IsHeader(q)) && (k == FD || k == BK)
    ensures Tagged(mem[q + k := v], L, H, F) && TriesStored(mem[q + k := v], t) && Quiet(mem, mem[q + k := v], L)
  {
    if q in r.held {
      assert BinnedAt(L, r, t, q);
      ChunkAt(L, S, q);
      PokeTagged(mem, L, S, H, F, q, k, v);
      PokeTries(mem, L, S, r, t, q, k, v);
      PokeQuiet(mem, L, S, q, k, v);
    } else {
      PokeStateTagged(mem, L, S, H, F, q + k, v);
      PokeStateTries(mem, L, S, r, t, q + k, v);
    }
  }

  /** A link touches no word behind the last chunks and none outside the heap. */
  lemma PokeLinkRest(mem: Words, L: Chunks, S: Spans, r: SmallBins.Rings, t: TreeBins.Tries, T: set<int>, alien: Words,
                     q: int, k: int, v: int, notes: Notes)
    requires Tiled(L, S) && OffState(S) && Bins(L, r, t) && Tailed(mem, L, T, notes) && Foreign(mem, S, alien)
    requires q in r.held || q in t.held || IsHeader(q)
    requires if q in t.held then IsLink(k) else k == FD || k == BK
    ensures Tailed(mem[q + k := v], L, T, notes) && Foreign(mem[q + k := v], S, alien)
  {
    assert BinnedAt(L, r, t, q);
    if q in r.held || q in t.held {
      ChunkAt(L, S, q);
      PokeTails(mem, L, S, T, q, k, v, notes);
      PokeForeign(mem, L, S, alien, q, k, v);
    } else {
      PokeStateTails(mem, L, S, T, alien, q + k, v, notes);
    }
  }

  lemma BinsSame(L: Chunks, r: SmallBins.Rings, t: TreeBins.Tries, r': SmallBins.Rings, t': TreeBins.Tries)
    requires Bins(L, r, t) && r'.held == r.held && t'.held == t.held
    ensures Bins(L, r', t')
  {
    forall p {:trigger BinnedAt(L, r', t', p)} ensures BinnedAt(L, r', t', p) {
      assert BinnedAt(L, r, t, p);
    }
  }

  /** A word of a chunk in a tree bin: what every write of a trie link leaves alone. */
  lemma PokeTrieLink(mem: Words, L: Chunks, S: Spans, r: SmallBins.Rings, t: TreeBins.Tries, H: set<int>, F: set<int>,
                     q: int, k: int, v: int)
    requires Tiled(L, S) && OffState(S) && Bins(L, r, t) && Tagged(mem, L, H, F) && RingsStored(mem, r)
    requires q in t.held && IsLink(k)
    ensures Tagged(mem[q + k := v], L, H, F) && RingsStored(mem[q + k := v], r) && Quiet(mem, mem[q + k := v], L)
  {
    assert BinnedAt(L, r, t, q);
    PokeTagged(mem, L, S, H, F, q, k, v);
    PokeRings(mem, L, S, r, t, q, k, v);
    PokeQuiet(mem, L, S, q, k, v);
  }

  /** A link word of a chunk in a tree bin set to `v`; `u` is the view of the tries after it. */
  method PutLink(m: MState, q: int, k: int, v: int, ghost u: TreeBins.Tries)
    requires m.Stored() && q in m.tries.held && IsLink(k) && Relinked(m.tries, u, q, k, v)
    modifies m`mem, m`tries
    ensures m.Stored() && m.tries == u
    ensures Quiet(old(m.mem), m.mem, m.L)
  {
    PokeNode(m.mem, m.L, m.S, m.rings, m.tries, u, q, k, v);
    PokeTrieLink(m.mem, m.L, m.S, m.rings, m.tries, m.staleHeads, m.staleFeet, q, k, v);
    PokeLinkRest(m.mem, m.L, m.S, m.rings, m.tries, m.staleTails, m.alien, q, k, v, m.notes);
    BinsSame(m.L, m.rings, m.tries, m.rings, u);
    m.mem := m.mem[q + k := v];
    m.tries := u;
  }

  /** `*treebin_at(M, i) = v` */
  method PutRoot(m: MState, i: nat, v: int)
    requires m.Stored() && i < NBINS
    modifies m`mem, m`tries
    ensures m.Stored() && m.tries == old(m.tries).(root := old(m.tries).root[i := v])
    ensures Quiet(old(m.mem), m.mem, m.L)
  {
    var a := TreeBins.TreeBin(i);
    PokeRoot(m.mem, m.L, m.S, m.rings, m.tries, i, v);
    PokeRootRings(m.mem, m.L, m.S, m.rings, m.tries, a, v);
    PokeStateTagged(m.mem, m.L, m.S, m.staleHeads, m.staleFeet, a, v);
    PokeStateTails(m.mem, m.L, m.S, m.staleTails, m.alien, a, v, m.notes);
    m.mem := m.mem[a := v];
    m.tries := m.tries.(root := m.tries.root[i := v]);
    BinsSame(m.L, m.rings, old(m.tries), m.rings, m.tries);
  }

  /** `chunksize(p)` */
  method ReadSize(m: MState, p: int) returns (s: int)
    requires m.Stored() && p in m.L && p !in m.staleHeads
    ensures s == HeadSize(m.L[p])
  {
    s := ChunkSize(At(m.mem, p + HEAD));
    assert HeadOk(m.mem, m.L, p);
    ChunkAt(m.L, m.S, p);
  }
}
