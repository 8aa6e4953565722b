/** The walks over the bins in the consistency checks, through the link words in memory: `bin_find`,
    `do_check_smallbin` and `do_check_treebin`. */
module BinWalks {
  import opened BinMaps
  import opened Bits
  import opened Checks
  import opened Free
  import opened Layout
  import opened MallocState
  import opened Memory
  import opened Sizes
  import opened TreeOps
  import opened TreeSearch
  import opened Words
  import BinOps
  import SB = SmallBins
  import TB = TreeBins

  // ---- bin_find in a small bin

  /** The chunks of small bin `i`. */
  ghost predicate InSmall(r: SB.Rings, i: nat, p: int) { p in r.held && r.held[p].size == 8 * i }

  lemma HeaderWords(m: MState, i: nat)
    requires m.Valid() && i < NBINS
    ensures RingWords(m.mem, m.rings, SB.Header(i)) && SB.HeaderOk(m.rings, i) && SB.Header(i) !in m.rings.held
    ensures m.smallmap == m.rings.binmap
  {
    var h := SB.Header(i);
    assert h in m.rings.held ==> SB.EntryOk(m.rings, h);
  }

  lemma EntryWords(m: MState, p: int)
    requires m.Valid() && p in m.rings.held
    ensures RingWords(m.mem, m.rings, p) && SB.EntryOk(m.rings, p) && p in m.L && m.L[p].kind.Binned?
    ensures m.L[p].size == m.rings.held[p].size && SB.Valid(m.rings)
  {
    BinOps.NeighbourChecks(m, p);
  }

  /** On the way from the header to `x`, if `x` is there. */
  ghost predicate Towards(r: SB.Rings, i: nat, x: int, p: int) {
    && (p == SB.Header(i) || InSmall(r, i, p))
    && (InSmall(r, i, x) && p in r.held ==> p == x || r.held[x].stamp < r.held[p].stamp)
  }

  lemma TowardsNext(m: MState, i: nat, x: int, p: int)
    requires m.Valid() && i < NBINS && BitAt(m.rings.binmap, i) && Towards(m.rings, i, x, p) && p != x
    ensures var n := At(m.mem, p + FD);
            Towards(m.rings, i, x, n) && (n == SB.Header(i) ==> !InSmall(m.rings, i, x))
    ensures var n := At(m.mem, p + FD);
            n in m.rings.held && p in m.rings.held ==> m.rings.held[n].stamp < m.rings.held[p].stamp
  {
    HeaderWords(m, i);
    if InSmall(m.rings, i, x) {
      EntryWords(m, x);
      SB.FirstIsYoungest(m.rings, x);
    }
    if p in m.rings.held {
      EntryWords(m, p);
      if InSmall(m.rings, i, x) {
        SB.NoneSkipped(m.rings, p, x);
      }
    }
  }

  /** `bin_find` for a small size */
  method FindSmall(m: MState, x: int, size: nat) returns (found: bool)
    requires m.Valid() && size < MIN_LARGE && size % 8 == 0 && !InState(x)
    ensures found <==> x in m.rings.held && m.rings.held[x].size == size
  {
    hide MState.Valid;
    var i := SmallIndex(size);
    var b := SB.Header(i);
    HeaderWords(m, i);
    MarkedIsBit(m.smallmap, i);
    NoBitNoChunk(m, i, x);
    if Marked(m.smallmap, i) {
      var p := b;
      while true
        invariant Towards(m.rings, i, x, p)
        decreases if p == b then m.rings.clock + 1 else if p in m.rings.held then m.rings.held[p].stamp else 0
      {
        if p == x {
          return true;
        }
        TowardsNext(m, i, x, p);
        p := At(m.mem, p + FD);
        if p == b {
          return false;
        }
        EntryWords(m, p);
      }
    }
    found := false;
  }

  /** An address in the static state. */
  predicate InState(x: int) { SB.STATE <= x < SB.STATE_END }

  lemma NoBitNoChunk(m: MState, i: nat, x: int)
    requires m.Valid() && i < NBINS
    ensures InSmall(m.rings, i, x) ==> BitAt(m.rings.binmap, i)
  {
    if InSmall(m.rings, i, x) {
      EntryWords(m, x);
    }
  }

  // ---- bin_find in a tree bin

  /** The first chunk after the node on a ring is the youngest. */
  lemma {:induction false} RingFirst(t: TB.Tries, p: int)
    requires TB.RingsOk(t) && p in t.held && t.held[p].size in t.node && p != t.node[t.held[p].size]
    ensures var h := t.node[t.held[p].size]; var f := At(t.fd, h);
            f in t.held && f != h && t.held[f].size == t.held[p].size && (f == p || t.held[p].stamp < t.held[f].stamp)
    decreases t.clock - t.held[p].stamp
  {
    assert TB.RingOk(t, p);
    var h, b := t.node[t.held[p].size], At(t.bk, p);
    if b != h {
      assert TB.RingOk(t, b);
      RingFirst(t, b);
    }
  }

  /** Along a ring, up to the node again, every chunk comes after the younger ones. */
  lemma {:induction false} RingNext(t: TB.Tries, p: int, x: int)
    requires TB.RingsOk(t) && p in t.held && x in t.held && t.held[p].size == t.held[x].size && t.held[p].size in t.node
    requires var h := t.node[t.held[p].size]; p != h && x != h
    requires t.held[x].stamp < t.held[p].stamp
    ensures var n := At(t.fd, p);
            n in t.held && n != t.node[t.held[p].size] && (n == x || t.held[x].stamp < t.held[n].stamp)
    decreases t.clock - t.held[x].stamp
  {
    assert TB.RingOk(t, p) && TB.RingOk(t, x);
    var h, b := t.node[t.held[p].size], At(t.bk, x);
    if b == h {
      RingFirst(t, p);
    } else if b != p {
      assert TB.RingOk(t, b);
      if t.held[b].stamp < t.held[p].stamp {
        RingNext(t, p, b);
      } else {
        RingNext(t, b, p);
      }
    }
  }

  /** The chunks of one size in the tree bins. */
  ghost predicate OfSize(t: TB.Tries, size: nat, p: int) { p in t.held && t.held[p].size == size }

  lemma TreeFacts(m: MState)
    requires m.Valid()
    ensures TB.Valid(m.tries) && m.treemap == m.tries.binmap && m.Stored() && m.Clean() && Embedded(m, m.tries)
  {
    EmbedSelf(m);
  }

  lemma NodeOf(m: MState, p: int)
    requires m.Valid() && p in m.tries.held
    ensures TB.RingOk(m.tries, p) && TB.FitOk(m.tries, p) && NodeWords(m.mem, m.tries, p)
    ensures p in m.L && m.L[p].kind.Binned? && m.L[p].size == m.tries.held[p].size
  {
    TreeFacts(m);
    ReadNode(m, m.tries, p);
    assert TB.RingOk(m.tries, p) && TB.FitOk(m.tries, p);
  }

  /** Where a bin starts: at its root, or nowhere if it is empty. */
  lemma StartsAt(m: MState, size: nat)
    requires m.Valid() && TB.SizeOk(size)
    ensures var i, T := TreeIndex(size), m.tries;
            && i < NBINS && (BitAt(T.binmap, i) <==> TB.RootKey(i) in T.slot) && TopBit(i) <= 63
            && (BitAt(T.binmap, i) ==>
                    At(m.mem, TB.TreeBin(i)) == T.slot[TB.RootKey(i)] && Walking(T, size, TB.RootKey(i)))
            && (!BitAt(T.binmap, i) ==> size !in T.node)
  {
    var T := m.tries;
    TreeFacts(m);
    TB.FitsRoot(size);
    var i := TreeIndex(size);
    assert TB.RootOk(T, i) && RootWord(m.mem, T, i);
    if size in T.node {
      assert TB.SizeHeld(T, size);
      var p := T.node[size];
      assert TB.RingOk(T, p) && TB.FitOk(T, p);
      RootCovers(T, p);
    }
    if BitAt(T.binmap, i) {
      WalkStart(T, size);
    }
  }

  /** One step down the trie. */
  lemma StepDown(m: MState, size: nat, k: TB.Key)
    requires m.Valid() && Walking(m.tries, size, k) && m.tries.slot[k] in m.tries.held
    requires m.tries.held[m.tries.slot[k]].size != size && k.lvl <= 63
    ensures k.lvl >= 0
    ensures var T := m.tries; var c := Shl(size, 63 - k.lvl) / 0x8000_0000_0000_0000; var d := TB.ChildKey(k, c);
            && c == Side(size, k.lvl)
            && (ChildWord(m.mem, T.slot[k], c) == 0 ==> size !in T.node)
            && (ChildWord(m.mem, T.slot[k], c) != 0 ==>
                    d in T.slot && T.slot[d] == ChildWord(m.mem, T.slot[k], c) && Walking(T, size, d))
  {
    TreeFacts(m);
    WalkStep(m.tries, size, k);
    SideBit(size, k.lvl);
    ReadChild(m, m.tries, k, Side(size, k.lvl));
  }

  lemma NodeAt(m: MState, k: TB.Key)
    requires m.Valid() && k in m.tries.slot
    ensures m.tries.slot[k] in m.tries.held && m.tries.slot[k] != 0
  {
    assert TB.KeyOk(m.tries, k);
    NodeOf(m, m.tries.slot[k]);
  }

  lemma RootLevel(i: nat)
    ensures TB.RootKey(i).lvl == TopBit(i)
  {
  }

  /** The walk of `bin_find` to the node of a size */
  method FindNode(m: MState, size: nat) returns (t: int)
    requires m.Valid() && TB.SizeOk(size) && BitAt(m.treemap, TreeIndex(size))
    ensures t == 0 ==> size !in m.tries.node
    ensures t != 0 ==> size in m.tries.node && m.tries.node[size] == t && OfSize(m.tries, size, t)
  {
    hide MState.Valid, MState.Stored, TB.Valid, Embedded, Walking, TB.TreeBin, TB.RootKey, TB.RingOk, TB.FitOk;
    TreeFacts(m);
    StartsAt(m, size);
    var i := TreeIndex(size);
    ghost var k := TB.RootKey(i);
    RootLevel(i);
    NodeAt(m, k);
    t := At(m.mem, TB.TreeBin(i));
    var sizebits := Shl(size, 63 - TopBit(i));
    while t != 0
      invariant t == 0 ==> size !in m.tries.node
      invariant t != 0 ==> Walking(m.tries, size, k) && k in m.tries.slot && m.tries.slot[k] == t
      invariant t != 0 ==> sizebits == Shl(size, 63 - k.lvl) && k.lvl <= 63
      decreases if t == 0 then -2 else k.lvl
    {
      NodeAt(m, k);
      NodeOf(m, t);
      var s := ReadSize(m, t);
      if s == size {
        WalkFound(m.tries, size, k);
        return;
      }
      StepDown(m, size, k);
      var c := sizebits / 0x8000_0000_0000_0000;
      t := ChildWord(m.mem, t, c);
      k := TB.ChildKey(k, c);
      sizebits := (2 * sizebits) % SPACE;
    }
  }

  /** On the way round the ring to `x`, if `x` is there and not yet met. */
  ghost predicate Rounding(t: TB.Tries, size: nat, x: int, u: int) {
    && OfSize(t, size, u) && size in t.node
    && (OfSize(t, size, x) && x != t.node[size] && u != t.node[size] ==> u == x || t.held[x].stamp < t.held[u].stamp)
  }

  lemma RoundNext(m: MState, size: nat, x: int, u: int)
    requires m.Valid() && Rounding(m.tries, size, x, u) && u != x
    ensures var n := At(m.mem, u + FD);
            && Rounding(m.tries, size, x, n)
            && (n == m.tries.node[size] ==> !(OfSize(m.tries, size, x) && x != m.tries.node[size]))
            && (n != m.tries.node[size] && u != m.tries.node[size] ==>
                    m.tries.held[n].stamp < m.tries.held[u].stamp)
  {
    var t := m.tries;
    NodeOf(m, u);
    TreeFacts(m);
    if OfSize(t, size, x) && x != t.node[size] {
      NodeOf(m, x);
      if u == t.node[size] {
        RingFirst(t, x);
      } else {
        RingNext(t, u, x);
      }
    }
  }

  /** The walk of `bin_find` round the ring of a node */
  method RoundRing(m: MState, t: int, x: int, ghost size: nat) returns (found: bool)
    requires m.Valid() && size in m.tries.node && m.tries.node[size] == t && OfSize(m.tries, size, t)
    ensures found <==> x in m.tries.held && m.tries.held[x].size == size
  {
    hide MState.Valid, Rounding;
    var u := t;
    RoundStart(m, size, x);
    while true
      invariant Rounding(m.tries, size, x, u) && OfSize(m.tries, size, u) && m.tries.held[u].stamp < m.tries.clock
      invariant u != t ==> x != t
      decreases if u == t then m.tries.clock else m.tries.held[u].stamp
    {
      if u == x {
        return true;
      }
      RoundNext(m, size, x, u);
      u := At(m.mem, u + FD);
      if u == t {
        return false;
      }
      RoundAt(m, size, x, u);
    }
  }

  /** `bin_find` for a large size */
  method FindLarge(m: MState, x: int, size: nat) returns (found: bool)
    requires m.Valid() && TB.SizeOk(size)
    ensures found <==> x in m.tries.held && m.tries.held[x].size == size
  {
    hide MState.Valid, MState.Stored, TB.Valid, Embedded, Walking, TB.TreeBin;
    var i := TreeIndex(size);
    StartsAt(m, size);
    TreeFacts(m);
    MarkedIsBit(m.treemap, i);
    NodeOfSize(m, x, size);
    if Marked(m.treemap, i) {
      var t := FindNode(m, size);
      if t != 0 {
        found := RoundRing(m, t, x, size);
        return;
      }
    }
    found := false;
  }

  lemma NodeOfSize(m: MState, x: int, size: nat)
    requires m.Valid()
    ensures OfSize(m.tries, size, x) ==> size in m.tries.node
  {
    if OfSize(m.tries, size, x) {
      NodeOf(m, x);
    }
  }

  lemma RoundStart(m: MState, size: nat, x: int)
    requires m.Valid() && size in m.tries.node && OfSize(m.tries, size, m.tries.node[size])
    ensures Rounding(m.tries, size, x, m.tries.node[size])
    ensures m.tries.held[m.tries.node[size]].stamp < m.tries.clock
  {
    NodeOf(m, m.tries.node[size]);
  }

  lemma RoundAt(m: MState, size: nat, x: int, u: int)
    requires m.Valid() && Rounding(m.tries, size, x, u)
    ensures OfSize(m.tries, size, u) && m.tries.held[u].stamp < m.tries.clock
  {
    NodeOf(m, u);
  }

  // ---- bin_find

  /** `bin_find`: the walk finds a chunk just when it is in a bin. */
  method BinFind(m: MState, x: int) returns (found: bool)
    requires m.Valid() && x in m.L && !m.L[x].kind.Mapped?
    ensures found <==> x in m.rings.held || x in m.tries.held
  {
    SizeOfChunk(m, x);
    var size := ReadSize(m, x);
    hide MState.Valid;
    if IsSmall(size) {
      found := FindSmall(m, x, size);
    } else {
      found := FindLarge(m, x, size);
    }
  }

  lemma SizeOfChunk(m: MState, x: int)
    requires m.Valid() && x in m.L && !m.L[x].kind.Mapped?
    ensures var s := HeadSize(m.L[x]); 0 <= s < SPACE && s % 8 == 0 && !InState(x)
    ensures x in m.rings.held ==> m.rings.held[x].size == HeadSize(m.L[x]) && IsSmall(m.rings.held[x].size)
    ensures x in m.tries.held ==> m.tries.held[x].size == HeadSize(m.L[x]) >= MIN_LARGE
  {
    ChunkAt(m.L, m.S, x);
    assert BinnedAt(m.L, m.rings, m.tries, x);
    if x in m.rings.held {
      EntryWords(m, x);
    }
    OffTheState(m, x);
  }

  lemma OffTheState(m: MState, x: int)
    requires m.Valid() && x in m.L
    ensures !InState(x)
  {
    ChunkAt(m.L, m.S, x);
    assert SpanClear(m.S, m.L[x].home);
  }

  // ---- do_check_smallbin

  /** The walk from the oldest chunk has met exactly the chunks older than `p`. */
  ghost predicate Backing(r: SB.Rings, i: nat, p: int, seen: set<int>) {
    && (p == SB.Header(i) || InSmall(r, i, p))
    && forall x {:trigger x in seen} ::
         x in seen <==> InSmall(r, i, x) && (p in r.held ==> r.held[x].stamp < r.held[p].stamp)
  }

  lemma BackStart(m: MState, i: nat)
    requires m.Valid() && i < NBINS && BitAt(m.rings.binmap, i)
    ensures var p := At(m.mem, SB.Header(i) + BK); p != SB.Header(i) && Backing(m.rings, i, p, {})
  {
    HeaderWords(m, i);
    forall x | InSmall(m.rings, i, x)
      ensures m.rings.held[At(m.rings.bk, SB.Header(i))].stamp <= m.rings.held[x].stamp
    {
      EntryWords(m, x);
      SB.LastIsOldest(m.rings, x);
    }
  }

  lemma BackStep(m: MState, i: nat, p: int, seen: set<int>)
    requires m.Valid() && i < NBINS && Backing(m.rings, i, p, seen) && p != SB.Header(i)
    ensures var n := At(m.mem, p + BK);
            && Backing(m.rings, i, n, seen + {p}) && (n != SB.Header(i) ==> InSmall(m.rings, i, n))
            && (n in m.rings.held ==> m.rings.held[p].stamp < m.rings.held[n].stamp < m.rings.clock)
  {
    var r := m.rings;
    EntryWords(m, p);
    HeaderWords(m, i);
    var n := At(r.bk, p);
    if n in r.held {
      EntryWords(m, n);
    }
    forall x {:trigger x in seen + {p}}
      ensures x in seen + {p} <==> InSmall(r, i, x) && (n in r.held ==> r.held[x].stamp < r.held[n].stamp)
    {
      if InSmall(r, i, x) {
        EntryWords(m, x);
        SB.FirstIsYoungest(r, x);
        if n in r.held && r.held[x].stamp < r.held[n].stamp {
          SB.NoneSkipped(r, n, x);
        }
      }
    }
  }

  /** `do_check_free_chunk` with the links, and the neighbour in use */
  lemma CheckedFree(m: MState, p: int)
    requires m.Valid() && p in m.L && m.L[p].kind.Binned?
    ensures var w := At(m.mem, p + HEAD); var q := p + ChunkSize(w);
            && (p + FD) % 8 == 0 && OkAddress(m, p) && ChunkSize(w) == m.L[p].size && !IsInUse(w)
            && At(m.mem, At(m.mem, p + FD) + BK) == p && At(m.mem, At(m.mem, p + BK) + FD) == p
            && q in m.L && InUse(m.L[q].kind) && !PInUse(At(m.mem, q + HEAD))
  {
    AnyChunk(m, p);
    FreeChunk(m, p);
    BinLinks(m, p);
    NextAt(m.L, m.S, p);
    Traversed(m, p);
  }

  /** `do_check_smallbin`: every check on the way holds, and the walk meets all chunks of the bin. */
  method CheckSmallBin(m: MState, i: nat) returns (ghost seen: set<int>)
    requires m.Valid() && i < NBINS
    ensures forall p {:trigger p in seen} :: p in seen <==> InSmall(m.rings, i, p)
  {
    hide MState.Valid, ChunkSize, PInUse, IsInUse, InUse, OkAddress;
    var b := SB.Header(i);
    HeaderWords(m, i);
    MarkedIsBit(m.smallmap, i);
    var p := At(m.mem, b + BK);
    var empty := !Marked(m.smallmap, i);
    seen := {};
    if empty {
      forall x ensures !InSmall(m.rings, i, x) {
        NoBitNoChunk(m, i, x);
      }
    } else {
      BackStart(m, i);
      assert p != b;
      while p != b
        invariant Backing(m.rings, i, p, seen)
        decreases if p in m.rings.held then m.rings.clock - m.rings.held[p].stamp else 0
      {
        EntryWords(m, p);
        CheckedFree(m, p);
        var size := ChunkSize(At(m.mem, p + HEAD));
        assert SmallIndex(size) == i;
        var n := At(m.mem, p + BK);
        BackStep(m, i, p, seen);
        if n != b {
          EntryWords(m, n);
          CheckedFree(m, n);
        }
        assert n == b || ChunkSize(At(m.mem, n + HEAD)) == size;
        if At(m.mem, p + size + HEAD) != FENCEPOST {
          InUseChunk(m, p + size);
        }
        seen := seen + {p};
        p := n;
      }
    }
  }

  // ---- do_check_tree

  /** The chunk belongs to the subtrie at `k`: the node of its size is there. */
  ghost predicate InTrie(t: TB.Tries, k: TB.Key, p: int) {
    p in t.held && t.held[p].size in t.node && InSub(t, t.node[t.held[p].size], k)
  }

  /** In the subtrie at a child of `k`. */
  ghost predicate InChild(t: TB.Tries, k: TB.Key, c: nat, p: int) {
    TB.ChildKey(k, c) in t.slot && InTrie(t, TB.ChildKey(k, c), p)
  }

  lemma BelowParent(d: TB.Key, k: TB.Key, c: nat)
    requires Below(d, TB.ChildKey(k, c)) && c <= 1
    ensures Below(d, k)
  {
    ShrShr(d.prefix, k.lvl - 1 - d.lvl, 1);
    assert Shr(2 * k.prefix + c, 1) == k.prefix;
  }

  /** A subtrie is its node, with the ring of its size, and the subtries at its children. */
  lemma TrieParts(m: MState, k: TB.Key, p: int)
    requires m.Valid() && k in m.tries.slot
    ensures m.tries.slot[k] in m.tries.held
    ensures var t := m.tries;
            InTrie(t, k, p) <==> OfSize(t, t.held[t.slot[k]].size, p) || InChild(t, k, 0, p) || InChild(t, k, 1, p)
  {
    var t := m.tries;
    TreeFacts(m);
    NodeAt(m, k);
    var x := t.slot[k];
    assert TB.KeyOk(t, k);
    NodeOf(m, x);
    if p in t.held {
      NodeOf(m, p);
      var h := t.node[t.held[p].size];
      if InTrie(t, k, p) && h != x {
        var c := ChildCovers(t, h, k);
        assert InChild(t, k, c, p);
      }
      if InChild(t, k, 0, p) {
        BelowParent(t.held[h].key, k, 0);
      }
      if InChild(t, k, 1, p) {
        BelowParent(t.held[h].key, k, 1);
      }
      if OfSize(t, t.held[x].size, p) {
        assert t.node[t.held[x].size] == x;
      }
    }
  }

  /** What a node knows of its parent. */
  lemma ParentChecks(m: MState, k: TB.Key)
    requires m.Valid() && k in m.tries.slot
    ensures var u := m.tries.slot[k]; var up := At(m.mem, u + UP);
            && up != 0 && up != u
            && (ChildWord(m.mem, up, 0) == u || ChildWord(m.mem, up, 1) == u || At(m.mem, up) == u)
  {
    var t := m.tries;
    TreeFacts(m);
    NodeAt(m, k);
    assert TB.KeyOk(t, k);
    var u := t.slot[k];
    NodeOf(m, u);
    assert TB.NodeOk(t, u);
    if TB.IsRoot(k) {
      assert TB.RootOk(t, k.bin) && RootWord(m.mem, t, k.bin);
    } else {
      var d := TB.ParentKey(k);
      NodeAt(m, d);
      ReadChild(m, t, d, k.prefix % 2);
      assert TB.ChildKey(d, k.prefix % 2) == k;
    }
  }

  /** What a node knows of its children. */
  lemma ChildChecks(m: MState, k: TB.Key, c: nat)
    requires m.Valid() && k in m.tries.slot && c <= 1
    ensures var u := m.tries.slot[k]; var v := ChildWord(m.mem, u, c); var d := TB.ChildKey(k, c);
            && (v != 0 <==> d in m.tries.slot)
            && (v != 0 ==> v == m.tries.slot[d] && v in m.tries.held && At(m.mem, v + UP) == u && v != u && k.lvl >= 0
                           && Lo(d) <= m.tries.held[v].size < Hi(d))
  {
    var t := m.tries;
    TreeFacts(m);
    ReadChild(m, t, k, c);
    var d := TB.ChildKey(k, c);
    if d in t.slot {
      NodeAt(m, d);
      assert TB.KeyOk(t, d) && TB.KeyOk(t, k);
      var v := t.slot[d];
      NodeOf(m, v);
      assert TB.NodeOk(t, v) && TB.ParentKey(d) == k;
      SubBetween(t, v, d);
    }
  }

  /** A chunk of a ring other than its node has no links into the trie. */
  lemma ChainChecks(m: MState, p: int)
    requires m.Valid() && p in m.tries.held
    ensures m.tries.held[p].size in m.tries.node
    ensures At(m.mem, p + UP) == 0 ==> ChildWord(m.mem, p, 0) == 0 && ChildWord(m.mem, p, 1) == 0
    ensures At(m.mem, p + UP) != 0 <==> m.tries.node[m.tries.held[p].size] == p
  {
    TreeFacts(m);
    NodeOf(m, p);
    ParentWord(m.tries, p);
    assert TB.NodeOk(m.tries, p);
  }

  /** The walk round the ring has met exactly the node and the chunks younger than `u`. */
  ghost predicate Circling(t: TB.Tries, size: nat, u: int, seen: set<int>) {
    && OfSize(t, size, u) && size in t.node && OfSize(t, size, t.node[size])
    && forall x {:trigger x in seen} :: x in seen <==>
         && OfSize(t, size, x) && u != t.node[size]
         && (x == t.node[size] || t.held[u].stamp < t.held[x].stamp)
  }

  lemma CircleStep(m: MState, size: nat, u: int, seen: set<int>)
    requires m.Valid() && Circling(m.tries, size, u, seen)
    ensures var n := At(m.mem, u + FD); var h := m.tries.node[size];
            && OfSize(m.tries, size, n) && m.tries.held[n].stamp < m.tries.clock
            && (n != h ==> Circling(m.tries, size, n, seen + {u})
                           && (u != h ==> m.tries.held[n].stamp < m.tries.held[u].stamp))
            && (n == h ==> forall x {:trigger x in seen + {u}} :: x in seen + {u} <==> OfSize(m.tries, size, x))
  {
    var t := m.tries;
    var h := t.node[size];
    TreeFacts(m);
    NodeOf(m, u);
    var n := At(t.fd, u);
    NodeOf(m, n);
    forall x {:trigger x in seen + {u}}
      ensures x in seen + {u} <==> OfSize(t, size, x) && (n == h || x == h || t.held[n].stamp < t.held[x].stamp)
    {
      if OfSize(t, size, x) && x != h {
        NodeOf(m, x);
        if u == h {
          RingFirst(t, x);
        } else if t.held[x].stamp < t.held[u].stamp {
          RingNext(t, u, x);
        }
      }
    }
  }

  /** The size of a tree chunk lies between the bounds of its bin. */
  lemma IndexChecks(m: MState, p: int)
    requires m.Valid() && p in m.tries.held
    ensures var s := m.tries.held[p].size; var i := TreeIndex(s);
            && s == ChunkSize(At(m.mem, p + HEAD)) && MIN_LARGE <= s && At(m.mem, p + TAG) == i < NBINS
            && MinSize(i) <= s && (i == NBINS - 1 || s < MinSize(i + 1))
  {
    NodeOf(m, p);
    CheckedFree(m, p);
    TreeIndexBrackets(m.tries.held[p].size);
  }

  /** The part of `do_check_tree` for a node: its parent, and its children with their subtries. */
  method CheckNode(m: MState, u: int, ghost k: TB.Key) returns (ghost seen: set<int>)
    requires m.Valid() && k in m.tries.slot && m.tries.slot[k] == u && -1 <= k.lvl
    ensures forall p {:trigger p in seen} :: p in seen <==> InChild(m.tries, k, 0, p) || InChild(m.tries, k, 1, p)
    decreases k.lvl + 1, 0
  {
    hide MState.Valid, InTrie, ChunkSize, Lo, Hi;
    ParentChecks(m, k);
    ChildChecks(m, k, 0);
    ChildChecks(m, k, 1);
    var up, left, right := At(m.mem, u + UP), ChildWord(m.mem, u, 0), ChildWord(m.mem, u, 1);
    assert up != u && (ChildWord(m.mem, up, 0) == u || ChildWord(m.mem, up, 1) == u || At(m.mem, up) == u);
    ghost var onLeft, onRight := {}, {};
    if left != 0 {
      assert At(m.mem, left + UP) == u && left != u;
      onLeft := CheckTree(m, left, TB.ChildKey(k, 0));
    }
    if right != 0 {
      assert At(m.mem, right + UP) == u && right != u;
      onRight := CheckTree(m, right, TB.ChildKey(k, 1));
    }
    if left != 0 && right != 0 {
      Halves(k);
      IndexChecks(m, left);
      IndexChecks(m, right);
      assert ChunkSize(At(m.mem, left + HEAD)) < ChunkSize(At(m.mem, right + HEAD));
    }
    seen := onLeft + onRight;
  }

  /** `do_check_tree`: every check on the way holds, and the walk meets all chunks of the subtrie. */
  method CheckTree(m: MState, t: int, ghost k: TB.Key) returns (ghost seen: set<int>)
    requires m.Valid() && k in m.tries.slot && m.tries.slot[k] == t && -1 <= k.lvl
    ensures forall p {:trigger p in seen} :: p in seen <==> InTrie(m.tries, k, p)
    decreases k.lvl + 1, 1
  {
    hide MState.Valid, InTrie, InChild, ChunkSize, PInUse, IsInUse, InUse, OkAddress, Circling;
    NodeAt(m, k);
    IndexChecks(m, t);
    var tsize, tindex := ChunkSize(At(m.mem, t + HEAD)), At(m.mem, t + TAG);
    assert tindex == TreeIndex(tsize) && tsize >= MIN_LARGE && tsize >= MinSize(tindex);
    assert tindex == NBINS - 1 || tsize < MinSize(tindex + 1);
    ghost var ring, below := {}, {};
    var head, u := 0, t;
    CircleStart(m, k);
    while true
      invariant Circling(m.tries, tsize, u, ring) && OfSize(m.tries, tsize, u)
      invariant m.tries.held[u].stamp < m.tries.clock && (u == t <==> head == 0)
      invariant u != t ==> forall p {:trigger p in below} ::
                    p in below <==> InChild(m.tries, k, 0, p) || InChild(m.tries, k, 1, p)
      decreases if u == t then m.tries.clock else m.tries.held[u].stamp
    {
      NodeOf(m, u);
      CheckedFree(m, u);
      IndexChecks(m, u);
      ChainChecks(m, u);
      assert At(m.mem, u + TAG) == tindex && ChunkSize(At(m.mem, u + HEAD)) == tsize;
      if At(m.mem, u + UP) == 0 {
        assert ChildWord(m.mem, u, 0) == 0 && ChildWord(m.mem, u, 1) == 0;
      } else {
        assert head == 0;
        head := u;
        below := CheckNode(m, u, k);
      }
      CircleStep(m, tsize, u, ring);
      ring := ring + {u};
      u := At(m.mem, u + FD);
      if u == t {
        break;
      }
    }
    assert head != 0;
    seen := ring + below;
    forall p {:trigger p in seen} ensures p in seen <==> InTrie(m.tries, k, p) {
      TrieParts(m, k, p);
    }
  }

  lemma CircleStart(m: MState, k: TB.Key)
    requires m.Valid() && k in m.tries.slot && m.tries.slot[k] in m.tries.held
    ensures var t := m.tries.slot[k]; var size := m.tries.held[t].size;
            && size in m.tries.node && m.tries.node[size] == t && Circling(m.tries, size, t, {}) && t != 0
            && m.tries.held[t].stamp < m.tries.clock
  {
    var t := m.tries.slot[k];
    NodeAt(m, k);
    NodeOf(m, t);
    assert TB.KeyOk(m.tries, k);
  }

  /** `do_check_treebin` */
  method CheckTreeBin(m: MState, i: nat) returns (ghost seen: set<int>)
    requires m.Valid() && i < NBINS
    ensures forall p {:trigger p in seen} :: p in seen <==> p in m.tries.held && TreeIndex(m.tries.held[p].size) == i
  {
    hide MState.Valid, InTrie;
    RootFacts(m, i);
    MarkedIsBit(m.treemap, i);
    var t := At(m.mem, TB.TreeBin(i));
    var empty := !Marked(m.treemap, i);
    if t == 0 {
      assert empty;
    }
    seen := {};
    if !empty {
      seen := CheckTree(m, t, TB.RootKey(i));
    }
    forall p {:trigger p in seen} ensures p in seen <==> p in m.tries.held && TreeIndex(m.tries.held[p].size) == i {
      InBin(m, i, p);
    }
  }

  lemma RootFacts(m: MState, i: nat)
    requires m.Valid() && i < NBINS
    ensures m.treemap == m.tries.binmap && (BitAt(m.tries.binmap, i) <==> TB.RootKey(i) in m.tries.slot)
    ensures var t := At(m.mem, TB.TreeBin(i)); BitAt(m.tries.binmap, i) ==>
              t == m.tries.slot[TB.RootKey(i)] && t != 0 && -1 <= TB.RootKey(i).lvl
  {
    TreeFacts(m);
    assert TB.RootOk(m.tries, i) && RootWord(m.mem, m.tries, i);
    if TB.RootKey(i) in m.tries.slot {
      NodeAt(m, TB.RootKey(i));
      assert TB.KeyOk(m.tries, TB.RootKey(i));
    }
  }

  lemma InBin(m: MState, i: nat, p: int)
    requires m.Valid() && i < NBINS
    ensures p in m.tries.held && TreeIndex(m.tries.held[p].size) == i <==>
              TB.RootKey(i) in m.tries.slot && InTrie(m.tries, TB.RootKey(i), p)
  {
    var t := m.tries;
    TreeFacts(m);
    if p in t.held {
      NodeOf(m, p);
      var h := t.node[t.held[p].size];
      NodeOf(m, h);
      RootCovers(t, h);
    }
  }

  // ---- all bins

  lemma SmallBinOf(m: MState, p: int, i: nat)
    requires m.Valid()
    ensures InSmall(m.rings, i, p) <==> p in m.rings.held && SmallIndex(m.rings.held[p].size) == i
    ensures p in m.rings.held ==> SmallIndex(m.rings.held[p].size) < NBINS
  {
    if p in m.rings.held {
      EntryWords(m, p);
    }
  }

  lemma TreeBinOf(m: MState, p: int)
    requires m.Valid()
    ensures p in m.tries.held ==> TreeIndex(m.tries.held[p].size) < NBINS
  {
    if p in m.tries.held {
      IndexChecks(m, p);
    }
  }

  /** The first two loops of `do_check_malloc_state`: every check holds, and the walks meet exactly the chunks held in
      the bins. */
  method CheckBins(m: MState) returns (ghost seen: set<int>)
    requires m.Valid()
    ensures forall p {:trigger p in seen} :: p in seen <==> p in m.rings.held || p in m.tries.held
  {
    hide MState.Valid, InSmall;
    ghost var small, large := {}, {};
    for i := 0 to NBINS
      invariant forall p {:trigger p in small} ::
          p in small <==> p in m.rings.held && SmallIndex(m.rings.held[p].size) < i
    {
      ghost var more := CheckSmallBin(m, i);
      forall p ensures p in more <==> p in m.rings.held && SmallIndex(m.rings.held[p].size) == i {
        SmallBinOf(m, p, i);
      }
      small := small + more;
    }
    for i := 0 to NBINS
      invariant forall p {:trigger p in large} ::
          p in large <==> p in m.tries.held && TreeIndex(m.tries.held[p].size) < i
    {
      ghost var more := CheckTreeBin(m, i);
      large := large + more;
    }
    seen := small + large;
    forall p ensures p in seen <==> p in m.rings.held || p in m.tries.held {
      SmallBinOf(m, p, 0);
      TreeBinOf(m, p);
    }
  }
}
