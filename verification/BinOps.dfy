/** Linking chunks into bins and unlinking them, word by word. */
module BinOps {
  import opened Bits
  import opened BinMaps
  import opened Layout
  import opened MallocState
  import opened Memory
  import opened Sizes
  import opened Words
  import opened SB = SmallBins
  import TB = TreeBins

  // ---- a free chunk put to another free use

  lemma RekindTagged(mem: Words, L: Chunks, H: set<int>, F: set<int>, p: int, k: Kind)
    requires Tagged(mem, L, H, F) && p in L && !Last(L[p].kind) && !Last(k) && InUse(k) == InUse(L[p].kind)
    requires !L[p].flag
    ensures Tagged(mem, Reuse(L, p, k), H, F)
  {
    var M := Reuse(L, p, k);
    forall q {:trigger HeadOk(mem, M, q)} | q in M && q !in H ensures HeadOk(mem, M, q) {
      assert HeadOk(mem, L, q);
    }
    forall q {:trigger FootOk(mem, M, q)} | q in M && q !in F ensures FootOk(mem, M, q) {
      assert FootOk(mem, L, q);
    }
  }

  lemma RekindTiled(L: Chunks, S: Spans, p: int, k: Kind)
    requires Tiled(L, S) && p in L && !Last(L[p].kind) && !Last(k) && !InUse(L[p].kind) && !InUse(k)
    ensures Tiled(Reuse(L, p, k), S)
  {
    NextAt(L, S, p);
    ReuseTiled(L, S, p, k);
  }

  lemma Rekind(mem: Words, L: Chunks, S: Spans, H: set<int>, F: set<int>, T: set<int>, p: int, k: Kind, notes: Notes)
    requires Tiled(L, S) && Tagged(mem, L, H, F) && Tailed(mem, L, T, notes) && p in L && !Last(L[p].kind) && !Last(k)
    requires !InUse(L[p].kind) && !InUse(k)
    ensures Tiled(Reuse(L, p, k), S) && Tagged(mem, Reuse(L, p, k), H, F) && Tailed(mem, Reuse(L, p, k), T, notes)
  {
    ChunkAt(L, S, p);
    RekindTiled(L, S, p, k);
    RekindTagged(mem, L, H, F, p, k);
    ReuseTails(mem, L, T, p, k, notes);
  }

  lemma ReuseTails(mem: Words, L: Chunks, T: set<int>, p: int, k: Kind, notes: Notes)
    requires Tailed(mem, L, T, notes) && p in L && !Last(L[p].kind) && !Last(k)
    ensures Tailed(mem, Reuse(L, p, k), T, notes)
  {
    var M := Reuse(L, p, k);
    forall q {:trigger TailOk(mem, M, q, notes)} | q in M && q !in T ensures TailOk(mem, M, q, notes) {
      assert TailOk(mem, L, q, notes);
    }
  }

  // ---- insert_small_chunk

  /** A loose chunk becomes a member of the rings, with whatever its link words hold. */
  ghost method AdoptSmall(m: MState, p: int, s: nat)
    requires m.Stored() && p in m.L && m.L[p].kind.Loose? && m.L[p].size == s
    modifies m`L, m`rings
    ensures m.Stored() && m.L == Reuse(old(m.L), p, Binned)
    ensures var r := old(m.rings);
            m.rings == r.(held := r.held[p := Entry(s, r.clock)], fd := r.fd[p := At(m.mem, p + FD)],
                bk := r.bk[p := At(m.mem, p + BK)])
    ensures p !in old(m.rings).held && p !in m.tries.held
  {
    hide Tiled, Tagged, Tailed, Foreign, TriesStored;
    var L, r := m.L, m.rings;
    Rekind(m.mem, L, m.S, m.staleHeads, m.staleFeet, m.staleTails, p, Binned, m.notes);
    assert BinnedAt(L, r, m.tries, p);
    m.L := Reuse(L, p, Binned);
    m.rings := r.(held := r.held[p := Entry(s, r.clock)], fd := r.fd[p := At(m.mem, p + FD)],
        bk := r.bk[p := At(m.mem, p + BK)]);
    forall q {:trigger BinnedAt(m.L, m.rings, m.tries, q)} ensures BinnedAt(m.L, m.rings, m.tries, q) {
      assert BinnedAt(L, r, m.tries, q);
    }
    ChunkAt(L, m.S, p);
    ClearOfState(L, m.S, p, 0);
    forall q {:trigger RingWords(m.mem, m.rings, q)} | q in m.rings.held ensures RingWords(m.mem, m.rings, q) {
      assert q != p ==> RingWords(m.mem, r, q);
    }
    forall i {:trigger Header(i)} | 0 <= i < NBINS ensures RingWords(m.mem, m.rings, Header(i)) {
      assert RingWords(m.mem, r, Header(i));
    }
  }

  /** Bookkeeping of the rings does not touch memory. */
  ghost method SettleRings(m: MState, u: Rings)
    requires m.Stored() && u.held == m.rings.held && u.fd == m.rings.fd && u.bk == m.rings.bk
    modifies m`rings
    ensures m.Stored() && m.rings == u
  {
    var r := m.rings;
    BinsSame(m.L, r, m.tries, u, m.tries);
    forall q {:trigger RingWords(m.mem, u, q)} | q in u.held ensures RingWords(m.mem, u, q) {
      assert RingWords(m.mem, r, q);
    }
    forall i {:trigger Header(i)} | 0 <= i < NBINS ensures RingWords(m.mem, u, Header(i)) {
      assert RingWords(m.mem, r, Header(i));
    }
    m.rings := u;
  }

  /** The four assignments that link `p` between the header `b` and the old first chunk `f`. */
  method LinkSmall(m: MState, p: int, b: int, f: int)
    requires m.Stored() && p in m.rings.held && IsHeader(b) && (f in m.rings.held || IsHeader(f))
    modifies m`mem, m`rings
    ensures m.Stored() && Quiet(old(m.mem), m.mem, m.L)
    ensures var r := old(m.rings);
            m.rings == r.(fd := r.fd[b := p][p := f], bk := r.bk[f := p][p := b])
  {
    PutFd(m, b, p);
    PutBk(m, f, p);
    PutFd(m, p, f);
    PutBk(m, p, b);
  }

  /** The first chunk of a marked bin, read through its header. */
  method FirstSmall(m: MState, i: nat) returns (f: int)
    requires m.Stored() && m.Indexed() && i < NBINS && BitAt(m.smallmap, i)
    ensures f == At(m.rings.fd, Header(i)) && f in m.rings.held && OkAddress(m, f)
    ensures m.rings.held[f].size == 8 * i && f in m.L
  {
    f := At(m.mem, Header(i) + FD);
    assert RingWords(m.mem, m.rings, Header(i));
    assert HeaderOk(m.rings, i);
    assert BinnedAt(m.L, m.rings, m.tries, f);
    ChunkAddressOk(m, f);
  }

  lemma Overwrite(w: Words, p: int, x: int, b: int, v: int, f: int)
    ensures w[p := x][b := v][p := f] == w[b := v][p := f]
  {
  }

  lemma InsertFields(r: Rings, p: int, s: nat, x: int, y: int)
    requires s < MIN_LARGE
    ensures var b := Header(SmallIndex(s));
            var f := if BitAt(r.binmap, SmallIndex(s)) then At(r.fd, b) else b;
            var u := Insert(r, p, s);
            && u.held == r.held[p := Entry(s, r.clock)]
            && u.fd == r.fd[p := x][b := p][p := f] && u.bk == r.bk[p := y][f := p][p := b]
  {
    var b := Header(SmallIndex(s));
    var f := if BitAt(r.binmap, SmallIndex(s)) then At(r.fd, b) else b;
    Overwrite(r.fd, p, x, b, p, f);
    Overwrite(r.bk, p, y, f, p, b);
  }

  method InsertSmall(m: MState, p: int, s: nat)
    requires m.Stored() && m.Indexed() && p in m.L && m.L[p].kind.Loose? && m.L[p].size == s && IsSmall(s)
    modifies m`mem, m`smallmap, m`L, m`rings
    ensures m.Stored() && m.Indexed()
    ensures m.L == Reuse(old(m.L), p, Binned)
    ensures p !in old(m.rings).held && m.rings == Insert(old(m.rings), p, s)
    ensures Quiet(old(m.mem), m.mem, m.L)
  {
    hide Tiled, Tagged, Bins, TriesStored, OffState, LeastOk, TreeBins.Valid, Quiet, Reuse, Header, Marked, Mark, At;
    hide RingsStored, Tailed, Foreign;
    ghost var r := m.rings;
    var i := SmallIndex(s);
    var b := Header(i);
    var f := b;
    ChunkAt(m.L, m.S, p);
    ClearOfState(m.L, m.S, p, 0);
    MarkedIsBit(m.smallmap, i);
    if !Marked(m.smallmap, i) {
      m.smallmap := Mark(m.smallmap, i);
    } else {
      f := FirstSmall(m, i);
      assert OkAddress(m, f);   // RTCHECK
    }
    AdoptSmall(m, p, s);
    InsertValid(r, p, s);
    LinkSmall(m, p, b, f);
    InsertFields(r, p, s, At(old(m.mem), p + FD), At(old(m.mem), p + BK));
    SettleRings(m, Insert(r, p, s));
  }

  // ---- unlink_small_chunk and unlink_first_small_chunk

  /** A chunk leaves the rings and is loose. */
  ghost method ReleaseSmall(m: MState, p: int, u: Rings)
    requires m.Stored() && p in m.rings.held && u.held == m.rings.held - {p} && u.fd == m.rings.fd && u.bk == m.rings.bk
    modifies m`L, m`rings
    ensures m.Stored() && m.rings == u && p in old(m.L) && m.L == Reuse(old(m.L), p, Loose)
  {
    hide Tiled, Tagged, Tailed, Foreign, TriesStored;
    var L, r := m.L, m.rings;
    assert BinnedAt(L, r, m.tries, p);
    Rekind(m.mem, L, m.S, m.staleHeads, m.staleFeet, m.staleTails, p, Loose, m.notes);
    m.L := Reuse(L, p, Loose);
    m.rings := u;
    forall q {:trigger BinnedAt(m.L, u, m.tries, q)} ensures BinnedAt(m.L, u, m.tries, q) {
      assert BinnedAt(L, r, m.tries, q);
    }
    forall q {:trigger RingWords(m.mem, u, q)} | q in u.held ensures RingWords(m.mem, u, q) {
      assert RingWords(m.mem, r, q);
    }
    forall i {:trigger Header(i)} | 0 <= i < NBINS ensures RingWords(m.mem, u, Header(i)) {
      assert RingWords(m.mem, r, Header(i));
    }
  }

  /** A neighbour in a small bin passes the run-time checks: it is the header, or a good address that
      links back. */
  lemma NeighbourChecks(m: MState, p: int)
    requires m.Stored() && m.Indexed() && p in m.rings.held
    ensures RingWords(m.mem, m.rings, p) && EntryOk(m.rings, p) && p in m.L && m.L[p].kind.Binned?
    ensures m.L[p].size == m.rings.held[p].size
    ensures IsHeader(Header(SmallIndex(m.rings.held[p].size)))
    ensures var f := At(m.rings.fd, p);
            f == Header(SmallIndex(m.rings.held[p].size)) || (f in m.rings.held && OkAddress(m, f)
                && At(m.mem, f + BK) == p)
    ensures var b := At(m.rings.bk, p);
            b == Header(SmallIndex(m.rings.held[p].size)) || (b in m.rings.held && OkAddress(m, b)
                && At(m.mem, b + FD) == p)
  {
    var r := m.rings;
    assert BinnedAt(m.L, r, m.tries, p);
    assert RingWords(m.mem, r, p);
    Neighbours(r, p);
    var f, b := At(r.fd, p), At(r.bk, p);
    if f in r.held {
      assert BinnedAt(m.L, r, m.tries, f);
      assert RingWords(m.mem, r, f);
      ChunkAddressOk(m, f);
    }
    if b in r.held {
      assert BinnedAt(m.L, r, m.tries, b);
      assert RingWords(m.mem, r, b);
      ChunkAddressOk(m, b);
    }
  }

  /** `F->bk = B; B->fd = F` */
  method Bypass(m: MState, f: int, b: int)
    requires m.Stored() && (f in m.rings.held || IsHeader(f)) && (b in m.rings.held || IsHeader(b))
    modifies m`mem, m`rings
    ensures m.Stored() && m.rings == old(m.rings).(fd := old(m.rings).fd[b := f], bk := old(m.rings).bk[f := b])
    ensures Quiet(old(m.mem), m.mem, m.L)
  {
    PutBk(m, f, b);
    PutFd(m, b, f);
  }

  method UnlinkSmall(m: MState, p: int, s: nat)
    requires m.Stored() && m.Indexed() && p in m.rings.held && m.rings.held[p].size == s
    modifies m`mem, m`smallmap, m`L, m`rings
    ensures m.Stored() && m.Indexed()
    ensures p in old(m.L) && old(m.L)[p].kind.Binned? && old(m.L)[p].size == s && m.L == Reuse(old(m.L), p, Loose)
    ensures s < MIN_LARGE && m.rings == Remove(old(m.rings), p)
    ensures Quiet(old(m.mem), m.mem, m.L)
  {
    hide Tiled, Tagged, Bins, RingsStored, TriesStored, OffState, LeastOk, Tailed, Foreign, TB.Valid;
    ghost var r := m.rings;
    NeighbourChecks(m, p);
    RemoveValid(r, p);
    var f, b := At(m.mem, p + FD), At(m.mem, p + BK);
    var i := SmallIndex(s);
    assert f == Header(i) || (OkAddress(m, f) && At(m.mem, f + BK) == p);   // RTCHECK
    if b == f {
      m.smallmap := Clear(m.smallmap, i);
    } else {
      assert b == Header(i) || (OkAddress(m, b) && At(m.mem, b + FD) == p);   // RTCHECK
      Bypass(m, f, b);
    }
    ReleaseSmall(m, p, Remove(r, p));
    QuietWithin(old(m.mem), m.mem, m.L, old(m.L));
  }

  /** The chunk at the front of bin `i`. */
  method UnlinkFirstSmall(m: MState, b: int, p: int, i: nat)
    requires m.Stored() && m.Indexed() && i < NBINS && b == Header(i) && p in m.rings.held
    requires m.rings.held[p].size == 8 * i && At(m.rings.fd, b) == p
    modifies m`mem, m`smallmap, m`L, m`rings
    ensures m.Stored() && m.Indexed()
    ensures p in old(m.L) && old(m.L)[p].kind.Binned? && old(m.L)[p].size == 8 * i && m.L == Reuse(old(m.L), p, Loose)
    ensures old(m.rings).held[p].size < MIN_LARGE && m.rings == Remove(old(m.rings), p)
    ensures Quiet(old(m.mem), m.mem, m.L)
  {
    ghost var r := m.rings;
    NeighbourChecks(m, p);
    RemoveValid(r, p);
    FrontHasHeader(r, p);
    var f := At(m.mem, p + FD);
    if b == f {
      m.smallmap := Clear(m.smallmap, i);
    } else {
      assert OkAddress(m, f) && At(m.mem, f + BK) == p;   // RTCHECK
      Bypass(m, f, b);
    }
    ReleaseSmall(m, p, Remove(r, p));
    QuietWithin(old(m.mem), m.mem, m.L, old(m.L));
  }

  lemma FrontHasHeader(r: Rings, p: int)
    requires SB.Valid(r) && p in r.held && At(r.fd, Header(SmallIndex(r.held[p].size))) == p
    ensures At(r.bk, p) == Header(SmallIndex(r.held[p].size))
    ensures At(r.fd, p) in r.held || At(r.fd, p) == Header(SmallIndex(r.held[p].size))
    ensures At(r.fd, p) in r.held ==> !IsHeader(At(r.fd, p))
  {
    Neighbours(r, p);
    assert HeaderOk(r, SmallIndex(r.held[p].size));
  }
}
