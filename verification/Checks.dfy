/** The allocator's own consistency checks, which hold in every state between two operations. */
module Checks {
  import opened AddSegment
  import opened Bits
  import opened Dlfree
  import opened Free
  import opened Layout
  import opened MallocState
  import opened Memory
  import opened Sizes
  import opened Words
  import BinOps
  import SmallBins
  import SysMalloc
  import TreeBins

  predicate IsMapped(w: int) { !PInUse(w) && !CInUse(w) }

  /** `do_check_any_chunk` */
  lemma AnyChunk(m: MState, p: int)
    requires m.Valid() && p in m.L
    ensures (p + FD) % 8 == 0 && OkAddress(m, p)
  {
    ChunkFacts(m, p);
    ChunkAddressOk(m, p);
  }

  /** The head of the top chunk, and the word behind it. */
  lemma TopHeads(m: MState)
    requires m.Valid() && m.top != 0
    ensures m.topsize % 8 == 0 && m.topsize > 0 && At(m.mem, m.top + HEAD) == m.topsize + 1
    ensures At(m.mem, m.top + m.topsize + HEAD) == TOP_FOOT
  {
    var p := m.top;
    SysMalloc.TopPositive(m);
    assert RoleOk(m.L, m.dv, m.top, {}, p);
    ChunkAt(m.L, m.S, p);
    HeadAt(m, p);
    assert TailOk(m.mem, m.L, p, m.notes);
  }

  /** `do_check_top_chunk`; the mask leaves the third bit of the head in place. */
  lemma TopChunk(m: MState)
    requires m.Valid() && m.Booked() && m.top != 0
    ensures var p, w := m.top, At(m.mem, m.top + HEAD);
            && m.segs != [] && m.segs[0].base <= p < m.segs[0].End() && w - w % 4 == m.topsize > 0
            && m.topsize == m.segs[0].End() - p - TOP_FOOT && PInUse(w) && !PInUse(At(m.mem, p + m.topsize + HEAD))
  {
    hide At, MState.Stored, MState.Indexed, MState.Listed, SegsOk, DirectOk, Total, Roles;
    TopInFirst(m, 0);
    TopHeads(m);
    TopWord(m.topsize);
  }

  lemma TopWord(s: nat)
    requires s % 8 == 0
    ensures (s + 1) - (s + 1) % 4 == s && PInUse(s + 1) && !PInUse(TOP_FOOT)
  {
    var q := s / 8;
    ModUnique(s + 1, 4, 2 * q, 1);
    ModUnique(s + 1, 2, 4 * q, 1);
  }

  /** `do_check_mmapped_chunk` */
  lemma MappedChunk(m: MState, p: int)
    requires m.Valid() && p in m.L && m.L[p].kind.Mapped?
    ensures var w := At(m.mem, p + HEAD); var sz := ChunkSize(w);
            && IsMapped(w) && MIN_LARGE <= sz && (sz + At(m.mem, p) + MMAP_PAD) % PAGE == 0
            && At(m.mem, p + sz + HEAD) == FENCEPOST && At(m.mem, p + sz + WORD + HEAD) == 0
  {
    OwnedWords(m, p);
    ChunkAt(m.L, m.S, p);
    MappedAlone(m.L, m.S, p, p);
    assert TailOk(m.mem, m.L, p, m.notes);
  }

  lemma RecordWords(m: MState, p: int)
    requires m.Valid() && p in m.L && m.L[p].kind.Record?
    ensures var w := At(m.mem, p + HEAD); IsInUse(w) && PInUse(At(m.mem, p + ChunkSize(w) + HEAD))
  {
    HeadBits(m.L, m.S, p);
    HeadAt(m, p);
    ChunkAt(m.L, m.S, p);
    assert TailOk(m.mem, m.L, p, m.notes);
    assert FenceAt(m.mem, p + RECORD + HEAD);
  }

  /** A chunk behind a free one leads back to it. */
  lemma PrevOfChunk(m: MState, p: int)
    requires m.Valid() && p in m.L
    ensures var w := At(m.mem, p + HEAD);
            IsMapped(w) || PInUse(w) || (var q := p - At(m.mem, p); q + ChunkSize(At(m.mem, q + HEAD)) == p)
  {
    ChunkAt(m.L, m.S, p);
    HeadBits(m.L, m.S, p);
    HeadAt(m, p);
    assert FootOk(m.mem, m.L, p);
    if !Pin(m.L, p) && !m.L[p].kind.Mapped? {
      var q := p - m.L[p].prv;
      ChunkAt(m.L, m.S, q);
      HeadBits(m.L, m.S, q);
      HeadAt(m, q);
    }
  }

  /** `do_check_inuse_chunk` */
  lemma InUseChunk(m: MState, p: int)
    requires m.Valid() && p in m.L && InUse(m.L[p].kind)
    ensures var w := At(m.mem, p + HEAD);
            && IsInUse(w) && PInUse(At(m.mem, p + ChunkSize(w) + HEAD))
            && (IsMapped(w) || PInUse(w) || (var q := p - At(m.mem, p); q + ChunkSize(At(m.mem, q + HEAD)) == p))
  {
    if Owned(m.L[p].kind) {
      OwnedWords(m, p);
    } else {
      RecordWords(m, p);
    }
    PrevOfChunk(m, p);
  }

  /** `do_check_free_chunk`, up to the links of the bins */
  lemma FreeChunk(m: MState, p: int)
    requires m.Valid() && p in m.L && (m.L[p].kind.Binned? || m.L[p].kind.Victim?)
    ensures var w := At(m.mem, p + HEAD); var sz := ChunkSize(w); var next := p + sz;
            && !IsInUse(w) && !IsMapped(w) && PInUse(w) && sz == m.L[p].size >= MIN_CHUNK && sz % 8 == 0
            && next in m.L && !PInUse(At(m.mem, next + HEAD)) && At(m.mem, next) == sz
            && IsInUse(At(m.mem, next + HEAD))
  {
    NextAt(m.L, m.S, p);
    var n := Next(m.L, p);
    HeadBits(m.L, m.S, p);
    HeadAt(m, p);
    HeadBits(m.L, m.S, n);
    HeadAt(m, n);
    ChunkAt(m.L, m.S, n);
    assert FootOk(m.mem, m.L, n);
  }

  /** `p->fd->bk == p` and `p->bk->fd == p`, in a small bin and in a tree bin */
  lemma BinLinks(m: MState, p: int)
    requires m.Valid() && p in m.L && m.L[p].kind.Binned?
    ensures var f, b := At(m.mem, p + FD), At(m.mem, p + BK);
            At(m.mem, f + BK) == p && At(m.mem, b + FD) == p
  {
    assert BinnedAt(m.L, m.rings, m.tries, p);
    if p in m.rings.held {
      RingLinks(m, p);
    } else {
      TrieLinks(m, p);
    }
  }

  lemma RingLinks(m: MState, p: int)
    requires m.Valid() && p in m.rings.held
    ensures var f, b := At(m.mem, p + FD), At(m.mem, p + BK);
            At(m.mem, f + BK) == p && At(m.mem, b + FD) == p
  {
    BinOps.NeighbourChecks(m, p);
    var h := SmallBins.Header(SmallIndex(m.rings.held[p].size));
    assert RingWords(m.mem, m.rings, h);
  }

  lemma TrieLinks(m: MState, p: int)
    requires m.Valid() && p in m.tries.held
    ensures var f, b := At(m.mem, p + FD), At(m.mem, p + BK);
            At(m.mem, f + BK) == p && At(m.mem, b + FD) == p
  {
    var t := m.tries;
    assert NodeWords(m.mem, t, p) && TreeBins.RingOk(t, p);
    var f, b := At(t.fd, p), At(t.bk, p);
    assert NodeWords(m.mem, t, f) && NodeWords(m.mem, t, b);
  }

  /** `traverse_and_check`: a chunk is in a bin just when it is free and neither the designated victim nor the
      top chunk; and no two free chunks are neighbours. */
  lemma Traversed(m: MState, p: int)
    requires m.Valid() && p in m.L
    ensures p in m.rings.held || p in m.tries.held <==> !InUse(m.L[p].kind) && p != m.dv && p != m.top
    ensures !InUse(m.L[p].kind) && Next(m.L, p) in m.L && p != m.top ==> InUse(m.L[Next(m.L, p)].kind)
  {
    assert BinnedAt(m.L, m.rings, m.tries, p) && RoleOk(m.L, m.dv, m.top, {}, p);
    if !Last(m.L[p].kind) {
      NextAt(m.L, m.S, p);
    }
  }
}
