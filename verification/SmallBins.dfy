/** The link words of the chunks in the small bins: 32 circular lists, each through its header,
    of chunks of one size.  The words are seen here by field, apart from the memory that holds them. */
module SmallBins {
  import opened Bits
  import opened BinMaps
  import opened Sizes
  import opened Words

  // The static malloc_state: bin headers, tree-bin roots and the newest segment's record live in
  // [STATE, STATE_END).
  const STATE: int := 4096
  const STATE_END: int := 5120

  /** `smallbin_at(M, i)` */
  function Header(i: nat): int { STATE + 16 * i }

  predicate Outside(p: int) { 0 < p && (p < STATE || STATE_END <= p) }

  /** `stamp` is the time of insertion. */
  datatype Entry = Entry(size: nat, stamp: nat)

  /** `born` is the chunk inserted at each time up to `clock`. */
  datatype Rings = Rings(held: map<int, Entry>, fd: Words, bk: Words, binmap: BinMap, clock: nat, born: Words)

  /** Chunk `b` comes after chunk `a` in a list, and is older. */
  predicate After(r: Rings, a: int, b: int) {
    && a in r.held && b in r.held
    && r.held[a].size == r.held[b].size && r.held[b].stamp < r.held[a].stamp
  }

  predicate EntryOk(r: Rings, p: int)
    requires p in r.held
  {
    var e := r.held[p];
    var h := Header(SmallIndex(e.size));
    && Outside(p) && e.size % 8 == 0 && MIN_CHUNK <= e.size < MIN_LARGE && e.stamp < r.clock && At(r.born, e.stamp) == p
    && BitAt(r.binmap, SmallIndex(e.size))
    && (At(r.fd, p) == h || After(r, p, At(r.fd, p))) && At(r.bk, At(r.fd, p)) == p
    && (At(r.bk, p) == h || After(r, At(r.bk, p), p)) && At(r.fd, At(r.bk, p)) == p
  }

  /** A header is meaningful only while its bit is set; then it leads to both ends of its list. */
  predicate HeaderOk(r: Rings, i: nat) {
    BitAt(r.binmap, i) ==>
      var h := Header(i);
      && At(r.fd, h) in r.held && r.held[At(r.fd, h)].size == 8 * i && At(r.bk, At(r.fd, h)) == h
      && At(r.bk, h) in r.held && r.held[At(r.bk, h)].size == 8 * i && At(r.fd, At(r.bk, h)) == h
  }

  ghost predicate Valid(r: Rings) {
    && (forall p {:trigger EntryOk(r, p)} :: p in r.held ==> EntryOk(r, p))
    && (forall i {:trigger HeaderOk(r, i)} :: 0 <= i < NBINS ==> HeaderOk(r, i))
  }

  /** The sizes held: what the bins mean to the rest of the allocator. */
  function Contents(r: Rings): map<int, nat> {
    map p | p in r.held :: r.held[p].size
  }

  // ---- insert_small_chunk

  function Insert(r: Rings, p: int, s: nat): Rings
    requires s < MIN_LARGE
  {
    var i := SmallIndex(s);
    var h := Header(i);
    var f := if BitAt(r.binmap, i) then At(r.fd, h) else h;
    Rings(r.held[p := Entry(s, r.clock)], r.fd[h := p][p := f], r.bk[f := p][p := h],
          if BitAt(r.binmap, i) then r.binmap else Mark(r.binmap, i), r.clock + 1, r.born[r.clock := p])
  }

  /** The neighbours of a held chunk are held, or are its header. */
  lemma Neighbours(r: Rings, p: int)
    requires Valid(r) && p in r.held
    ensures EntryOk(r, p)
    ensures At(r.fd, p) in r.held ==> EntryOk(r, At(r.fd, p))
    ensures At(r.bk, p) in r.held ==> EntryOk(r, At(r.bk, p))
  {
    assert EntryOk(r, p);
    assert At(r.fd, p) in r.held ==> EntryOk(r, At(r.fd, p));
    assert At(r.bk, p) in r.held ==> EntryOk(r, At(r.bk, p));
  }

  lemma InsertEntry(r: Rings, p: int, s: nat, q: int)
    requires Valid(r) && p !in r.held && Outside(p)
    requires s % 8 == 0 && MIN_CHUNK <= s < MIN_LARGE
    requires q in Insert(r, p, s).held
    ensures EntryOk(Insert(r, p, s), q)
  {
    var i := SmallIndex(s);
    assert HeaderOk(r, i);
    if BitAt(r.binmap, i) {
      assert EntryOk(r, At(r.fd, Header(i)));
    }
    if q != p {
      Neighbours(r, q);
    }
  }

  lemma InsertHeader(r: Rings, p: int, s: nat, j: nat)
    requires Valid(r) && p !in r.held && Outside(p)
    requires s % 8 == 0 && MIN_CHUNK <= s < MIN_LARGE
    requires j < NBINS
    ensures HeaderOk(Insert(r, p, s), j)
  {
    var i := SmallIndex(s);
    assert HeaderOk(r, i) && HeaderOk(r, j);
    if BitAt(r.binmap, j) {
      assert EntryOk(r, At(r.fd, Header(j))) && EntryOk(r, At(r.bk, Header(j)));
    }
  }

  lemma InsertValid(r: Rings, p: int, s: nat)
    requires Valid(r) && p !in r.held && Outside(p)
    requires s % 8 == 0 && MIN_CHUNK <= s < MIN_LARGE
    ensures Valid(Insert(r, p, s))
    ensures Contents(Insert(r, p, s)) == Contents(r)[p := s]
  {
    var t := Insert(r, p, s);
    forall q {:trigger EntryOk(t, q)} | q in t.held ensures EntryOk(t, q) {
      InsertEntry(r, p, s, q);
    }
    forall j {:trigger HeaderOk(t, j)} | 0 <= j < NBINS ensures HeaderOk(t, j) {
      InsertHeader(r, p, s, j);
    }
  }

  // ---- unlink_small_chunk

  function Remove(r: Rings, p: int): Rings
    requires p in r.held && r.held[p].size < MIN_LARGE
  {
    var f, b := At(r.fd, p), At(r.bk, p);
    r.(held := r.held - {p},
       fd := if b == f then r.fd else r.fd[b := f],
       bk := if b == f then r.bk else r.bk[f := b],
       binmap := if b == f then Clear(r.binmap, SmallIndex(r.held[p].size)) else r.binmap)
  }

  /** The first chunk of a list is the youngest of its size. */
  lemma {:induction false} FirstIsYoungest(r: Rings, p: int)
    requires Valid(r) && p in r.held
    ensures var f := At(r.fd, Header(SmallIndex(r.held[p].size)));
            f in r.held && (f == p || r.held[p].stamp < r.held[f].stamp)
    decreases r.clock - r.held[p].stamp
  {
    Neighbours(r, p);
    assert HeaderOk(r, SmallIndex(r.held[p].size));
    if At(r.bk, p) in r.held {
      FirstIsYoungest(r, At(r.bk, p));
    }
  }

  lemma {:induction false} LastIsOldest(r: Rings, p: int)
    requires Valid(r) && p in r.held
    ensures var b := At(r.bk, Header(SmallIndex(r.held[p].size)));
            b in r.held && (b == p || r.held[b].stamp < r.held[p].stamp)
    decreases r.held[p].stamp
  {
    Neighbours(r, p);
    assert HeaderOk(r, SmallIndex(r.held[p].size));
    if At(r.fd, p) in r.held {
      LastIsOldest(r, At(r.fd, p));
    }
  }

  /** The test `B == F` in unlink sees exactly the lists of one chunk. */
  lemma {:induction false} EqualLinksMeanAlone(r: Rings, p: int)
    requires Valid(r) && p in r.held
    ensures At(r.fd, p) == At(r.bk, p) <==> forall q :: q in r.held && r.held[q].size == r.held[p].size ==> q == p
    ensures At(r.fd, p) == At(r.bk, p) ==> At(r.fd, p) == Header(SmallIndex(r.held[p].size))
  {
    Neighbours(r, p);
    if At(r.fd, p) == At(r.bk, p) {
      forall q | q in r.held && r.held[q].size == r.held[p].size ensures q == p {
        FirstIsYoungest(r, q);
        LastIsOldest(r, q);
      }
    }
  }

  lemma RemoveEntry(r: Rings, p: int, q: int)
    requires Valid(r) && p in r.held && r.held[p].size < MIN_LARGE && q in Remove(r, p).held
    ensures EntryOk(Remove(r, p), q)
  {
    EqualLinksMeanAlone(r, p);
    Neighbours(r, p);
    Neighbours(r, q);
  }

  lemma RemoveHeader(r: Rings, p: int, j: nat)
    requires Valid(r) && p in r.held && r.held[p].size < MIN_LARGE && j < NBINS
    ensures HeaderOk(Remove(r, p), j)
  {
    EqualLinksMeanAlone(r, p);
    Neighbours(r, p);
    assert HeaderOk(r, j);
    if BitAt(r.binmap, j) {
      Neighbours(r, At(r.fd, Header(j)));
      Neighbours(r, At(r.bk, Header(j)));
    }
  }

  lemma RemoveValid(r: Rings, p: int)
    requires Valid(r) && p in r.held
    ensures r.held[p].size < MIN_LARGE
    ensures Valid(Remove(r, p))
    ensures Contents(Remove(r, p)) == Contents(r) - {p}
  {
    assert EntryOk(r, p);
    var t := Remove(r, p);
    forall q {:trigger EntryOk(t, q)} | q in t.held ensures EntryOk(t, q) {
      RemoveEntry(r, p, q);
    }
    forall j {:trigger HeaderOk(t, j)} | 0 <= j < NBINS ensures HeaderOk(t, j) {
      RemoveHeader(r, p, j);
    }
  }

  // ---- what the map and the lists say

  /** A bit of `smallmap` is set exactly when its bin holds a chunk. */
  lemma {:induction false} BitMeansNonEmpty(r: Rings, i: nat)
    requires Valid(r) && i < NBINS
    ensures BitAt(r.binmap, i) <==> exists p :: p in r.held && SmallIndex(r.held[p].size) == i
  {
    assert HeaderOk(r, i);
    forall p | p in r.held && SmallIndex(r.held[p].size) == i ensures BitAt(r.binmap, i) {
      assert EntryOk(r, p);
    }
    if BitAt(r.binmap, i) {
      assert SmallIndex(r.held[At(r.fd, Header(i))].size) == i;
    }
  }

  /** Along a list every chunk comes after the younger ones. */
  lemma {:induction false} NoneSkipped(r: Rings, p: int, x: int)
    requires Valid(r) && p in r.held && x in r.held
    requires r.held[p].size == r.held[x].size && r.held[x].stamp < r.held[p].stamp
    ensures var n := At(r.fd, p);
            n in r.held && (n == x || r.held[x].stamp < r.held[n].stamp)
    decreases r.clock - r.held[x].stamp
  {
    Neighbours(r, p);
    Neighbours(r, x);
    FirstIsYoungest(r, p);
    assert HeaderOk(r, SmallIndex(r.held[p].size));
    var b := At(r.bk, x);
    if b != p {
      if r.held[b].stamp < r.held[p].stamp {
        NoneSkipped(r, p, b);
      } else {
        assert EntryOk(r, b);
        NoneSkipped(r, b, p);
      }
    }
  }
}
