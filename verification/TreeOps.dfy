/** Linking chunks into tree bins and unlinking them, word by word. */
module TreeOps {
  import opened BinMaps
  import opened Layout
  import opened MallocState
  import opened Memory
  import opened Sizes
  import opened TB = TreeBins
  import opened TreeSearch
  import opened Words
  import BinOps
  import SmallBins

  // ---- the words of a chunk in a tree bin

  method PutTreeFd(m: MState, q: int, v: int)
    requires m.Stored() && q in m.tries.held
    modifies m`mem, m`tries
    ensures m.Stored() && m.tries == old(m.tries).(fd := old(m.tries).fd[q := v]) && Quiet(old(m.mem), m.mem, m.L)
  {
    PutLink(m, q, FD, v, m.tries.(fd := m.tries.fd[q := v]));
  }

  method PutTreeBk(m: MState, q: int, v: int)
    requires m.Stored() && q in m.tries.held
    modifies m`mem, m`tries
    ensures m.Stored() && m.tries == old(m.tries).(bk := old(m.tries).bk[q := v]) && Quiet(old(m.mem), m.mem, m.L)
  {
    PutLink(m, q, BK, v, m.tries.(bk := m.tries.bk[q := v]));
  }

  method PutLeft(m: MState, q: int, v: int)
    requires m.Stored() && q in m.tries.held
    modifies m`mem, m`tries
    ensures m.Stored() && m.tries == old(m.tries).(left := old(m.tries).left[q := v]) && Quiet(old(m.mem), m.mem, m.L)
  {
    PutLink(m, q, LEFT, v, m.tries.(left := m.tries.left[q := v]));
  }

  method PutRight(m: MState, q: int, v: int)
    requires m.Stored() && q in m.tries.held
    modifies m`mem, m`tries
    ensures m.Stored() && m.tries == old(m.tries).(right := old(m.tries).right[q := v]) && Quiet(old(m.mem), m.mem, m.L)
  {
    PutLink(m, q, RIGHT, v, m.tries.(right := m.tries.right[q := v]));
  }

  method PutUp(m: MState, q: int, v: int)
    requires m.Stored() && q in m.tries.held
    modifies m`mem, m`tries
    ensures m.Stored() && m.tries == old(m.tries).(up := old(m.tries).up[q := v]) && Quiet(old(m.mem), m.mem, m.L)
  {
    PutLink(m, q, UP, v, m.tries.(up := m.tries.up[q := v]));
  }

  method PutTag(m: MState, q: int, v: int)
    requires m.Stored() && q in m.tries.held
    modifies m`mem, m`tries
    ensures m.Stored() && m.tries == old(m.tries).(tag := old(m.tries).tag[q := v]) && Quiet(old(m.mem), m.mem, m.L)
  {
    PutLink(m, q, TAG, v, m.tries.(tag := m.tries.tag[q := v]));
  }

  // ---- bookkeeping of the tries, without touching memory

  predicate SameLinks(t: Tries, u: Tries, p: int) {
    && At(t.fd, p) == At(u.fd, p) && At(t.bk, p) == At(u.bk, p)
    && At(t.left, p) == At(u.left, p) && At(t.right, p) == At(u.right, p)
    && At(t.up, p) == At(u.up, p) && At(t.tag, p) == At(u.tag, p)
  }

  predicate SameRoot(t: Tries, u: Tries, i: nat) { At(t.root, i) == At(u.root, i) }

  /** The chunks of `u` have the same links in `t`. */
  ghost predicate Alike(t: Tries, u: Tries) {
    && (forall p {:trigger SameLinks(t, u, p)} :: p in u.held ==> p in t.held && SameLinks(t, u, p))
    && (forall i {:trigger SameRoot(t, u, i)} :: 0 <= i < NBINS ==> SameRoot(t, u, i))
  }

  lemma AlikeStored(mem: Words, t: Tries, u: Tries)
    requires TriesStored(mem, t) && Alike(t, u)
    ensures TriesStored(mem, u)
  {
    forall p {:trigger NodeWords(mem, u, p)} | p in u.held ensures NodeWords(mem, u, p) {
      assert SameLinks(t, u, p);
      assert NodeWords(mem, t, p);
    }
    forall i {:trigger RootWord(mem, u, i)} | 0 <= i < NBINS ensures RootWord(mem, u, i) {
      assert SameRoot(t, u, i);
      assert RootWord(mem, t, i);
    }
  }

  ghost method SettleTries(m: MState, u: Tries)
    requires m.Stored() && Alike(m.tries, u) && u.held.Keys == m.tries.held.Keys
    requires forall p {:trigger u.held[p]} :: p in u.held ==> u.held[p].size == m.tries.held[p].size
    modifies m`tries
    ensures m.Stored() && m.tries == u
  {
    var t := m.tries;
    AlikeStored(m.mem, t, u);
    forall p {:trigger BinnedAt(m.L, m.rings, u, p)} ensures BinnedAt(m.L, m.rings, u, p) {
      assert BinnedAt(m.L, m.rings, t, p);
    }
    m.tries := u;
  }

  /** A loose chunk becomes a member of the tries, with whatever its link words hold. */
  function Adopted(t: Tries, mem: Words, x: int, s: nat): Tries {
    t.(held := t.held[x := Node(s, Spare, Key(0, 0, 0), t.clock)],
       fd := t.fd[x := At(mem, x + FD)], bk := t.bk[x := At(mem, x + BK)],
       left := t.left[x := At(mem, x + LEFT)], right := t.right[x := At(mem, x + RIGHT)],
       up := t.up[x := At(mem, x + UP)], tag := t.tag[x := At(mem, x + TAG)])
  }

  ghost method AdoptLarge(m: MState, x: int, s: nat)
    requires m.Stored() && x in m.L && m.L[x].kind.Loose? && m.L[x].size == s >= MIN_LARGE
    modifies m`L, m`tries
    ensures m.Stored() && m.L == Reuse(old(m.L), x, Binned)
    ensures m.tries == Adopted(old(m.tries), m.mem, x, s) && x !in old(m.tries).held
  {
    hide Tiled, Tagged, Tailed, Foreign, RingsStored, TriesStored;
    var L, t := m.L, m.tries;
    BinOps.Rekind(m.mem, L, m.S, m.staleHeads, m.staleFeet, m.staleTails, x, Binned, m.notes);
    assert BinnedAt(L, m.rings, t, x);
    var u := Adopted(t, m.mem, x, s);
    m.L := Reuse(L, x, Binned);
    m.tries := u;
    forall q {:trigger BinnedAt(m.L, m.rings, u, q)} ensures BinnedAt(m.L, m.rings, u, q) {
      assert BinnedAt(L, m.rings, t, q);
    }
    AdoptedStored(t, m.mem, x, s);
  }

  lemma AdoptedStored(t: Tries, mem: Words, x: int, s: nat)
    requires TriesStored(mem, t)
    ensures TriesStored(mem, Adopted(t, mem, x, s))
  {
    var u := Adopted(t, mem, x, s);
    forall q {:trigger NodeWords(mem, u, q)} | q in u.held ensures NodeWords(mem, u, q) {
      if q != x {
        assert NodeWords(mem, t, q);
        AdoptedOther(t, mem, x, s, q);
      }
    }
    forall i {:trigger RootWord(mem, u, i)} | 0 <= i < NBINS ensures RootWord(mem, u, i) {
      assert RootWord(mem, t, i);
    }
  }

  lemma AdoptedOther(t: Tries, mem: Words, x: int, s: nat, q: int)
    requires q != x && NodeWords(mem, t, q)
    ensures NodeWords(mem, Adopted(t, mem, x, s), q)
  {
    PutOther(t.fd, x, At(mem, x + FD), q);
    PutOther(t.bk, x, At(mem, x + BK), q);
    PutOther(t.up, x, At(mem, x + UP), q);
    PutOther(t.left, x, At(mem, x + LEFT), q);
    PutOther(t.right, x, At(mem, x + RIGHT), q);
    PutOther(t.tag, x, At(mem, x + TAG), q);
  }

  /** A chunk leaves the tries and is loose. */
  ghost method ReleaseLarge(m: MState, x: int, u: Tries)
    requires m.Stored() && x in m.tries.held && Alike(m.tries, u) && u.held.Keys == m.tries.held.Keys - {x}
    requires forall p {:trigger u.held[p]} :: p in u.held ==> u.held[p].size == m.tries.held[p].size
    modifies m`L, m`tries
    ensures m.Stored() && m.tries == u && x in old(m.L) && m.L == Reuse(old(m.L), x, Loose)
  {
    hide Tiled, Tagged, Tailed, Foreign, RingsStored;
    var L, t := m.L, m.tries;
    assert BinnedAt(L, m.rings, t, x);
    BinOps.Rekind(m.mem, L, m.S, m.staleHeads, m.staleFeet, m.staleTails, x, Loose, m.notes);
    AlikeStored(m.mem, t, u);
    m.L := Reuse(L, x, Loose);
    m.tries := u;
    forall p {:trigger BinnedAt(m.L, m.rings, u, p)} ensures BinnedAt(m.L, m.rings, u, p) {
      assert BinnedAt(L, m.rings, t, p);
    }
  }

  // ---- insert_large_chunk

  /** The tries `t` are among those in memory. */
  ghost predicate Embedded(m: MState, t: Tries)
    reads m
  {
    && Alike(m.tries, t)
    && forall p {:trigger t.held[p]} :: p in t.held ==> p in m.tries.held && m.tries.held[p].size == t.held[p].size
  }

  /** What memory says about a chunk of the tries. */
  lemma ReadNode(m: MState, t: Tries, p: int)
    requires m.Stored() && Embedded(m, t) && p in t.held
    ensures NodeWords(m.mem, t, p) && p in m.L && m.L[p].kind.Binned? && m.L[p].size == t.held[p].size
    ensures OkAddress(m, p)
  {
    assert SameLinks(m.tries, t, p);
    assert NodeWords(m.mem, m.tries, p);
    assert BinnedAt(m.L, m.rings, m.tries, p);
    ChunkAddressOk(m, p);
  }

  /** `t->child[c]` */
  function ChildWord(mem: Words, p: int, c: nat): int {
    At(mem, p + LEFT + 8 * c)
  }

  lemma ReadChild(m: MState, t: Tries, k: Key, c: nat)
    requires m.Stored() && Embedded(m, t) && TB.Valid(t) && k in t.slot && c <= 1
    ensures t.slot[k] in t.held && ChildWord(m.mem, t.slot[k], c) == Lookup(t, ChildKey(k, c))
    ensures ChildKey(k, c) in t.slot <==> ChildWord(m.mem, t.slot[k], c) != 0
    ensures t.held[t.slot[k]].key == k && IsNode(t, t.slot[k])
  {
    assert KeyOk(t, k);
    var p := t.slot[k];
    ReadNode(m, t, p);
    NodeCanRemove(t, p);
    assert NodeOk(t, p);
    assert ChildKey(k, c) in t.slot ==> KeyOk(t, ChildKey(k, c));
  }

  /** The walk down the trie: to the node of size `s`, or to the node whose free child is its place. */
  method FindPlace(m: MState, s: nat, i: nat, ghost t: Tries) returns (T: int, c: nat, found: bool, ghost k: Key)
    requires m.Stored() && m.staleHeads == {} && Embedded(m, t) && TB.Valid(t)
    requires SizeOk(s) && i == TreeIndex(s) < NBINS && RootKey(i) in t.slot
    ensures k in t.slot && t.slot[k] == T && T in t.held && OkAddress(m, T)
    ensures found ==> s in t.node && t.node[s] == T
    ensures !found ==>
              k.lvl >= 0 && c == Side(s, k.lvl) && FreeKey(t, ChildKey(k, c)) && Fits(s, ChildKey(k, c)) && s !in t.node
  {
    hide At, TreeBin, OffState, Tailed;
    k := RootKey(i);
    WalkStart(t, s);
    assert RootOk(t, i) && SameRoot(m.tries, t, i) && RootWord(m.mem, m.tries, i);
    T := At(m.mem, TreeBin(i));
    var K := Shl(s, 63 - TopBit(i));
    c := 0;
    while true
      invariant Walking(t, s, k) && T == t.slot[k]
      invariant K == Shl(s, 63 - k.lvl) && k.lvl <= 63
      decreases k.lvl
    {
      ReadChild(m, t, k, 0);
      ReadNode(m, t, T);
      var size := ReadSize(m, T);
      if size == s {
        WalkFound(t, s, k);
        return T, c, true, k;
      }
      WalkStep(t, s, k);
      SideBit(s, k.lvl);
      c := K / 0x8000_0000_0000_0000;
      ReadChild(m, t, k, c);
      K := (2 * K) % SPACE;
      var C := ChildWord(m.mem, T, c);
      if C == 0 {
        return T, c, false, k;
      }
      T := C;
      k := ChildKey(k, c);
    }
  }

  /** The tries `v` are `t` with the chunk `x` added and its index and child words set, not linked yet. */
  ghost predicate Primed(t: Tries, v: Tries, x: int, s: nat, i: int) {
    && v.held == t.held[x := Node(s, Spare, Key(0, 0, 0), t.clock)] && v.root == t.root
    && (forall p {:trigger SameLinks(t, v, p)} :: p != x ==> SameLinks(t, v, p))
    && At(v.tag, x) == i && At(v.left, x) == 0 && At(v.right, x) == 0
  }

  /** `X->index = I; X->child[0] = X->child[1] = 0` */
  method PutFresh(m: MState, x: int, i: nat)
    requires m.Stored() && x in m.tries.held
    modifies m`mem, m`tries
    ensures m.Stored() && Quiet(old(m.mem), m.mem, m.L)
    ensures var t := old(m.tries); m.tries == t.(tag := t.tag[x := i], left := t.left[x := 0], right := t.right[x := 0])
  {
    PutTag(m, x, i);
    PutLeft(m, x, 0);
    PutRight(m, x, 0);
  }

  lemma FreshPrimed(t: Tries, mem: Words, x: int, s: nat, i: int)
    ensures var a := Adopted(t, mem, x, s);
            Primed(t, a.(tag := a.tag[x := i], left := a.left[x := 0], right := a.right[x := 0]), x, s, i)
  {
    var a := Adopted(t, mem, x, s);
    var v := a.(tag := a.tag[x := i], left := a.left[x := 0], right := a.right[x := 0]);
    forall p {:trigger SameLinks(t, v, p)} | p != x ensures SameLinks(t, v, p) {
      PutOther(t.fd, x, At(mem, x + FD), p);
      PutOther(t.bk, x, At(mem, x + BK), p);
      PutOther(t.up, x, At(mem, x + UP), p);
      PutOther(t.left, x, At(mem, x + LEFT), p);
      PutOther(t.right, x, At(mem, x + RIGHT), p);
      PutOther(t.tag, x, At(mem, x + TAG), p);
      PutOther(a.left, x, 0, p);
      PutOther(a.right, x, 0, p);
      PutOther(a.tag, x, i, p);
    }
  }

  method Prime(m: MState, x: int, s: nat, i: nat)
    requires m.Stored() && x in m.L && m.L[x].kind.Loose? && m.L[x].size == s >= MIN_LARGE
    modifies m`mem, m`L, m`tries
    ensures m.Stored() && m.L == Reuse(old(m.L), x, Binned) && Quiet(old(m.mem), m.mem, m.L)
    ensures x !in old(m.tries).held && Primed(old(m.tries), m.tries, x, s, i)
  {
    AdoptLarge(m, x, s);
    FreshPrimed(old(m.tries), m.mem, x, s, i);
    PutFresh(m, x, i);
  }

  lemma PrimedEmbeds(m: MState, t: Tries, x: int, s: nat, i: int)
    requires Primed(t, m.tries, x, s, i) && x !in t.held
    ensures Embedded(m, t)
  {
    forall p {:trigger SameLinks(m.tries, t, p)} | p in t.held ensures p in m.tries.held && SameLinks(m.tries, t, p) {
      assert SameLinks(t, m.tries, p);
    }
    forall j {:trigger SameRoot(m.tries, t, j)} | 0 <= j < NBINS ensures SameRoot(m.tries, t, j) {
    }
  }

  /** The first node of a bin. */
  method LinkRoot(m: MState, x: int, s: nat, i: nat, ghost t: Tries)
    requires m.Stored() && x !in t.held && Primed(t, m.tries, x, s, i) && i < NBINS && FreeKey(t, RootKey(i))
    modifies m`mem, m`tries
    ensures m.Stored() && m.tries == AddNode(t, x, s, RootKey(i)) && Quiet(old(m.mem), m.mem, m.L)
  {
    hide MState.Stored, FreeKey, Tagged, Tailed;
    ghost var v := m.tries;
    PutRoot(m, i, x);
    PutUp(m, x, TreeBin(i));
    PutTreeFd(m, x, x);
    PutTreeBk(m, x, x);
    LinkedRoot(t, v, x, s, i);
    SettleTries(m, AddNode(t, x, s, RootKey(i)));
  }

  lemma LinkedRoot(t: Tries, v: Tries, x: int, s: nat, i: nat)
    requires x !in t.held && Primed(t, v, x, s, i) && i < NBINS && FreeKey(t, RootKey(i))
    ensures Alike(v.(root := v.root[i := x], up := v.up[x := TreeBin(i)], fd := v.fd[x := x], bk := v.bk[x := x]),
                  AddNode(t, x, s, RootKey(i)))
  {
    var w := v.(root := v.root[i := x], up := v.up[x := TreeBin(i)], fd := v.fd[x := x], bk := v.bk[x := x]);
    var u := AddNode(t, x, s, RootKey(i));
    forall p {:trigger SameLinks(w, u, p)} | p in u.held ensures p in w.held && SameLinks(w, u, p) {
      assert p != x ==> SameLinks(t, v, p);
    }
    forall j {:trigger SameRoot(w, u, j)} | 0 <= j < NBINS ensures SameRoot(w, u, j) {
    }
  }

  /** A new leaf below the node at `k`. */
  method LinkLeaf(m: MState, x: int, s: nat, T: int, c: nat, ghost t: Tries, ghost k: Key)
    requires m.Stored() && x !in t.held && k.bin < NBINS && Primed(t, m.tries, x, s, k.bin)
    requires k in t.slot && KeyRange(k) && t.slot[k] == T && T in t.held && c <= 1 && FreeKey(t, ChildKey(k, c))
    requires OkAddress(m, T)
    modifies m`mem, m`tries
    ensures m.Stored() && m.tries == AddNode(t, x, s, ChildKey(k, c)) && Quiet(old(m.mem), m.mem, m.L)
  {
    hide Tiled, Tagged, Bins, RingsStored, OffState, TriesStored, MState.Stored;
    ghost var v := m.tries;
    assert OkAddress(m, T + LEFT + WORD * c);   // RTCHECK
    if c == 0 {
      PutLeft(m, T, x);
    } else {
      PutRight(m, T, x);
    }
    PutUp(m, x, T);
    PutTreeFd(m, x, x);
    PutTreeBk(m, x, x);
    LinkedLeaf(t, v, m.tries, x, s, k, c);
    SettleTries(m, AddNode(t, x, s, ChildKey(k, c)));
  }

  lemma LinkedLeaf(t: Tries, v: Tries, w: Tries, x: int, s: nat, k: Key, c: nat)
    requires x !in t.held && Primed(t, v, x, s, k.bin) && k in t.slot && t.slot[k] in t.held && c <= 1
    requires FreeKey(t, ChildKey(k, c)) && KeyRange(k)
    requires w.held == v.held && w.root == v.root && w.tag == v.tag
    requires w.left == (if c == 0 then v.left[t.slot[k] := x] else v.left)
    requires w.right == (if c == 0 then v.right else v.right[t.slot[k] := x])
    requires w.up == v.up[x := t.slot[k]] && w.fd == v.fd[x := x] && w.bk == v.bk[x := x]
    ensures Alike(w, AddNode(t, x, s, ChildKey(k, c)))
  {
    var d := ChildKey(k, c);
    assert ParentKey(d) == k && !IsRoot(d) && (OnLeft(d) <==> c == 0) && (OnRight(d) <==> c == 1);
    var u := AddNode(t, x, s, d);
    assert u.left == (if c == 0 then t.left[t.slot[k] := x] else t.left)[x := 0];
    assert u.right == (if c == 0 then t.right else t.right[t.slot[k] := x])[x := 0];
    forall p {:trigger SameLinks(w, u, p)} | p in u.held ensures p in w.held && SameLinks(w, u, p) {
      LeafLinks(t, v, w, u, x, t.slot[k], c, k.bin, p);
    }
    forall j {:trigger SameRoot(w, u, j)} | 0 <= j < NBINS ensures SameRoot(w, u, j) {
    }
  }

  lemma LeafLinks(t: Tries, v: Tries, w: Tries, u: Tries, x: int, a: int, c: nat, i: int, p: int)
    requires x != a && (p != x ==> SameLinks(t, v, p)) && At(v.tag, x) == i && At(v.left, x) == 0 && At(v.right, x) == 0
    requires w.left == (if c == 0 then v.left[a := x] else v.left)
    requires w.right == (if c == 0 then v.right else v.right[a := x])
    requires u.left == (if c == 0 then t.left[a := x] else t.left)[x := 0]
    requires u.right == (if c == 0 then t.right else t.right[a := x])[x := 0]
    requires w.up == v.up[x := a] && w.fd == v.fd[x := x] && w.bk == v.bk[x := x] && w.tag == v.tag
    requires u.up == t.up[x := a] && u.fd == t.fd[x := x] && u.bk == t.bk[x := x] && u.tag == t.tag[x := i]
    ensures SameLinks(w, u, p)
  {
    SamePut(v.up, t.up, x, a, p);
    SamePut(v.fd, t.fd, x, x, p);
    SamePut(v.bk, t.bk, x, x, p);
    SameAfter(v.tag, t.tag, x, i, p);
    if p != x {
      SamePut(v.left, t.left, a, x, p);
      SamePut(v.right, t.right, a, x, p);
    }
    PutOther(v.left, a, x, x);
    PutOther(v.right, a, x, x);
    if c == 0 {
      SameAfter(v.left[a := x], t.left[a := x], x, 0, p);
      SameAfter(v.right, t.right, x, 0, p);
    } else {
      SameAfter(v.left, t.left, x, 0, p);
      SameAfter(v.right[a := x], t.right[a := x], x, 0, p);
    }
  }

  /** A chunk of a size already there joins the ring behind the node. */
  method LinkChained(m: MState, x: int, s: nat, T: int, ghost t: Tries)
    requires m.Stored() && x !in t.held && Primed(t, m.tries, x, s, TreeIndex(s)) && TB.Valid(t) && s in t.node
    requires t.node[s] == T
    modifies m`mem, m`tries
    ensures m.Stored() && m.tries == AddChained(t, x, s) && Quiet(old(m.mem), m.mem, m.L)
  {
    hide MState.Stored, TreeIndex, Quiet, At, OkAddress;
    ghost var v := m.tries;
    PrimedEmbeds(m, t, x, s, TreeIndex(s));
    assert SizeHeld(t, s);
    assert RingOk(t, T);
    ReadNode(m, t, T);
    var F := At(m.mem, T + FD);
    ReadNode(m, t, F);
    assert OkAddress(m, T) && OkAddress(m, F);   // RTCHECK
    PutChain(m, x, T, F);
    LinkedChained(t, v, m.tries, x, s);
    SettleTries(m, AddChained(t, x, s));
  }

  /** `T->fd = F->bk = X; X->fd = F; X->bk = T; X->parent = 0` */
  method PutChain(m: MState, x: int, T: int, F: int)
    requires m.Stored() && x in m.tries.held && T in m.tries.held && F in m.tries.held
    modifies m`mem, m`tries
    ensures m.Stored() && Quiet(old(m.mem), m.mem, m.L)
    ensures var t := old(m.tries);
            m.tries == t.(fd := t.fd[T := x][x := F], bk := t.bk[F := x][x := T], up := t.up[x := 0])
  {
    PutTreeBk(m, F, x);
    PutTreeFd(m, T, x);
    PutTreeFd(m, x, F);
    PutTreeBk(m, x, T);
    PutUp(m, x, 0);
  }

  lemma LinkedChained(t: Tries, v: Tries, w: Tries, x: int, s: nat)
    requires x !in t.held && Primed(t, v, x, s, TreeIndex(s)) && s in t.node
    requires w == v.(fd := v.fd[t.node[s] := x][x := At(t.fd, t.node[s])],
                    bk := v.bk[At(t.fd, t.node[s]) := x][x := t.node[s]], up := v.up[x := 0])
    ensures Alike(w, AddChained(t, x, s))
  {
    var u := AddChained(t, x, s);
    var T, F := t.node[s], At(t.fd, t.node[s]);
    forall p {:trigger SameLinks(w, u, p)} | p in u.held ensures p in w.held && SameLinks(w, u, p) {
      assert p != x ==> SameLinks(t, v, p);
      if p != x {
        SamePut(v.fd, t.fd, T, x, p);
        SamePut(v.bk, t.bk, F, x, p);
      }
      SamePut(v.fd[T := x], t.fd[T := x], x, F, p);
      SamePut(v.bk[F := x], t.bk[F := x], x, T, p);
      SamePut(v.up, t.up, x, 0, p);
      SameAfter(v.left, t.left, x, 0, p);
      SameAfter(v.right, t.right, x, 0, p);
      SameAfter(v.tag, t.tag, x, TreeIndex(s), p);
    }
    forall j {:trigger SameRoot(w, u, j)} | 0 <= j < NBINS ensures SameRoot(w, u, j) {
    }
  }

  /** The bin of a size, and whether it is empty. */
  lemma BinOfSize(m: MState, x: int, s: nat)
    requires m.Stored() && m.Indexed() && x in m.L && SizeOk(s)
    ensures MIN_LARGE <= s && SmallBins.Outside(x)
    ensures var i := TreeIndex(s); i < NBINS && (Marked(m.treemap, i) <==> RootKey(i) in m.tries.slot)
  {
    hide Tiled, Tagged, Bins, RingsStored, TriesStored, OffState, LeastOk, Tailed, Foreign, Marked, TreeIndex;
    FitsRoot(s);
    ChunkAt(m.L, m.S, x);
    ClearOfState(m.L, m.S, x, 0);
    MarkedIsBit(m.treemap, TreeIndex(s));
    assert RootOk(m.tries, TreeIndex(s));
  }

  method InsertLarge(m: MState, x: int, s: nat)
    requires m.Stored() && m.Indexed() && m.staleHeads == {} && x in m.L && m.L[x].kind.Loose? && m.L[x].size == s
    requires SizeOk(s)
    modifies m`mem, m`treemap, m`L, m`tries
    ensures m.Stored() && m.Indexed()
    ensures m.L == Reuse(old(m.L), x, Binned)
    ensures TB.Contents(m.tries) == TB.Contents(old(m.tries))[x := s]
    ensures Quiet(old(m.mem), m.mem, m.L)
  {
    hide MState.Stored, TB.Valid, TB.Contents, TreeIndex, Mark, Marked, Primed, SizeOk, Reuse;
    ghost var t := m.tries;
    var i := TreeIndex(s);
    BinOfSize(m, x, s);
    Prime(m, x, s, i);
    if !Marked(m.treemap, i) {
      m.treemap := Mark(m.treemap, i);
      InsertFirst(m, x, s, i, t);
    } else {
      InsertBelow(m, x, s, i, t);
    }
  }

  method InsertFirst(m: MState, x: int, s: nat, i: nat, ghost t: Tries)
    requires m.Stored() && TB.Valid(t) && SizeOk(s) && i == TreeIndex(s) < NBINS && m.treemap == Mark(t.binmap, i)
    requires x !in t.held && SmallBins.Outside(x) && Primed(t, m.tries, x, s, i) && RootKey(i) !in t.slot
    modifies m`mem, m`tries
    ensures m.Stored() && TB.Valid(m.tries) && m.treemap == m.tries.binmap
    ensures TB.Contents(m.tries) == TB.Contents(t)[x := s]
    ensures Quiet(old(m.mem), m.mem, m.L)
  {
    hide MState.Stored, TreesOk, RingsOk, Settled, TB.Contents, Fits, TreeIndex;
    NewBin(t, s);
    LinkRoot(m, x, s, i, t);
    AddNodeValid(t, x, s, RootKey(i));
  }

  lemma NewBin(t: Tries, s: nat)
    requires TB.Valid(t) && SizeOk(s) && RootKey(TreeIndex(s)) !in t.slot
    ensures TreeIndex(s) < NBINS && FreeKey(t, RootKey(TreeIndex(s))) && Fits(s, RootKey(TreeIndex(s))) && s !in t.node
  {
    FitsRoot(s);
    if s in t.node {
      var p := t.node[s];
      assert SizeHeld(t, s);
      assert RingOk(t, p) && FitOk(t, p);
      RootCovers(t, p);
    }
  }

  method InsertBelow(m: MState, x: int, s: nat, i: nat, ghost t: Tries)
    requires m.Stored() && m.staleHeads == {} && TB.Valid(t) && m.treemap == t.binmap && SizeOk(s)
    requires i == TreeIndex(s) < NBINS
    requires x !in t.held && SmallBins.Outside(x) && Primed(t, m.tries, x, s, i) && RootKey(i) in t.slot
    modifies m`mem, m`tries
    ensures m.Stored() && TB.Valid(m.tries) && m.treemap == m.tries.binmap
    ensures TB.Contents(m.tries) == TB.Contents(t)[x := s]
    ensures Quiet(old(m.mem), m.mem, m.L)
  {
    PrimedEmbeds(m, t, x, s, i);
    var T, c, found, k := FindPlace(m, s, i, t);
    if found {
      LinkChained(m, x, s, T, t);
      AddChainedValid(t, x, s);
    } else {
      assert KeyOk(t, k);
      LinkLeaf(m, x, s, T, c, t, k);
      AddNodeValid(t, x, s, ChildKey(k, c));
    }
  }

  // ---- unlink_large_chunk

  function Repointed(t: Tries, k: Key, r: int): Tries
    requires !IsRoot(k) ==> ParentKey(k) in t.slot
  {
    t.(root := SetRoot(t, k, r), left := SetLeft(t, k, r), right := SetRight(t, k, r))
  }

  lemma EmbedSelf(m: MState)
    ensures Embedded(m, m.tries)
  {
    forall p {:trigger SameLinks(m.tries, m.tries, p)} | p in m.tries.held
      ensures p in m.tries.held && SameLinks(m.tries, m.tries, p)
    {
    }
    forall j {:trigger SameRoot(m.tries, m.tries, j)} | 0 <= j < NBINS ensures SameRoot(m.tries, m.tries, j) {
    }
  }

  /** A node of the trie, its index word right. */
  ghost predicate Placed(t: Tries, x: int) {
    && TreesOk(t) && x in t.held && t.held[x].role.InTree? && 0 !in t.held && FitOk(t, x)
    && (!IsRoot(t.held[x].key) ==> ParentKey(t.held[x].key) in t.slot)
  }

  lemma NodePlaced(t: Tries, x: int)
    requires TreesOk(t) && RingsOk(t) && IsNode(t, x)
    ensures Placed(t, x) && CanRemove(t, x)
  {
    NodeCanRemove(t, x);
    assert FitOk(t, x);
  }

  /** The word that points to the node `x` is set to `R`: the root of its bin, or a child of `XP`. */
  method Repoint(m: MState, x: int, XP: int, R: int)
    requires m.Stored() && Placed(m.tries, x) && XP == At(m.tries.up, x)
    modifies m`mem, m`tries
    ensures m.Stored() && m.tries == Repointed(old(m.tries), old(m.tries).held[x].key, R)
    ensures Quiet(old(m.mem), m.mem, m.L)
  {
    ghost var t := m.tries;
    EmbedSelf(m);
    ReadNode(m, t, x);
    NodeLinks(t, x);
    ghost var k := t.held[x].key;
    var i := At(m.mem, x + TAG);
    assert RootOk(t, i) && RootWord(m.mem, t, i);
    RootOrChild(t, x);
    var H := At(m.mem, TreeBin(i));
    if x == H {
      PutRoot(m, i, R);
    } else {
      ReadNode(m, t, XP);
      assert OkAddress(m, XP);   // RTCHECK
      if At(m.mem, XP + LEFT) == x {
        PutLeft(m, XP, R);
      } else {
        PutRight(m, XP, R);
      }
    }
  }

  lemma RootOrChild(t: Tries, x: int)
    requires Placed(t, x)
    ensures At(t.root, t.held[x].key.bin) == x <==> IsRoot(t.held[x].key)
    ensures !IsRoot(t.held[x].key) ==> At(t.up, x) in t.held && At(t.up, x) == t.slot[ParentKey(t.held[x].key)]
    ensures !IsRoot(t.held[x].key) ==> (At(t.left, At(t.up, x)) == x <==> OnLeft(t.held[x].key))
  {
    NodeLinks(t, x);
    var k := t.held[x].key;
    assert RootOk(t, k.bin);
    assert RootKey(k.bin) in t.slot ==> KeyOk(t, RootKey(k.bin));
    if !IsRoot(k) {
      var d := ParentKey(k);
      var a := t.slot[d];
      NodeLinks(t, a);
      assert ChildKey(d, 0) == k <==> OnLeft(k);
      assert ChildKey(d, 0) in t.slot ==> KeyOk(t, ChildKey(d, 0));
    }
  }

  function Grafted(w: Words, r: int, c: int): Words {
    if c != 0 then w[r := c] else w
  }

  /** `R` takes over the parent and the children of `x`. */
  method Inherit(m: MState, x: int, XP: int, R: int)
    requires m.Stored() && x in m.tries.held && R in m.tries.held && R != x
    requires At(m.tries.left, x) != 0 ==> At(m.tries.left, x) in m.tries.held
    requires At(m.tries.right, x) != 0 ==> At(m.tries.right, x) in m.tries.held
    modifies m`mem, m`tries
    ensures m.Stored() && Quiet(old(m.mem), m.mem, m.L)
    ensures var t := old(m.tries);
            var c0, c1 := At(t.left, x), At(t.right, x);
            m.tries == t.(up := Relink(Relink(t.up[R := XP], c0, R), c1, R), left := Grafted(t.left, R, c0),
                right := Grafted(t.right, R, c1))
  {
    ghost var t := m.tries;
    EmbedSelf(m);
    ReadNode(m, t, x);
    ReadNode(m, t, R);
    assert OkAddress(m, R);   // RTCHECK
    PutUp(m, R, XP);
    assert NodeWords(m.mem, m.tries, x);
    var C0 := At(m.mem, x + LEFT);
    if C0 != 0 {
      AddressOfNode(m, C0);
      assert OkAddress(m, C0);   // RTCHECK
      PutLeft(m, R, C0);
      PutUp(m, C0, R);
    }
    assert NodeWords(m.mem, m.tries, x);
    var C1 := At(m.mem, x + RIGHT);
    if C1 != 0 {
      AddressOfNode(m, C1);
      assert OkAddress(m, C1);   // RTCHECK
      PutRight(m, R, C1);
      PutUp(m, C1, R);
    }
  }

  lemma AddressOfNode(m: MState, p: int)
    requires m.Stored() && p in m.tries.held
    ensures OkAddress(m, p)
  {
    assert BinnedAt(m.L, m.rings, m.tries, p);
    ChunkAddressOk(m, p);
  }

  /** Both parts of taking the place of `x`. */
  method TakePlace(m: MState, x: int, XP: int, R: int)
    requires m.Stored() && CanSwap(m.tries, x, R) && FitOk(m.tries, x) && XP == At(m.tries.up, x)
    modifies m`mem, m`tries
    ensures m.Stored() && Quiet(old(m.mem), m.mem, m.L)
    ensures m.tries.held == old(m.tries).held && Alike(m.tries, Swap(old(m.tries), x, R))
  {
    hide MState.Stored;
    ghost var t := m.tries;
    NodeLinks(t, x);
    Repoint(m, x, XP, R);
    RepointedAway(t, x, R);
    Inherit(m, x, XP, R);
    SwappedAlike(t, m.tries, x, R);
  }

  lemma RepointedAway(t: Tries, x: int, r: int)
    requires CanSwap(t, x, r)
    ensures var u := Repointed(t, t.held[x].key, r);
            At(u.left, x) == At(t.left, x) && At(u.right, x) == At(t.right, x)
            && At(u.left, r) == At(t.left, r) && At(u.right, r) == At(t.right, r)
  {
    var k := t.held[x].key;
    assert NodeOk(t, x);
    if !IsRoot(k) {
      assert KeyOk(t, ParentKey(k));
      var a := t.slot[ParentKey(k)];
      PutOther(t.left, a, r, x);
      PutOther(t.right, a, r, x);
      PutOther(t.left, a, r, r);
      PutOther(t.right, a, r, r);
    }
  }

  lemma GraftedAlike(w: Words, r: int, c: int, p: int)
    requires At(w, r) == 0
    ensures At(Grafted(w, r, c), p) == At(w[r := c], p)
  {
  }

  lemma SwappedAlike(t: Tries, v: Tries, x: int, r: int)
    requires CanSwap(t, x, r)
    requires var k := t.held[x].key;
             var c0, c1 := At(t.left, x), At(t.right, x);
             v == t.(root := SetRoot(t, k, r), up := Relink(Relink(t.up[r := At(t.up, x)], c0, r), c1, r),
                     left := Grafted(SetLeft(t, k, r), r, c0), right := Grafted(SetRight(t, k, r), r, c1))
    ensures Alike(v, Swap(t, x, r))
  {
    var u := Swap(t, x, r);
    var k := t.held[x].key;
    RepointedAway(t, x, r);
    assert NodeOk(t, r);
    forall p {:trigger SameLinks(v, u, p)} | p in u.held ensures p in v.held && SameLinks(v, u, p) {
      GraftedAlike(SetLeft(t, k, r), r, At(t.left, x), p);
      GraftedAlike(SetRight(t, k, r), r, At(t.right, x), p);
    }
    forall j {:trigger SameRoot(v, u, j)} | 0 <= j < NBINS ensures SameRoot(v, u, j) {
    }
  }

  /** `R` is a child of `P`, on the given side, and both are below `x`. */
  ghost predicate Descending(t: Tries, x: int, P: int, R: int, onRight: bool) {
    && IsNode(t, x) && IsNode(t, R) && P in t.held && R != x
    && InSub(t, R, t.held[x].key) && Fits(t.held[R].size, t.held[x].key)
    && var k := t.held[R].key;
    && k.lvl >= -1 && !IsRoot(k) && ParentKey(k) in t.slot && t.slot[ParentKey(k)] == P && t.held[P].key == ParentKey(k)
    && (onRight <==> OnRight(k))
  }

  lemma DescendStep(t: Tries, x: int, P: int, c: nat)
    requires TB.Valid(t) && IsNode(t, x) && InSub(t, P, t.held[x].key) && c <= 1 && ChildKey(t.held[P].key, c) in t.slot
    ensures Descending(t, x, P, t.slot[ChildKey(t.held[P].key, c)], c == 1)
  {
    RightStep(t, x, P, c);
    var k := ChildKey(t.held[P].key, c);
    assert NodeOk(t, P);
    assert KeyOk(t, k) && KeyOk(t, t.held[P].key);
    assert ParentKey(k) == t.held[P].key;
  }

  /** The right child of a node below `x`, or else the left one, or null. */
  method LastChild(m: MState, P: int, ghost x: int) returns (C: int, right: bool)
    requires m.Stored() && TB.Valid(m.tries) && IsNode(m.tries, x) && InSub(m.tries, P, m.tries.held[x].key)
    ensures C == 0 <==> IsLeaf(m.tries, P)
    ensures C != 0 ==> Descending(m.tries, x, P, C, right)
  {
    ghost var t := m.tries;
    EmbedSelf(m);
    assert NodeOk(t, P);
    ReadNode(m, t, P);
    ReadChild(m, t, t.held[P].key, 0);
    ReadChild(m, t, t.held[P].key, 1);
    C := At(m.mem, P + RIGHT);
    right := C != 0;
    if C == 0 {
      C := At(m.mem, P + LEFT);
    }
    if C != 0 {
      DescendStep(t, x, P, if right then 1 else 0);
    }
  }

  /** The rightmost leaf below a node that has children, with the node above it. */
  method RightmostLeaf(m: MState, x: int) returns (R: int, P: int, onRight: bool)
    requires m.Stored() && TB.Valid(m.tries) && IsNode(m.tries, x) && !IsLeaf(m.tries, x)
    ensures IsLeaf(m.tries, R) && Descending(m.tries, x, P, R, onRight)
  {
    assert Below(m.tries.held[x].key, m.tries.held[x].key);
    P := x;
    R, onRight := LastChild(m, x, x);
    var C, right := LastChild(m, R, x);
    while C != 0
      invariant Descending(m.tries, x, P, R, onRight)
      invariant C == 0 <==> IsLeaf(m.tries, R)
      invariant C != 0 ==> Descending(m.tries, x, R, C, right)
      decreases m.tries.held[R].key.lvl + 1
    {
      P, R, onRight := R, C, right;
      C, right := LastChild(m, R, x);
    }
  }

  /** `*RP = 0`: the leaf is cut off. */
  method CutLeaf(m: MState, x: int, R: int, P: int, onRight: bool)
    requires m.Stored() && TB.Valid(m.tries) && IsLeaf(m.tries, R) && Descending(m.tries, x, P, R, onRight)
    modifies m`mem, m`tries
    ensures m.Stored() && CanDrop(old(m.tries), R) && m.tries == DropLeaf(old(m.tries), R)
    ensures Quiet(old(m.mem), m.mem, m.L)
  {
    ghost var t := m.tries;
    LeafCanDrop(t, R);
    AddressOfNode(m, P);
    assert OkAddress(m, if onRight then P + RIGHT else P + LEFT);   // RTCHECK
    if onRight {
      PutRight(m, P, 0);
    } else {
      PutLeft(m, P, 0);
    }
    ghost var u := DropLeaf(t, R);
    forall p {:trigger SameLinks(m.tries, u, p)} | p in u.held ensures p in m.tries.held && SameLinks(m.tries, u, p) {
    }
    forall j {:trigger SameRoot(m.tries, u, j)} | 0 <= j < NBINS ensures SameRoot(m.tries, u, j) {
    }
    SettleTries(m, u);
  }

  // ---- the cases of unlink_large_chunk, as methods on memory

  /** What the case leaves: the chunk is loose and the tries have lost exactly it. */
  ghost predicate Unlinked(L: Chunks, L': Chunks, t: Tries, u: Tries, x: int) {
    x in L && L' == Reuse(L, x, Loose) && TB.Valid(u) && TB.Contents(u) == TB.Contents(t) - {x}
  }

  /** An inner node alone in its ring: its rightmost leaf replaces it. */
  method ReplaceInner(m: MState, x: int, XP: int) returns (ghost R: int)
    requires m.Stored() && TB.Valid(m.tries) && IsNode(m.tries, x) && !IsLeaf(m.tries, x)
    requires At(m.tries.bk, x) == x && XP == At(m.tries.up, x)
    modifies m`mem, m`tries
    ensures m.Stored() && Quiet(old(m.mem), m.mem, m.L)
    ensures CanReplace(old(m.tries), x, R) && !IsRoot(old(m.tries).held[R].key)
    ensures m.tries.held.Keys == old(m.tries).held.Keys
    ensures Alike(m.tries, Swap(DropLeaf(old(m.tries), R), x, R))
    ensures forall p {:trigger m.tries.held[p]} :: p in m.tries.held ==>
              m.tries.held[p].size == old(m.tries).held[p].size
  {
    hide Tiled, Tagged, Bins, RingsStored, TriesStored, OffState, LeastOk, Tailed, Foreign, IsLeaf, At, CanReplace;
    hide IsRoot, Alike, Swap;
    ghost var t := m.tries;
    var r, P, onRight := RightmostLeaf(m, x);
    NodePlaced(t, x);
    LeafCanReplace(t, x, r);
    DropLeafTrees(t, r);
    CutLeaf(m, x, r, P, onRight);
    TakePlace(m, x, XP, r);
    R := r;
  }

  method UnlinkInner(m: MState, x: int, XP: int)
    requires m.Stored() && TB.Valid(m.tries) && m.treemap == m.tries.binmap && IsNode(m.tries, x) && !IsLeaf(m.tries, x)
    requires At(m.tries.bk, x) == x && XP == At(m.tries.up, x)
    modifies m`mem, m`L, m`tries
    ensures m.Stored() && m.treemap == m.tries.binmap && Unlinked(old(m.L), m.L, old(m.tries), m.tries, x)
    ensures Quiet(old(m.mem), m.mem, m.L)
  {
    hide MState.Stored, Swap, Contents, At, Quiet;
    ghost var t := m.tries;
    ghost var R := ReplaceInner(m, x, XP);
    RemoveInnerOk(t, x, R);
    AlikeNode(m.tries, Swap(DropLeaf(t, R), x, R), t.node - {t.held[x].size});
    InnerFields(t, x, R);
    ReleaseLarge(m, x, RemoveInner(t, x, R));
    QuietWithin(old(m.mem), m.mem, m.L, old(m.L));
  }

  lemma InnerFields(t: Tries, x: int, r: int)
    requires CanReplace(t, x, r) && !IsRoot(t.held[r].key)
    ensures var u := RemoveInner(t, x, r);
            && u.held.Keys == t.held.Keys - {x} && u.binmap == t.binmap
            && forall p {:trigger u.held[p]} :: p in u.held ==> u.held[p].size == t.held[p].size
  {
  }

  lemma AlikeNode(v: Tries, u: Tries, n: map<nat, int>)
    requires Alike(v, u)
    ensures Alike(v, u.(node := n))
  {
    var w := u.(node := n);
    forall p {:trigger p in w.held} | p in w.held ensures p in v.held && SameLinks(v, w, p) {
      assert SameLinks(v, u, p);
    }
    forall j {:trigger SameRoot(v, w, j)} | 0 <= j < NBINS ensures SameRoot(v, w, j) {
      assert SameRoot(v, u, j);
    }
  }

  /** `F->bk = R; R->fd = F` */
  method PutClosed(m: MState, x: int)
    requires m.Stored() && RingsOk(m.tries) && x in m.tries.held
    modifies m`mem, m`tries
    ensures m.Stored() && m.tries == CloseRing(old(m.tries), x) && Quiet(old(m.mem), m.mem, m.L)
  {
    ghost var t := m.tries;
    assert RingOk(t, x);
    assert NodeWords(m.mem, t, x);
    var F, R := At(m.mem, x + FD), At(m.mem, x + BK);
    assert NodeWords(m.mem, t, F) && NodeWords(m.mem, t, R);
    AddressOfNode(m, F);
    assert OkAddress(m, F) && At(m.mem, F + BK) == x && At(m.mem, R + FD) == x;   // RTCHECK
    PutTreeBk(m, F, R);
    PutTreeFd(m, R, F);
  }

  /** A node with other chunks on its ring. */
  method UnlinkHead(m: MState, x: int, XP: int)
    requires m.Stored() && TB.Valid(m.tries) && m.treemap == m.tries.binmap && IsNode(m.tries, x)
    requires At(m.tries.bk, x) != x && XP == At(m.tries.up, x)
    modifies m`mem, m`L, m`tries
    ensures m.Stored() && m.treemap == m.tries.binmap && Unlinked(old(m.L), m.L, old(m.tries), m.tries, x)
    ensures Quiet(old(m.mem), m.mem, m.L)
  {
    hide Tiled, Tagged, Bins, RingsStored, OffState, LeastOk, Tailed, Foreign, IsNode, At;
    ghost var t := m.tries;
    NodePlaced(t, x);
    HeadCanSwap(t, x);
    var R := At(m.mem, x + BK);
    assert NodeWords(m.mem, t, x);
    PutClosed(m, x);
    TakePlace(m, x, XP, R);
    RemoveHeadOk(t, x);
    AlikeNode(m.tries, Swap(CloseRing(t, x), x, R), t.node[t.held[x].size := R]);
    ReleaseLarge(m, x, RemoveHead(t, x));
    QuietWithin(old(m.mem), m.mem, m.L, old(m.L));
  }

  /** A chunk on the ring of a node. */
  method UnlinkChained(m: MState, x: int)
    requires m.Stored() && TB.Valid(m.tries) && m.treemap == m.tries.binmap && x in m.tries.held
    requires m.tries.held[x].role.Chained?
    modifies m`mem, m`L, m`tries
    ensures m.Stored() && m.treemap == m.tries.binmap && Unlinked(old(m.L), m.L, old(m.tries), m.tries, x)
    ensures Quiet(old(m.mem), m.mem, m.L)
  {
    ghost var t := m.tries;
    PutClosed(m, x);
    RemoveChainedOk(t, x);
    ghost var u := RemoveChained(t, x);
    forall p {:trigger SameLinks(m.tries, u, p)} | p in u.held ensures p in m.tries.held && SameLinks(m.tries, u, p) {
    }
    forall j {:trigger SameRoot(m.tries, u, j)} | 0 <= j < NBINS ensures SameRoot(m.tries, u, j) {
    }
    ReleaseLarge(m, x, u);
    QuietWithin(old(m.mem), m.mem, m.L, old(m.L));
  }

  /** What memory says about a leaf and its bin. */
  lemma LeafWords(m: MState, x: int)
    requires m.Stored() && TB.Valid(m.tries) && IsLeaf(m.tries, x)
    ensures Placed(m.tries, x)
    ensures var t, i := m.tries, At(m.mem, x + TAG);
            && 0 <= i == t.held[x].key.bin < NBINS && (At(m.mem, TreeBin(i)) == x <==> IsRoot(t.held[x].key))
  {
    var t := m.tries;
    NodePlaced(t, x);
    RootOrChild(t, x);
    assert NodeWords(m.mem, t, x) && FitOk(t, x) && NodeOk(t, x);
    assert RootWord(m.mem, t, t.held[x].key.bin) && KeyOk(t, t.held[x].key);
  }

  /** A leaf alone in its ring: nothing replaces it, and its bin may become empty. */
  method UnlinkLast(m: MState, x: int, XP: int)
    requires m.Stored() && TB.Valid(m.tries) && m.treemap == m.tries.binmap && IsLeaf(m.tries, x)
    requires At(m.tries.bk, x) == x && XP == At(m.tries.up, x)
    modifies m`mem, m`treemap, m`L, m`tries
    ensures m.Stored() && m.treemap == m.tries.binmap && Unlinked(old(m.L), m.L, old(m.tries), m.tries, x)
    ensures Quiet(old(m.mem), m.mem, m.L)
  {
    hide MState.Stored, RingsOk, TreesOk, TB.Contents, Alike, Clear, IsRoot, At;
    ghost var t := m.tries;
    LeafWords(m, x);
    var i := At(m.mem, x + TAG);
    var H := At(m.mem, TreeBin(i));
    RemoveLastOk(t, x);
    Repoint(m, x, XP, 0);
    if H == x {
      m.treemap := Clear(m.treemap, i);
    }
    LastFields(t, x);
    ReleaseLarge(m, x, Forget(DropLeaf(t, x), x));
    QuietWithin(old(m.mem), m.mem, m.L, old(m.L));
  }

  lemma LastFields(t: Tries, x: int)
    requires CanDrop(t, x)
    ensures var u := Forget(DropLeaf(t, x), x);
            && Alike(Repointed(t, t.held[x].key, 0), u) && u.held.Keys == t.held.Keys - {x}
            && (forall p {:trigger u.held[p]} :: p in u.held ==> u.held[p].size == t.held[p].size)
            && u.binmap == if IsRoot(t.held[x].key) then Clear(t.binmap, t.held[x].key.bin) else t.binmap
  {
    hide TreesOk, RingsOk, Clear, IsRoot;
    var v := Repointed(t, t.held[x].key, 0);
    var u := Forget(DropLeaf(t, x), x);
    forall p {:trigger SameLinks(v, u, p)} | p in u.held ensures p in v.held && SameLinks(v, u, p) {
    }
    forall j {:trigger SameRoot(v, u, j)} | 0 <= j < NBINS ensures SameRoot(v, u, j) {
    }
  }

  /** `unlink_large_chunk` */
  method UnlinkLarge(m: MState, x: int)
    requires m.Stored() && m.Indexed() && x in m.tries.held
    modifies m`mem, m`treemap, m`L, m`tries
    ensures m.Stored() && m.Indexed()
    ensures Unlinked(old(m.L), m.L, old(m.tries), m.tries, x) && Quiet(old(m.mem), m.mem, m.L)
  {
    ghost var t := m.tries;
    assert NodeWords(m.mem, t, x) && NodeOk(t, x);
    var XP := At(m.mem, x + UP);
    ParentWord(t, x);
    if At(m.mem, x + BK) != x {
      if XP == 0 {
        UnlinkChained(m, x);
      } else {
        UnlinkHead(m, x, XP);
      }
    } else if At(m.mem, x + RIGHT) == 0 && At(m.mem, x + LEFT) == 0 {
      UnlinkLast(m, x, XP);
    } else {
      UnlinkInner(m, x, XP);
    }
  }

  /** Tree members are told by a non-null parent; a chained chunk is never alone. */
  lemma ParentWord(t: Tries, x: int)
    requires TB.Valid(t) && x in t.held
    ensures At(t.up, x) == 0 <==> t.held[x].role.Chained?
    ensures t.held[x].role.Chained? ==> At(t.bk, x) != x
  {
    assert NodeOk(t, x) && RingOk(t, x);
    if t.held[x].role.InTree? {
      NodeCanRemove(t, x);
      NodeLinks(t, x);
    }
  }
}
