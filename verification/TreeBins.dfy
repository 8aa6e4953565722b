/** The link words of the chunks in the tree bins.  Each bin is a bitwise trie over chunk sizes; chunks
    of one size form a ring with one of them, the oldest, in the trie.

    A place in a trie is a key: the bin, the bit that the node there tests, and the bits of the size
    above that bit.  A trie is then a map from keys to chunks that is closed under taking the parent
    key, and every child, parent and root word is determined by that map. */
module TreeBins {
  import opened Bits
  import opened BinMaps
  import opened Sizes
  import opened Words
  import opened SmallBins

  /** `treebin_at(M, i)` */
  function TreeBin(i: nat): int { STATE + 640 + 8 * i }

  datatype Role =
    | InTree    // a node of the trie
    | Chained   // on the ring of a node of the same size
    | Spare     // taken out of the trie to replace another node

  /** `lvl` is the bit tested there, `prefix` the bits above it. */
  datatype Key = Key(bin: nat, lvl: int, prefix: nat)

  /** `key` is the place of a node of the trie, `stamp` the time of insertion. */
  datatype Node = Node(size: nat, role: Role, key: Key, stamp: nat)

  datatype Tries = Tries(
    held: map<int, Node>,
    fd: Words, bk: Words,                              // same-size rings
    left: Words, right: Words, up: Words, tag: Words,  // child[0], child[1], parent, index
    root: Words,                                       // *treebin_at(M, i), by i
    binmap: BinMap,
    slot: map<Key, int>,                               // the nodes by key
    node: map<nat, int>,                               // the nodes by size
    clock: nat, born: Words)

  function ChildKey(k: Key, c: nat): Key { Key(k.bin, k.lvl - 1, 2 * k.prefix + c) }

  function ParentKey(k: Key): Key { Key(k.bin, k.lvl + 1, k.prefix / 2) }

  function RootKey(i: nat): Key { Key(i, TopBit(i), if i == NBINS - 1 then 0 else 2 + i % 2) }

  predicate IsRoot(k: Key) { k.lvl == TopBit(k.bin) }

  predicate KeyRange(k: Key) {
    k.bin < NBINS && -1 <= k.lvl <= TopBit(k.bin) && (IsRoot(k) ==> k == RootKey(k.bin))
  }

  /** The node at a key, or null. */
  function Lookup(t: Tries, k: Key): int {
    if k in t.slot then t.slot[k] else 0
  }

  // ---- the trie

  predicate NodeOk(t: Tries, p: int)
    requires p in t.held
  {
    var n := t.held[p];
    if n.role.InTree? then
      && n.key in t.slot && t.slot[n.key] == p
      && At(t.left, p) == Lookup(t, ChildKey(n.key, 0)) && At(t.right, p) == Lookup(t, ChildKey(n.key, 1))
      && At(t.up, p) == (if IsRoot(n.key) then TreeBin(n.key.bin) else Lookup(t, ParentKey(n.key)))
    else
      && At(t.left, p) == 0 && At(t.right, p) == 0 && (n.role.Chained? ==> At(t.up, p) == 0)
  }

  predicate KeyOk(t: Tries, k: Key)
    requires k in t.slot
  {
    && KeyRange(k)
    && t.slot[k] in t.held && t.held[t.slot[k]].role.InTree? && t.held[t.slot[k]].key == k
    && (!IsRoot(k) ==> ParentKey(k) in t.slot)
  }

  predicate RootOk(t: Tries, i: nat) {
    && At(t.root, i) == Lookup(t, RootKey(i))
    && (BitAt(t.binmap, i) <==> RootKey(i) in t.slot)
  }

  ghost predicate TreesOk(t: Tries) {
    && (forall p {:trigger NodeOk(t, p)} :: p in t.held ==> NodeOk(t, p))
    && (forall k {:trigger KeyOk(t, k)} :: k in t.slot ==> KeyOk(t, k))
    && (forall i {:trigger RootOk(t, i)} :: 0 <= i < NBINS ==> RootOk(t, i))
  }

  /** A size belongs at a key: its bin and its leading bits are those of the key. */
  predicate Fits(s: nat, k: Key) {
    KeyRange(k) && k.bin == TreeIndex(s) && k.prefix == Shr(s, k.lvl + 1)
  }

  predicate SizeOk(s: nat) { s % 8 == 0 && MIN_LARGE <= s < SPACE }

  predicate FitOk(t: Tries, p: int)
    requires p in t.held
  {
    && Outside(p) && SizeOk(t.held[p].size)
    && At(t.tag, p) == t.held[p].key.bin == TreeIndex(t.held[p].size)
    && (t.held[p].role.InTree? ==> Fits(t.held[p].size, t.held[p].key))
  }

  // ---- the rings

  /** Chunk `b` follows chunk `a` in the ring of their size. */
  predicate Beside(t: Tries, a: int, b: int) {
    && a in t.held && b in t.held && t.held[a].size == t.held[b].size
    && At(t.fd, a) == b && At(t.bk, b) == a
  }

  predicate LinkOk(t: Tries, p: int) {
    Beside(t, p, At(t.fd, p)) && Beside(t, At(t.bk, p), p)
  }

  /** The tree node of a size heads its ring; the others follow in order of age. */
  predicate RingOk(t: Tries, p: int)
    requires p in t.held
  {
    var n := t.held[p];
    && n.stamp < t.clock && At(t.born, n.stamp) == p
    && LinkOk(t, p)
    && n.size in t.node
    && var h := t.node[n.size];
    && h in t.held && t.held[h].size == n.size && !t.held[h].role.Chained?
    && (n.role.Chained? <==> p != h)
    && (p != h ==> t.held[h].stamp < n.stamp
                   && (At(t.fd, p) == h || t.held[At(t.fd, p)].stamp < n.stamp))
  }

  predicate SizeHeld(t: Tries, s: nat)
    requires s in t.node
  {
    t.node[s] in t.held && t.held[t.node[s]].size == s
  }

  ghost predicate RingsOk(t: Tries) {
    && (forall p {:trigger RingOk(t, p)} :: p in t.held ==> RingOk(t, p))
    && (forall p {:trigger FitOk(t, p)} :: p in t.held ==> FitOk(t, p))
    && (forall s {:trigger SizeHeld(t, s)} :: s in t.node ==> SizeHeld(t, s))
  }

  /** Between operations no chunk is spare. */
  ghost predicate Settled(t: Tries) {
    forall p {:trigger t.held[p]} :: p in t.held ==> !t.held[p].role.Spare?
  }

  ghost predicate Valid(t: Tries) {
    TreesOk(t) && RingsOk(t) && Settled(t)
  }

  function Contents(t: Tries): map<int, nat> {
    map p | p in t.held :: t.held[p].size
  }

  // ---- keys

  /** Every size of a bin belongs at the root of the bin. */
  lemma FitsRoot(s: nat)
    requires SizeOk(s)
    ensures TreeIndex(s) < NBINS && Fits(s, RootKey(TreeIndex(s)))
  {
    TreeIndexBrackets(s);
    if TreeIndex(s) == NBINS - 1 {
      Pow64();
      ShrZero(s, 64);
    } else {
      LeadingBits(s);
    }
  }

  /** A size that belongs at a key belongs at the child key on the side of its next bit, and at no other. */
  lemma FitsChild(s: nat, k: Key, c: nat)
    requires Fits(s, k) && k.lvl >= 0 && c <= 1
    ensures Fits(s, ChildKey(k, c)) <==> (c == 1 <==> BitAt(s, k.lvl))
  {
  }

  /** A key is the child of its parent key only, on the side of its last bit. */
  lemma ChildOf(k: Key, d: Key)
    ensures forall c {:trigger ChildKey(k, c)} :: 0 <= c <= 1 ==>
              (ChildKey(k, c) == d <==> ParentKey(d) == k && c == d.prefix % 2)
  {
  }

  /** A key with no node has no node below it. */
  lemma NothingBelow(t: Tries, k: Key, c: nat)
    requires TreesOk(t) && k !in t.slot && c <= 1 && KeyRange(k)
    ensures ChildKey(k, c) !in t.slot
  {
    var d := ChildKey(k, c);
    assert d in t.slot ==> KeyOk(t, d);
    assert ParentKey(d) == k;
  }

  // ---- insert_large_chunk: a new node

  /** A place for a new node: the root of an empty bin, or a free child of a node. */
  predicate FreeKey(t: Tries, k: Key) {
    k !in t.slot && KeyRange(k) && (!IsRoot(k) ==> ParentKey(k) in t.slot)
  }

  predicate OnLeft(k: Key) { !IsRoot(k) && k.prefix % 2 == 0 }

  predicate OnRight(k: Key) { !IsRoot(k) && k.prefix % 2 == 1 }

  // The words after the one that points to the place of a key is set to `v`.

  function SetRoot(t: Tries, k: Key, v: int): Words {
    if IsRoot(k) then t.root[k.bin := v] else t.root
  }

  function SetLeft(t: Tries, k: Key, v: int): Words
    requires !IsRoot(k) ==> ParentKey(k) in t.slot
  {
    if OnLeft(k) then t.left[t.slot[ParentKey(k)] := v] else t.left
  }

  function SetRight(t: Tries, k: Key, v: int): Words
    requires !IsRoot(k) ==> ParentKey(k) in t.slot
  {
    if OnRight(k) then t.right[t.slot[ParentKey(k)] := v] else t.right
  }

  function Above(t: Tries, k: Key): int
    requires !IsRoot(k) ==> ParentKey(k) in t.slot
  {
    if IsRoot(k) then TreeBin(k.bin) else t.slot[ParentKey(k)]
  }

  function AddNode(t: Tries, x: int, s: nat, k: Key): Tries
    requires FreeKey(t, k)
  {
    t.(held := t.held[x := Node(s, InTree, k, t.clock)],
       fd := t.fd[x := x], bk := t.bk[x := x],
       root := SetRoot(t, k, x), left := SetLeft(t, k, x)[x := 0], right := SetRight(t, k, x)[x := 0],
           up := t.up[x := Above(t, k)], tag := t.tag[x := k.bin],
       binmap := if IsRoot(k) then Mark(t.binmap, k.bin) else t.binmap,
       slot := t.slot[k := x], node := t.node[s := x],
       clock := t.clock + 1, born := t.born[t.clock := x])
  }

  ghost predicate CanAdd(t: Tries, x: int, s: nat, k: Key) {
    && TreesOk(t) && RingsOk(t) && x !in t.held && Outside(x) && SizeOk(s) && s !in t.node
    && FreeKey(t, k) && Fits(s, k)
  }

  lemma AddNodeNew(t: Tries, x: int, s: nat, k: Key)
    requires TreesOk(t) && x !in t.held && FreeKey(t, k)
    ensures NodeOk(AddNode(t, x, s, k), x)
  {
    NothingBelow(t, k, 0);
    NothingBelow(t, k, 1);
    if !IsRoot(k) {
      assert KeyOk(t, ParentKey(k));
    }
  }

  lemma AddNodeParent(t: Tries, x: int, s: nat, k: Key)
    requires TreesOk(t) && x !in t.held && FreeKey(t, k) && !IsRoot(k)
    ensures t.slot[ParentKey(k)] in t.held && NodeOk(AddNode(t, x, s, k), t.slot[ParentKey(k)])
  {
    var d := ParentKey(k);
    assert KeyOk(t, d);
    assert NodeOk(t, t.slot[d]);
    assert ChildKey(d, k.prefix % 2) == k;
    assert ParentKey(d) != k;
  }

  lemma AddNodeWords(t: Tries, x: int, s: nat, k: Key, p: int)
    requires TreesOk(t) && x !in t.held && FreeKey(t, k) && p in t.held
    requires IsRoot(k) || p != t.slot[ParentKey(k)]
    ensures var u := AddNode(t, x, s, k);
            At(u.left, p) == At(t.left, p) && At(u.right, p) == At(t.right, p) && At(u.up, p) == At(t.up, p)
  {
  }

  lemma AddNodeOther(t: Tries, x: int, s: nat, k: Key, p: int)
    requires TreesOk(t) && x !in t.held && FreeKey(t, k) && p in t.held
    requires IsRoot(k) || p != t.slot[ParentKey(k)]
    ensures NodeOk(AddNode(t, x, s, k), p)
  {
    assert NodeOk(t, p);
    AddNodeWords(t, x, s, k, p);
    if t.held[p].role.InTree? {
      var d := t.held[p].key;
      assert KeyOk(t, d);
      ChildOf(d, k);
    }
  }

  lemma AddNodeOld(t: Tries, x: int, s: nat, k: Key, p: int)
    requires TreesOk(t) && x !in t.held && FreeKey(t, k) && p in t.held
    ensures NodeOk(AddNode(t, x, s, k), p)
  {
    if !IsRoot(k) && p == t.slot[ParentKey(k)] {
      AddNodeParent(t, x, s, k);
    } else {
      AddNodeOther(t, x, s, k, p);
    }
  }

  lemma AddNodeKey(t: Tries, x: int, s: nat, k: Key, d: Key)
    requires TreesOk(t) && x !in t.held && FreeKey(t, k) && d in AddNode(t, x, s, k).slot
    ensures KeyOk(AddNode(t, x, s, k), d)
  {
    if d != k {
      assert KeyOk(t, d);
    }
  }

  /** A bin that holds a node has a root. */
  lemma {:induction false} RootPresent(t: Tries, k: Key)
    requires TreesOk(t) && k in t.slot
    ensures RootKey(k.bin) in t.slot
    decreases TopBit(k.bin) - k.lvl
  {
    assert KeyOk(t, k);
    if !IsRoot(k) {
      assert KeyOk(t, ParentKey(k));
      RootPresent(t, ParentKey(k));
    }
  }

  lemma AddNodeRoot(t: Tries, x: int, s: nat, k: Key, i: nat)
    requires TreesOk(t) && x !in t.held && FreeKey(t, k) && i < NBINS
    ensures RootOk(AddNode(t, x, s, k), i)
  {
    assert RootOk(t, i);
    if !IsRoot(k) {
      RootPresent(t, ParentKey(k));
    }
  }

  lemma AddNodeRing(t: Tries, x: int, s: nat, k: Key, p: int)
    requires RingsOk(t) && x !in t.held && s !in t.node && FreeKey(t, k) && p in AddNode(t, x, s, k).held
    ensures RingOk(AddNode(t, x, s, k), p)
  {
    if p != x {
      assert RingOk(t, p);
    }
  }

  lemma AddNodeTrees(t: Tries, x: int, s: nat, k: Key)
    requires TreesOk(t) && x !in t.held && FreeKey(t, k)
    ensures TreesOk(AddNode(t, x, s, k))
  {
    var u := AddNode(t, x, s, k);
    forall p {:trigger NodeOk(u, p)} | p in u.held ensures NodeOk(u, p) {
      if p == x {
        AddNodeNew(t, x, s, k);
      } else {
        AddNodeOld(t, x, s, k, p);
      }
    }
    forall d {:trigger KeyOk(u, d)} | d in u.slot ensures KeyOk(u, d) {
      AddNodeKey(t, x, s, k, d);
    }
    forall i {:trigger RootOk(u, i)} | 0 <= i < NBINS ensures RootOk(u, i) {
      AddNodeRoot(t, x, s, k, i);
    }
  }

  lemma AddNodeRings(t: Tries, x: int, s: nat, k: Key)
    requires CanAdd(t, x, s, k)
    ensures RingsOk(AddNode(t, x, s, k))
  {
    var u := AddNode(t, x, s, k);
    forall p {:trigger RingOk(u, p)} | p in u.held ensures RingOk(u, p) {
      AddNodeRing(t, x, s, k, p);
    }
    forall p {:trigger FitOk(u, p)} | p in u.held ensures FitOk(u, p) {
      assert p != x ==> FitOk(t, p);
    }
    forall z {:trigger SizeHeld(u, z)} | z in u.node ensures SizeHeld(u, z) {
      assert z != s ==> SizeHeld(t, z);
    }
  }

  lemma AddNodeValid(t: Tries, x: int, s: nat, k: Key)
    requires CanAdd(t, x, s, k) && Settled(t)
    ensures Valid(AddNode(t, x, s, k))
    ensures Contents(AddNode(t, x, s, k)) == Contents(t)[x := s]
  {
    hide TreesOk, RingsOk, Fits, FreeKey, Outside;
    AddNodeTrees(t, x, s, k);
    AddNodeRings(t, x, s, k);
  }

  // ---- insert_large_chunk: a chunk of a size already in the trie

  function AddChained(t: Tries, x: int, s: nat): Tries
    requires s in t.node
  {
    var h := t.node[s];
    var f := At(t.fd, h);
    t.(held := t.held[x := Node(s, Chained, Key(TreeIndex(s), 0, 0), t.clock)],
       fd := t.fd[h := x][x := f], bk := t.bk[f := x][x := h],
       left := t.left[x := 0], right := t.right[x := 0], up := t.up[x := 0], tag := t.tag[x := TreeIndex(s)],
       clock := t.clock + 1, born := t.born[t.clock := x])
  }

  lemma AddChainedTrees(t: Tries, x: int, s: nat)
    requires TreesOk(t) && x !in t.held && s in t.node
    ensures TreesOk(AddChained(t, x, s))
  {
    var u := AddChained(t, x, s);
    forall p {:trigger NodeOk(u, p)} | p in u.held ensures NodeOk(u, p) {
      assert p != x ==> NodeOk(t, p);
    }
    forall d {:trigger KeyOk(u, d)} | d in u.slot ensures KeyOk(u, d) {
      assert KeyOk(t, d);
    }
    forall i {:trigger RootOk(u, i)} | 0 <= i < NBINS ensures RootOk(u, i) {
      assert RootOk(t, i);
    }
  }

  lemma AddChainedNew(t: Tries, x: int, s: nat)
    requires RingsOk(t) && x !in t.held && s in t.node
    ensures RingOk(AddChained(t, x, s), x)
  {
    var h := t.node[s];
    assert SizeHeld(t, s);
    assert RingOk(t, h);
    assert RingOk(t, At(t.fd, h));
  }

  lemma AddChainedOld(t: Tries, x: int, s: nat, p: int)
    requires RingsOk(t) && x !in t.held && s in t.node && p in t.held
    ensures RingOk(AddChained(t, x, s), p)
  {
    var h := t.node[s];
    assert SizeHeld(t, s);
    assert RingOk(t, h);
    assert RingOk(t, p);
    var u := AddChained(t, x, s);
    assert Beside(u, p, At(u.fd, p)) by {
      assert p != h ==> At(u.fd, p) == At(t.fd, p) != x;
    }
    assert Beside(u, At(u.bk, p), p) by {
      assert p != At(t.fd, h) ==> At(u.bk, p) == At(t.bk, p) != h;
    }
  }

  lemma AddChainedRings(t: Tries, x: int, s: nat)
    requires RingsOk(t) && x !in t.held && Outside(x) && SizeOk(s) && s in t.node
    ensures RingsOk(AddChained(t, x, s))
  {
    var u := AddChained(t, x, s);
    forall p {:trigger RingOk(u, p)} | p in u.held ensures RingOk(u, p) {
      if p == x {
        AddChainedNew(t, x, s);
      } else {
        AddChainedOld(t, x, s, p);
      }
    }
    forall p {:trigger FitOk(u, p)} | p in u.held ensures FitOk(u, p) {
      assert p != x ==> FitOk(t, p);
    }
    forall z {:trigger SizeHeld(u, z)} | z in u.node ensures SizeHeld(u, z) {
      assert SizeHeld(t, z);
    }
  }

  lemma AddChainedValid(t: Tries, x: int, s: nat)
    requires Valid(t) && x !in t.held && Outside(x) && SizeOk(s) && s in t.node
    ensures Valid(AddChained(t, x, s))
    ensures Contents(AddChained(t, x, s)) == Contents(t)[x := s]
  {
    AddChainedTrees(t, x, s);
    AddChainedRings(t, x, s);
  }

  // ---- unlink_large_chunk: a leaf leaves the trie

  predicate IsLeaf(t: Tries, x: int) {
    x in t.held && t.held[x].role.InTree? && At(t.left, x) == 0 && At(t.right, x) == 0
  }

  /** The word that points to the leaf `x` is set to null; `x` stays at hand. */
  function DropLeaf(t: Tries, x: int): Tries
    requires x in t.held && t.held[x].key.bin < NBINS
    requires !IsRoot(t.held[x].key) ==> ParentKey(t.held[x].key) in t.slot
  {
    var k := t.held[x].key;
    t.(held := t.held[x := t.held[x].(role := Spare)],
       root := SetRoot(t, k, 0), left := SetLeft(t, k, 0), right := SetRight(t, k, 0),
       binmap := if IsRoot(k) then Clear(t.binmap, k.bin) else t.binmap,
       slot := t.slot - {k})
  }

  ghost predicate CanDrop(t: Tries, x: int) {
    && TreesOk(t) && RingsOk(t) && IsLeaf(t, x) && t.held[x].key.bin < NBINS
    && (!IsRoot(t.held[x].key) ==> ParentKey(t.held[x].key) in t.slot)
  }

  lemma LeafCanDrop(t: Tries, x: int)
    requires TreesOk(t) && RingsOk(t) && IsLeaf(t, x)
    ensures CanDrop(t, x)
  {
    assert NodeOk(t, x);
    assert KeyOk(t, t.held[x].key);
  }

  lemma LeafHasNoChildren(t: Tries, x: int, c: nat)
    requires CanDrop(t, x) && c <= 1
    ensures ChildKey(t.held[x].key, c) !in t.slot
  {
    assert NodeOk(t, x);
    NodeCanRemove(t, x);
    var d := ChildKey(t.held[x].key, c);
    assert d in t.slot ==> KeyOk(t, d);
  }

  lemma DropLeafWords(t: Tries, x: int, p: int)
    requires CanDrop(t, x) && p in t.held
    requires IsRoot(t.held[x].key) || p != t.slot[ParentKey(t.held[x].key)]
    ensures var u := DropLeaf(t, x);
            At(u.left, p) == At(t.left, p) && At(u.right, p) == At(t.right, p) && At(u.up, p) == At(t.up, p)
  {
  }

  lemma DropLeafParent(t: Tries, x: int)
    requires CanDrop(t, x) && !IsRoot(t.held[x].key)
    ensures var p := t.slot[ParentKey(t.held[x].key)]; p in t.held && NodeOk(DropLeaf(t, x), p)
  {
    var k := t.held[x].key;
    var d := ParentKey(k);
    assert NodeOk(t, x);
    assert KeyOk(t, d);
    assert NodeOk(t, t.slot[d]);
    assert ChildKey(d, k.prefix % 2) == k;
    assert ParentKey(d) != k;
  }

  lemma DropLeafOther(t: Tries, x: int, p: int)
    requires CanDrop(t, x) && p in t.held
    requires IsRoot(t.held[x].key) || p != t.slot[ParentKey(t.held[x].key)]
    ensures NodeOk(DropLeaf(t, x), p)
  {
    var k := t.held[x].key;
    assert NodeOk(t, x);
    assert NodeOk(t, p);
    DropLeafWords(t, x, p);
    LeafHasNoChildren(t, x, 0);
    LeafHasNoChildren(t, x, 1);
    if t.held[p].role.InTree? {
      var d := t.held[p].key;
      assert KeyOk(t, d);
      ChildOf(d, k);
      ChildOf(k, d);
    }
  }

  lemma DropLeafKey(t: Tries, x: int, d: Key)
    requires CanDrop(t, x) && d in t.slot && d != t.held[x].key
    ensures KeyOk(DropLeaf(t, x), d)
  {
    assert NodeOk(t, x);
    assert KeyOk(t, d);
    LeafHasNoChildren(t, x, 0);
    LeafHasNoChildren(t, x, 1);
    ChildOf(t.held[x].key, d);
    assert ChildKey(t.held[x].key, d.prefix % 2) == d || ParentKey(d) != t.held[x].key;
  }

  lemma DropLeafRoot(t: Tries, x: int, i: nat)
    requires CanDrop(t, x) && i < NBINS
    ensures RootOk(DropLeaf(t, x), i)
  {
    assert NodeOk(t, x);
    assert KeyOk(t, t.held[x].key);
    assert RootOk(t, i);
  }

  lemma DropLeafTrees(t: Tries, x: int)
    requires CanDrop(t, x)
    ensures TreesOk(DropLeaf(t, x))
  {
    var u := DropLeaf(t, x);
    forall p {:trigger NodeOk(u, p)} | p in u.held ensures NodeOk(u, p) {
      if !IsRoot(t.held[x].key) && p == t.slot[ParentKey(t.held[x].key)] {
        DropLeafParent(t, x);
      } else {
        DropLeafOther(t, x, p);
      }
    }
    forall d {:trigger KeyOk(u, d)} | d in u.slot ensures KeyOk(u, d) {
      DropLeafKey(t, x, d);
    }
    forall i {:trigger RootOk(u, i)} | 0 <= i < NBINS ensures RootOk(u, i) {
      DropLeafRoot(t, x, i);
    }
  }

  lemma DropLeafRings(t: Tries, x: int)
    requires CanDrop(t, x)
    ensures RingsOk(DropLeaf(t, x))
  {
    var u := DropLeaf(t, x);
    forall p {:trigger RingOk(u, p)} | p in u.held ensures RingOk(u, p) {
      assert RingOk(t, p) && RingOk(t, x);
    }
    forall p {:trigger FitOk(u, p)} | p in u.held ensures FitOk(u, p) {
      assert FitOk(t, p);
    }
    forall z {:trigger SizeHeld(u, z)} | z in u.node ensures SizeHeld(u, z) {
      assert SizeHeld(t, z);
    }
  }

  // ---- a spare chunk that is alone in its ring is forgotten

  function Forget(t: Tries, x: int): Tries
    requires x in t.held
  {
    t.(held := t.held - {x}, node := t.node - {t.held[x].size})
  }

  lemma ForgetOk(t: Tries, x: int)
    requires TreesOk(t) && RingsOk(t) && x in t.held && t.held[x].role.Spare? && At(t.fd, x) == x
    ensures TreesOk(Forget(t, x)) && RingsOk(Forget(t, x))
  {
    var u := Forget(t, x);
    assert RingOk(t, x);
    forall p {:trigger NodeOk(u, p)} | p in u.held ensures NodeOk(u, p) {
      assert NodeOk(t, p);
    }
    forall d {:trigger KeyOk(u, d)} | d in u.slot ensures KeyOk(u, d) {
      assert KeyOk(t, d);
    }
    forall i {:trigger RootOk(u, i)} | 0 <= i < NBINS ensures RootOk(u, i) {
      assert RootOk(t, i);
    }
    forall p {:trigger RingOk(u, p)} | p in u.held ensures RingOk(u, p) {
      assert RingOk(t, p);
      if t.held[p].size == t.held[x].size {
        AloneInRing(t, x, p);
      }
    }
    forall p {:trigger FitOk(u, p)} | p in u.held ensures FitOk(u, p) {
      assert FitOk(t, p);
    }
    forall z {:trigger SizeHeld(u, z)} | z in u.node ensures SizeHeld(u, z) {
      assert SizeHeld(t, z);
    }
  }

  /** The chunk before the head of a ring is the oldest of the others. */
  lemma {:induction false} OldestNext(t: Tries, p: int)
    requires RingsOk(t) && p in t.held && t.held[p].role.Chained?
    ensures t.held[p].size in t.node
    ensures var r := At(t.bk, t.node[t.held[p].size]);
            r in t.held && r != t.node[t.held[p].size] && (r == p || t.held[r].stamp < t.held[p].stamp)
    decreases t.held[p].stamp
  {
    assert RingOk(t, p);
    var h := t.node[t.held[p].size];
    assert RingOk(t, h);
    var f := At(t.fd, p);
    assert RingOk(t, f);
    if f != h {
      OldestNext(t, f);
    }
  }

  /** A ring whose head is its own successor holds no other chunk. */
  lemma AloneInRing(t: Tries, h: int, p: int)
    requires RingsOk(t) && h in t.held && !t.held[h].role.Chained? && At(t.fd, h) == h
    requires p in t.held && t.held[p].size == t.held[h].size
    ensures p == h
  {
    assert RingOk(t, h) && RingOk(t, p);
    if p != h {
      OldestNext(t, p);
    }
  }

  // ---- unlink_large_chunk: another chunk takes the place of a node

  function Relink(up: Words, c: int, r: int): Words {
    if c != 0 then up[c := r] else up
  }

  /** Chunk `r` takes the place of the node `x`: pointers to it, its parent and its children. */
  function Swap(t: Tries, x: int, r: int): Tries
    requires x in t.held && r in t.held
    requires !IsRoot(t.held[x].key) ==> ParentKey(t.held[x].key) in t.slot
  {
    var k := t.held[x].key;
    var c0, c1 := At(t.left, x), At(t.right, x);
    t.(held := t.held[r := t.held[r].(role := InTree, key := k)] - {x},
       root := SetRoot(t, k, r),
       left := SetLeft(t, k, r)[r := c0], right := SetRight(t, k, r)[r := c1],
       up := Relink(Relink(t.up[r := At(t.up, x)], c0, r), c1, r),
       slot := t.slot[k := r])
  }

  ghost predicate CanSwap(t: Tries, x: int, r: int) {
    && TreesOk(t) && x in t.held && t.held[x].role.InTree? && r in t.held && !t.held[r].role.InTree?
    && (!IsRoot(t.held[x].key) ==> ParentKey(t.held[x].key) in t.slot)
    && 0 !in t.held
  }

  /** The neighbours of a node of the trie are the nodes at the neighbouring keys. */
  lemma NodeLinks(t: Tries, x: int)
    requires TreesOk(t) && x in t.held && t.held[x].role.InTree? && 0 !in t.held
    ensures NodeOk(t, x) && KeyOk(t, t.held[x].key)
    ensures var c0 := At(t.left, x); c0 != 0 ==>
              c0 in t.held && t.held[c0].role.InTree? && t.held[c0].key == ChildKey(t.held[x].key, 0) && c0 != x
    ensures var c1 := At(t.right, x); c1 != 0 ==>
              c1 in t.held && t.held[c1].role.InTree? && t.held[c1].key == ChildKey(t.held[x].key, 1) && c1 != x
    ensures At(t.left, x) != 0 ==> At(t.left, x) != At(t.right, x)
    ensures !IsRoot(t.held[x].key) ==>
              var a := At(t.up, x);
              a in t.held && t.held[a].role.InTree? && t.held[a].key == ParentKey(t.held[x].key) && a != x
  {
    assert NodeOk(t, x);
    var k := t.held[x].key;
    assert KeyOk(t, k);
    assert ChildKey(k, 0) in t.slot ==> KeyOk(t, ChildKey(k, 0));
    assert ChildKey(k, 1) in t.slot ==> KeyOk(t, ChildKey(k, 1));
    assert !IsRoot(k) ==> KeyOk(t, ParentKey(k));
  }

  lemma SwapNew(t: Tries, x: int, r: int)
    requires CanSwap(t, x, r)
    ensures NodeOk(Swap(t, x, r), r)
  {
    NodeLinks(t, x);
    var k := t.held[x].key;
    assert ChildKey(k, 0) != k && ChildKey(k, 1) != k && ParentKey(k) != k;
  }

  /** The words of a chunk other than the new node. */
  lemma SwapWords(t: Tries, x: int, r: int, p: int)
    requires CanSwap(t, x, r) && p != r
    ensures var u := Swap(t, x, r);
            var k := t.held[x].key;
            && At(u.left, p) == (if OnLeft(k) && p == t.slot[ParentKey(k)] then r else At(t.left, p))
            && At(u.right, p) == (if OnRight(k) && p == t.slot[ParentKey(k)] then r else At(t.right, p))
            && At(u.up, p) == (if p != 0 && (p == At(t.left, x) || p == At(t.right, x)) then r else At(t.up, p))
  {
  }

  lemma SwapParent(t: Tries, x: int, r: int)
    requires CanSwap(t, x, r) && !IsRoot(t.held[x].key)
    ensures var a := t.slot[ParentKey(t.held[x].key)]; a in t.held && a != x && a != r && NodeOk(Swap(t, x, r), a)
  {
    NodeLinks(t, x);
    var k := t.held[x].key;
    var d := ParentKey(k);
    var a := t.slot[d];
    NodeLinks(t, a);
    SwapWords(t, x, r, a);
    assert ParentKey(d) != k && (OnLeft(k) <==> !OnRight(k));
    if OnLeft(k) {
      assert ChildKey(d, 0) == k && ChildKey(d, 1) != k;
    } else {
      assert ChildKey(d, 1) == k && ChildKey(d, 0) != k;
    }
  }

  lemma SwapChild(t: Tries, x: int, r: int, c: int)
    requires CanSwap(t, x, r) && c != 0 && (c == At(t.left, x) || c == At(t.right, x))
    ensures c in t.held && c != x && c != r && NodeOk(Swap(t, x, r), c)
  {
    NodeLinks(t, x);
    NodeLinks(t, c);
    SwapWords(t, x, r, c);
    var k := t.held[x].key;
    var d := t.held[c].key;
    assert ParentKey(d) == k && !IsRoot(d);
    assert ChildKey(d, 0) != k && ChildKey(d, 1) != k;
  }

  lemma SwapOther(t: Tries, x: int, r: int, p: int)
    requires CanSwap(t, x, r) && p in t.held && p != x && p != r
    requires p != At(t.left, x) && p != At(t.right, x)
    requires IsRoot(t.held[x].key) || p != t.slot[ParentKey(t.held[x].key)]
    ensures NodeOk(Swap(t, x, r), p)
  {
    NodeLinks(t, x);
    assert NodeOk(t, p);
    SwapWords(t, x, r, p);
    if t.held[p].role.InTree? {
      NodeLinks(t, p);
      var k := t.held[x].key;
      var d := t.held[p].key;
      ChildOf(d, k);
      ChildOf(k, d);
      assert ParentKey(d) == k ==> d == ChildKey(k, d.prefix % 2);
    }
  }

  lemma SwapTrees(t: Tries, x: int, r: int)
    requires CanSwap(t, x, r)
    ensures TreesOk(Swap(t, x, r))
  {
    var u := Swap(t, x, r);
    forall p {:trigger NodeOk(u, p)} | p in u.held ensures NodeOk(u, p) {
      if p == r {
        SwapNew(t, x, r);
      } else if !IsRoot(t.held[x].key) && p == t.slot[ParentKey(t.held[x].key)] {
        SwapParent(t, x, r);
      } else if p != 0 && (p == At(t.left, x) || p == At(t.right, x)) {
        SwapChild(t, x, r, p);
      } else {
        SwapOther(t, x, r, p);
      }
    }
    NodeLinks(t, x);
    forall d {:trigger KeyOk(u, d)} | d in u.slot ensures KeyOk(u, d) {
      assert KeyOk(t, d);
    }
    forall i {:trigger RootOk(u, i)} | 0 <= i < NBINS ensures RootOk(u, i) {
      assert RootOk(t, i);
    }
  }

  // ---- unlink_large_chunk: the four cases

  /** A chunk on the ring of a node. */
  function RemoveChained(t: Tries, x: int): Tries {
    CloseRing(t, x).(held := t.held - {x})
  }

  lemma RemoveChainedOk(t: Tries, x: int)
    requires Valid(t) && x in t.held && t.held[x].role.Chained?
    ensures Valid(RemoveChained(t, x))
    ensures Contents(RemoveChained(t, x)) == Contents(t) - {x}
  {
    var u := RemoveChained(t, x);
    assert NodeOk(t, x);
    forall p {:trigger NodeOk(u, p)} | p in u.held ensures NodeOk(u, p) {
      assert NodeOk(t, p);
    }
    forall d {:trigger KeyOk(u, d)} | d in u.slot ensures KeyOk(u, d) {
      assert KeyOk(t, d);
    }
    forall i {:trigger RootOk(u, i)} | 0 <= i < NBINS ensures RootOk(u, i) {
      assert RootOk(t, i);
    }
    RemoveChainedRings(t, x);
  }

  lemma RemoveChainedRing(t: Tries, x: int, p: int)
    requires RingsOk(t) && x in t.held && t.held[x].role.Chained? && p in t.held && p != x
    ensures RingOk(RemoveChained(t, x), p)
  {
    assert RingOk(t, x) && RingOk(t, p);
    var f, b := At(t.fd, x), At(t.bk, x);
    var u := RemoveChained(t, x);
    assert Beside(u, p, At(u.fd, p)) by {
      assert p != b ==> At(u.fd, p) == At(t.fd, p) != f;
    }
    assert Beside(u, At(u.bk, p), p) by {
      assert p != f ==> At(u.bk, p) == At(t.bk, p) != b;
    }
    assert RingOk(t, f);
  }

  lemma RemoveChainedRings(t: Tries, x: int)
    requires RingsOk(t) && x in t.held && t.held[x].role.Chained?
    ensures RingsOk(RemoveChained(t, x))
  {
    var u := RemoveChained(t, x);
    forall p {:trigger RingOk(u, p)} | p in u.held ensures RingOk(u, p) {
      RemoveChainedRing(t, x, p);
    }
    forall p {:trigger FitOk(u, p)} | p in u.held ensures FitOk(u, p) {
      assert FitOk(t, p);
    }
    forall z {:trigger SizeHeld(u, z)} | z in u.node ensures SizeHeld(u, z) {
      assert SizeHeld(t, z);
      assert RingOk(t, x);
    }
  }

  /** The ring of `x` closed behind it. */
  function CloseRing(t: Tries, x: int): Tries {
    var f, r := At(t.fd, x), At(t.bk, x);
    t.(fd := t.fd[r := f], bk := t.bk[f := r])
  }

  /** A node with other chunks on its ring: the oldest of them takes its place. */
  function RemoveHead(t: Tries, x: int): Tries
    requires x in t.held && At(t.bk, x) in t.held
    requires !IsRoot(t.held[x].key) ==> ParentKey(t.held[x].key) in t.slot
  {
    Swap(CloseRing(t, x), x, At(t.bk, x)).(node := t.node[t.held[x].size := At(t.bk, x)])
  }

  lemma SameTrees(t: Tries, u: Tries)
    requires TreesOk(t)
    requires t.held == u.held && t.left == u.left && t.right == u.right && t.up == u.up
    requires t.root == u.root && t.binmap == u.binmap && t.slot == u.slot
    ensures TreesOk(u)
  {
    forall p {:trigger NodeOk(u, p)} | p in u.held ensures NodeOk(u, p) {
      assert NodeOk(t, p);
    }
    forall d {:trigger KeyOk(u, d)} | d in u.slot ensures KeyOk(u, d) {
      assert KeyOk(t, d);
    }
    forall i {:trigger RootOk(u, i)} | 0 <= i < NBINS ensures RootOk(u, i) {
      assert RootOk(t, i);
    }
  }

  ghost predicate CanRemove(t: Tries, x: int) {
    && TreesOk(t) && RingsOk(t) && x in t.held && t.held[x].role.InTree?
    && (!IsRoot(t.held[x].key) ==> ParentKey(t.held[x].key) in t.slot)
  }

  lemma NodeCanRemove(t: Tries, x: int)
    requires TreesOk(t) && RingsOk(t) && x in t.held && t.held[x].role.InTree?
    ensures CanRemove(t, x)
    ensures 0 !in t.held
  {
    assert NodeOk(t, x);
    assert KeyOk(t, t.held[x].key);
    assert 0 in t.held ==> FitOk(t, 0);
  }

  /** The tries after the ring of the node `x` has been passed on to the chunk before it. */
  ghost predicate PassedOn(t: Tries, u: Tries, x: int) {
    && x in t.held && !t.held[x].role.Chained? && At(t.bk, x) != x && At(t.bk, x) in t.held
    && u.held == t.held[At(t.bk, x) := t.held[At(t.bk, x)].(role := InTree, key := t.held[x].key)] - {x}
    && u.fd == t.fd[At(t.bk, x) := At(t.fd, x)] && u.bk == t.bk[At(t.fd, x) := At(t.bk, x)]
    && u.born == t.born && u.clock == t.clock && u.node == t.node[t.held[x].size := At(t.bk, x)]
  }

  lemma NextPassedOn(t: Tries, u: Tries, x: int, p: int)
    requires RingsOk(t) && PassedOn(t, u, x) && p in t.held && p != x
    ensures Beside(u, p, At(u.fd, p))
  {
    assert RingOk(t, x) && RingOk(t, p);
    assert p != At(t.bk, x) ==> At(u.fd, p) == At(t.fd, p) != At(t.fd, x);
  }

  lemma PrevPassedOn(t: Tries, u: Tries, x: int, p: int)
    requires RingsOk(t) && PassedOn(t, u, x) && p in t.held && p != x
    ensures Beside(u, At(u.bk, p), p)
  {
    assert RingOk(t, x) && RingOk(t, p);
    assert p != At(t.fd, x) ==> At(u.bk, p) == At(t.bk, p) != At(t.bk, x);
  }

  lemma LinksPassedOn(t: Tries, u: Tries, x: int, p: int)
    requires RingsOk(t) && PassedOn(t, u, x) && p in t.held && p != x
    ensures LinkOk(u, p)
  {
    hide RingsOk, PassedOn;
    NextPassedOn(t, u, x, p);
    PrevPassedOn(t, u, x, p);
  }

  lemma RingPassedOn(t: Tries, u: Tries, x: int, p: int)
    requires RingsOk(t) && PassedOn(t, u, x) && p in t.held && p != x
    ensures RingOk(u, p)
  {
    assert RingOk(t, x) && RingOk(t, p);
    LinksPassedOn(t, u, x, p);
    if t.held[p].size == t.held[x].size {
      OldestNext(t, p);
    }
  }

  lemma RemoveHeadRing(t: Tries, x: int, p: int)
    requires CanRemove(t, x) && At(t.bk, x) != x && p in t.held && p != x
    ensures At(t.bk, x) in t.held && RingOk(RemoveHead(t, x), p)
  {
    assert RingOk(t, x);
    RingPassedOn(t, RemoveHead(t, x), x, p);
  }

  lemma RemoveHeadFit(t: Tries, x: int, p: int)
    requires CanRemove(t, x) && At(t.bk, x) != x && p in t.held && p != x
    ensures At(t.bk, x) in t.held && FitOk(RemoveHead(t, x), p)
  {
    assert RingOk(t, x);
    assert FitOk(t, p) && FitOk(t, x);
  }

  lemma RemoveHeadRings(t: Tries, x: int)
    requires CanRemove(t, x) && At(t.bk, x) != x
    ensures At(t.bk, x) in t.held && RingsOk(RemoveHead(t, x))
  {
    assert RingOk(t, x);
    var u := RemoveHead(t, x);
    forall p {:trigger RingOk(u, p)} | p in u.held ensures RingOk(u, p) {
      RemoveHeadRing(t, x, p);
    }
    forall p {:trigger FitOk(u, p)} | p in u.held ensures FitOk(u, p) {
      RemoveHeadFit(t, x, p);
    }
    forall z {:trigger SizeHeld(u, z)} | z in u.node ensures SizeHeld(u, z) {
      assert z != t.held[x].size ==> SizeHeld(t, z);
    }
  }

  lemma HeadCanSwap(t: Tries, x: int)
    requires CanRemove(t, x) && At(t.bk, x) != x
    ensures CanSwap(CloseRing(t, x), x, At(t.bk, x))
  {
    NodeCanRemove(t, x);
    assert RingOk(t, x) && RingOk(t, At(t.bk, x));
    SameTrees(t, CloseRing(t, x));
  }

  lemma RemoveHeadOk(t: Tries, x: int)
    requires Valid(t) && x in t.held && t.held[x].role.InTree? && At(t.bk, x) != x
    ensures CanRemove(t, x) && At(t.bk, x) in t.held
    ensures Valid(RemoveHead(t, x))
    ensures Contents(RemoveHead(t, x)) == Contents(t) - {x}
  {
    NodeCanRemove(t, x);
    RemoveHeadRings(t, x);
    HeadCanSwap(t, x);
    SwapTrees(CloseRing(t, x), x, At(t.bk, x));
    SameTrees(Swap(CloseRing(t, x), x, At(t.bk, x)), RemoveHead(t, x));
  }

  /** A leaf alone in its ring. */
  lemma RemoveLastOk(t: Tries, x: int)
    requires Valid(t) && IsLeaf(t, x) && At(t.bk, x) == x
    ensures CanDrop(t, x)
    ensures Valid(Forget(DropLeaf(t, x), x))
    ensures Contents(Forget(DropLeaf(t, x), x)) == Contents(t) - {x}
  {
    LeafCanDrop(t, x);
    DropLeafTrees(t, x);
    DropLeafRings(t, x);
    assert RingOk(t, x);
    ForgetOk(DropLeaf(t, x), x);
  }

  /** An inner node alone in its ring: the leaf `r` below it takes its place. */
  function RemoveInner(t: Tries, x: int, r: int): Tries
    requires x in t.held && r in t.held && t.held[r].key.bin < NBINS
    requires !IsRoot(t.held[r].key) ==> ParentKey(t.held[r].key) in t.slot
    requires x != r && (!IsRoot(t.held[x].key) ==> ParentKey(t.held[x].key) in DropLeaf(t, r).slot)
  {
    Swap(DropLeaf(t, r), x, r).(node := t.node - {t.held[x].size})
  }

  ghost predicate CanReplace(t: Tries, x: int, r: int) {
    && CanRemove(t, x) && CanDrop(t, r) && x != r && At(t.bk, x) == x
    && (!IsRoot(t.held[x].key) ==> ParentKey(t.held[x].key) in DropLeaf(t, r).slot)
    && Fits(t.held[r].size, t.held[x].key)
  }

  lemma LeafCanReplace(t: Tries, x: int, r: int)
    requires CanRemove(t, x) && IsLeaf(t, r) && x != r && At(t.bk, x) == x && Fits(t.held[r].size, t.held[x].key)
    ensures CanReplace(t, x, r)
  {
    LeafCanDrop(t, r);
    assert NodeOk(t, x) && NodeOk(t, r);
    var k := t.held[x].key;
    LeafHasNoChildren(t, r, k.prefix % 2);
    assert ChildKey(ParentKey(k), k.prefix % 2) == k;
  }

  lemma RingWithout(t: Tries, u: Tries, x: int, r: int, p: int)
    requires RingsOk(t) && x in t.held && !t.held[x].role.Chained? && At(t.fd, x) == x
    requires r in t.held && r != x && !t.held[r].role.Chained? && p in t.held && p != x
    requires u.held == t.held[r := t.held[r].(role := InTree, key := t.held[x].key)] - {x}
    requires u.fd == t.fd && u.bk == t.bk && u.born == t.born && u.clock == t.clock
    requires u.node == t.node - {t.held[x].size}
    ensures RingOk(u, p)
  {
    assert RingOk(t, x) && RingOk(t, p);
    if t.held[p].size == t.held[x].size {
      AloneInRing(t, x, p);
    }
  }

  lemma RemoveInnerBooks(t: Tries, x: int, r: int)
    requires CanReplace(t, x, r)
    ensures RemoveInner(t, x, r).held == t.held[r := t.held[r].(role := InTree, key := t.held[x].key)] - {x}
    ensures RemoveInner(t, x, r).fd == t.fd && RemoveInner(t, x, r).bk == t.bk
    ensures RemoveInner(t, x, r).born == t.born && RemoveInner(t, x, r).clock == t.clock
    ensures RemoveInner(t, x, r).node == t.node - {t.held[x].size}
  {
    hide TreesOk, RingsOk, Fits, SetRoot, SetLeft, SetRight, Relink;
  }

  lemma AloneOnRing(t: Tries, x: int)
    requires CanRemove(t, x) && At(t.bk, x) == x
    ensures !t.held[x].role.Chained? && At(t.fd, x) == x
  {
    hide TreesOk;
    assert RingOk(t, x);
  }

  lemma RemoveInnerRing(t: Tries, x: int, r: int, p: int)
    requires CanReplace(t, x, r) && p in t.held && p != x
    ensures RingOk(RemoveInner(t, x, r), p)
  {
    hide TreesOk, RingsOk, RingOk, RemoveInner;
    RemoveInnerBooks(t, x, r);
    AloneOnRing(t, x);
    RingWithout(t, RemoveInner(t, x, r), x, r, p);
  }

  lemma RemoveInnerFit(t: Tries, x: int, r: int, p: int)
    requires CanReplace(t, x, r) && p in t.held && p != x
    ensures FitOk(RemoveInner(t, x, r), p)
  {
    assert FitOk(t, p);
  }

  lemma RemoveInnerRings(t: Tries, x: int, r: int)
    requires CanReplace(t, x, r)
    ensures RingsOk(RemoveInner(t, x, r))
  {
    var u := RemoveInner(t, x, r);
    forall p {:trigger RingOk(u, p)} | p in u.held ensures RingOk(u, p) {
      RemoveInnerRing(t, x, r, p);
    }
    forall p {:trigger FitOk(u, p)} | p in u.held ensures FitOk(u, p) {
      RemoveInnerFit(t, x, r, p);
    }
    forall z {:trigger SizeHeld(u, z)} | z in u.node ensures SizeHeld(u, z) {
      assert SizeHeld(t, z);
    }
  }

  lemma RemoveInnerTrees(t: Tries, x: int, r: int)
    requires Valid(t) && CanReplace(t, x, r)
    ensures TreesOk(RemoveInner(t, x, r))
  {
    hide TreesOk;
    NodeCanRemove(t, x);
    DropLeafTrees(t, r);
    SwapTrees(DropLeaf(t, r), x, r);
    SameTrees(Swap(DropLeaf(t, r), x, r), RemoveInner(t, x, r));
  }

  lemma RemoveInnerSettled(t: Tries, x: int, r: int)
    requires Settled(t) && CanReplace(t, x, r)
    ensures Settled(RemoveInner(t, x, r)) && Contents(RemoveInner(t, x, r)) == Contents(t) - {x}
  {
    hide TreesOk, RingsOk, RemoveInner;
    RemoveInnerBooks(t, x, r);
  }

  lemma RemoveInnerOk(t: Tries, x: int, r: int)
    requires Valid(t) && CanReplace(t, x, r)
    ensures Valid(RemoveInner(t, x, r))
    ensures Contents(RemoveInner(t, x, r)) == Contents(t) - {x}
  {
    hide TreesOk, RingsOk, Settled, Contents, RemoveInner, CanReplace;
    RemoveInnerRings(t, x, r);
    RemoveInnerTrees(t, x, r);
    RemoveInnerSettled(t, x, r);
  }

  /** Equal-sized chunks leave through the trie in the order they came. */
  lemma OldestInTree(t: Tries, x: int, p: int)
    requires Valid(t) && x in t.held && t.held[x].role.InTree?
    requires p in t.held && t.held[p].size == t.held[x].size && p != x
    ensures t.held[x].stamp < t.held[p].stamp
    ensures At(t.bk, x) in t.held && (At(t.bk, x) == p || t.held[At(t.bk, x)].stamp < t.held[p].stamp)
  {
    assert RingOk(t, x) && RingOk(t, p);
    OldestNext(t, p);
  }
}
