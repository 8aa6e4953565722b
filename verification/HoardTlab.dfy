/** Hoard's thread-local allocation buffer: freed objects kept by size class, up to a number of bytes. */
module HoardTlab {

  // ---- size classes

  /** The sizes of the classes, as in the tables of Hoard: positive and strictly increasing. */
  ghost predicate Increasing(sizes: seq<nat>) {
    forall i, j {:trigger sizes[i], sizes[j]} :: 0 <= i < j < |sizes| ==> 0 < sizes[i] < sizes[j]
  }

  /** `slowGetSizeClass`: the first class that is large enough */
  method SizeClass(sizes: seq<nat>, sz: nat) returns (c: nat)
    requires |sizes| > 0 && Increasing(sizes) && sz <= sizes[|sizes| - 1]
    ensures c < |sizes| && sz <= sizes[c] && forall i {:trigger sizes[i]} :: 0 <= i < c ==> sizes[i] < sz
  {
    c := 0;
    while sz > sizes[c]
      invariant c < |sizes| && forall i {:trigger sizes[i]} :: 0 <= i < c ==> sizes[i] < sz
    {
      assert c < |sizes| - 1;
      c := c + 1;
    }
  }

  /** `align`: up to a multiple of 8 */
  function Aligned(sz: nat): nat { (sz + 7) / 8 * 8 }

  // ---- what is cached

  function ListBytes(l: seq<nat>, size: nat): nat { |l| * size }

  /** The bytes of the cached objects of the first `n` classes. */
  ghost function CachedBytes(lists: seq<seq<nat>>, sizes: seq<nat>, n: nat): nat
    requires n <= |lists| == |sizes|
  {
    if n == 0 then 0 else CachedBytes(lists, sizes, n - 1) + ListBytes(lists[n - 1], sizes[n - 1])
  }

  /** The cached objects of the first `n` classes. */
  ghost function CachedObjects(lists: seq<seq<nat>>, n: nat): multiset<nat>
    requires n <= |lists|
  {
    if n == 0 then multiset{} else CachedObjects(lists, n - 1) + multiset(lists[n - 1])
  }

  /** One list changed. */
  lemma {:induction false} BytesChanged(lists: seq<seq<nat>>, sizes: seq<nat>, n: nat, c: nat, l: seq<nat>)
    requires n <= |lists| == |sizes| && c < |lists|
    ensures CachedBytes(lists[c := l], sizes, n)
            == CachedBytes(lists, sizes, n) + if c < n then ListBytes(l, sizes[c]) - ListBytes(lists[c],
                sizes[c]) else 0
  {
    hide ListBytes;
    if n > 0 {
      BytesChanged(lists, sizes, n - 1, c, l);
    }
  }

  lemma {:induction false} ObjectsSame(lists: seq<seq<nat>>, n: nat, c: nat, l: seq<nat>)
    requires n <= c < |lists|
    ensures CachedObjects(lists[c := l], n) == CachedObjects(lists, n)
  {
    if n > 0 {
      ObjectsSame(lists, n - 1, c, l);
    }
  }

  /** An object added to or removed from a list. */
  lemma {:induction false} ObjectsChanged(lists: seq<seq<nat>>, n: nat, c: nat, l: seq<nat>, x: nat)
    requires c < n <= |lists| && multiset(l) + multiset{x} == multiset(lists[c])
    ensures CachedObjects(lists[c := l], n) + multiset{x} == CachedObjects(lists, n)
  {
    if c < n - 1 {
      ObjectsChanged(lists, n - 1, c, l, x);
    } else {
      ObjectsSame(lists, n - 1, c, l);
    }
  }

  lemma {:induction false} NothingCached(lists: seq<seq<nat>>, sizes: seq<nat>, n: nat)
    requires n <= |lists| == |sizes| && CachedBytes(lists, sizes, n) == 0
    requires forall i {:trigger sizes[i]} :: 0 <= i < n ==> 0 < sizes[i]
    ensures CachedObjects(lists, n) == multiset{} && forall i {:trigger lists[i]} :: 0 <= i < n ==> lists[i] == []
  {
    if n > 0 {
      NoneIfZero(|lists[n - 1]|, sizes[n - 1]);
      NothingCached(lists, sizes, n - 1);
    }
  }

  lemma NoneIfZero(a: nat, b: nat)
    requires 0 < b
    ensures a * b == 0 ==> a == 0
  {
  }

  lemma OneLess(l: seq<nat>, size: nat)
    requires l != []
    ensures ListBytes(l[1..], size) == ListBytes(l, size) - size
    ensures multiset(l[1..]) + multiset{l[0]} == multiset(l)
  {
    assert l == [l[0]] + l[1..];
    Step(|l| - 1, size);
  }

  lemma Step(n: nat, size: nat)
    ensures (n + 1) * size == n * size + size
  {
  }

  lemma {:induction false} ListBelow(lists: seq<seq<nat>>, sizes: seq<nat>, n: nat, c: nat)
    requires c < n <= |lists| == |sizes|
    ensures ListBytes(lists[c], sizes[c]) <= CachedBytes(lists, sizes, n)
  {
    hide ListBytes;
    if c < n - 1 {
      ListBelow(lists, sizes, n - 1, c);
    }
  }

  lemma Removing(lists: seq<seq<nat>>, sizes: seq<nat>, c: nat)
    requires |lists| == |sizes| && c < |lists| && lists[c] != []
    ensures var l, n := lists[c], |lists|;
            && CachedBytes(lists[c := l[1..]], sizes, n) == CachedBytes(lists, sizes, n) - sizes[c]
            && sizes[c] <= CachedBytes(lists, sizes, n)
            && CachedObjects(lists[c := l[1..]], n) + multiset{l[0]} == CachedObjects(lists, n)
  {
    hide ListBytes;
    var l := lists[c];
    OneLess(l, sizes[c]);
    BytesChanged(lists, sizes, |lists|, c, l[1..]);
    ListBelow(lists, sizes, |lists|, c);
    ObjectsChanged(lists, |lists|, c, l[1..], l[0]);
  }

  lemma Adding(lists: seq<seq<nat>>, sizes: seq<nat>, c: nat, x: nat)
    requires |lists| == |sizes| && c < |lists|
    ensures var l, n := [x] + lists[c], |lists|;
            && CachedBytes(lists[c := l], sizes, n) == CachedBytes(lists, sizes, n) + sizes[c]
            && CachedObjects(lists[c := l], n) == CachedObjects(lists, n) + multiset{x}
  {
    hide ListBytes;
    var l := [x] + lists[c];
    assert l[1..] == lists[c] && lists[c := l][c := lists[c]] == lists;
    Removing(lists[c := l], sizes, c);
  }

  // ---- what a call does to the buffer

  datatype Shape = Shape(sizes: seq<nat>, largest: nat, limit: nat)

  datatype Buffer = Buffer(bytes: nat, lists: seq<seq<nat>>)

  ghost predicate ShapeOk(h: Shape) {
    |h.sizes| > 0 && Increasing(h.sizes) && 0 < h.sizes[0] && h.largest <= h.sizes[|h.sizes| - 1]
  }

  /** The counter is at least what is cached and at most the limit. */
  ghost predicate BufferOk(h: Shape, b: Buffer) {
    |b.lists| == |h.sizes| && CachedBytes(b.lists, h.sizes, |b.lists|) <= b.bytes <= h.limit
  }

  /** The bytes counted although they are not cached. */
  ghost function Drift(h: Shape, b: Buffer): nat
    requires BufferOk(h, b)
  {
    b.bytes - CachedBytes(b.lists, h.sizes, |b.lists|)
  }

  /** `c` is the first class that is large enough. */
  ghost predicate FirstFit(sizes: seq<nat>, sz: nat, c: nat) {
    c < |sizes| && sz <= sizes[c] && forall i {:trigger sizes[i]} :: 0 <= i < c ==> sizes[i] < sz
  }

  /** A size that `malloc` looks up: raised to 16, aligned, and not too large for the buffer. */
  predicate Sized(h: Shape, sz: nat) { 16 <= sz <= h.largest && sz % 8 == 0 }

  predicate NoneCached(b: Buffer) { forall c {:trigger b.lists[c]} :: 0 <= c < |b.lists| ==> b.lists[c] == [] }

  datatype Op =
    | Hit(c: nat, sz: nat)      // malloc: an object of class `c` for `sz` bytes
    | Kept(c: nat, ptr: nat)    // free: an object of class `c` is cached
    | Passed                    // the parent serves the call
    | Cleared

  ghost predicate Moves(h: Shape, b: Buffer, b': Buffer, op: Op) {
    |b.lists| == |h.sizes| &&
    match op
    case Hit(c, sz) =>
      && Sized(h, sz) && FirstFit(h.sizes, sz, c) && b.lists[c] != [] && sz <= b.bytes
      && b' == Buffer(b.bytes - sz, b.lists[c := b.lists[c][1..]])
    case Kept(c, ptr) =>
      && c < |h.sizes| && h.sizes[c] <= h.largest && h.sizes[c] + b.bytes <= h.limit
      && b' == Buffer(b.bytes + h.sizes[c], b.lists[c := [ptr] + b.lists[c]])
    case Passed => b' == b
    case Cleared =>
      && |b'.lists| == |b.lists| && NoneCached(b')
      && b.bytes == b'.bytes + CachedBytes(b.lists, h.sizes, |b.lists|)
  }

  lemma AlignedSize(sz: nat)
    ensures Aligned(sz) % 8 == 0 && sz <= Aligned(sz) < sz + 8
  {
  }

  /** The heap behind the buffer: it takes objects back. */
  class Parent {
    ghost var taken: multiset<nat>

    ghost method Take(ptr: nat)
      modifies this
      ensures taken == old(taken) + multiset{ptr}
    {
      taken := taken + multiset{ptr};
    }
  }

  class Tlab {
    const sizes: seq<nat>
    const largest: nat               // LargestObject
    const limit: nat                 // LocalHeapThreshold
    const parent: Parent
    var bytes: nat                   // _localHeapBytes
    var lists: seq<seq<nat>>         // _localHeap

    ghost function Form(): Shape { Shape(sizes, largest, limit) }

    ghost function Now(): Buffer
      reads this
    {
      Buffer(bytes, lists)
    }

    ghost function Bytes(): nat
      requires |lists| == |sizes|
      reads this
    {
      CachedBytes(lists, sizes, |lists|)
    }

    ghost function Objects(): multiset<nat>
      reads this
    {
      CachedObjects(lists, |lists|)
    }

    ghost predicate Valid()
      reads this
    {
      ShapeOk(Form()) && BufferOk(Form(), Now())
    }

    constructor (classes: seq<nat>, largestObject: nat, threshold: nat, heap: Parent)
      requires |classes| > 0 && Increasing(classes) && 0 < classes[0] && largestObject <= classes[|classes| - 1]
      ensures Valid() && Form() == Shape(classes, largestObject, threshold) && parent == heap
      ensures Objects() == multiset{} && NoneCached(Now()) && bytes == 0
    {
      sizes, largest, limit, parent := classes, largestObject, threshold, heap;
      bytes := 0;
      lists := seq(|classes|, _ => []);
      new;
      EmptyBytes(lists, sizes, |lists|);
      AllEmpty(lists, |lists|);
    }

    /** `malloc`: a cached object of a class large enough, or a miss for the parent to serve.  The counter
        covers the size asked for, which the source asserts. */
    method Malloc(request: nat) returns (ptr: nat, hit: bool, sz: nat, ghost cls: nat)
      requires Valid()
      modifies this
      ensures sz == Aligned(if request < 16 then 16 else request)
      ensures Valid() && Moves(Form(), old(Now()), Now(), if hit then Hit(cls, sz) else Passed)
      ensures sz <= largest ==> FirstFit(sizes, sz, cls)
      ensures hit <==> sz <= largest && old(lists)[cls] != []
      ensures hit ==> Objects() + multiset{ptr} == old(Objects()) && sz <= old(bytes) && bytes == old(bytes) - sz
      ensures hit ==> ptr == old(lists)[cls][0] && bytes - Bytes() == old(bytes - Bytes()) + (sizes[cls] - sz)
      ensures !hit ==> lists == old(lists) && bytes == old(bytes)
    {
      hide Aligned;
      ptr, hit, sz, cls := 0, false, Aligned(if request < 16 then 16 else request), 0;
      AlignedSize(if request < 16 then 16 else request);
      if sz <= largest {
        var c := SizeClass(sizes, sz);
        cls := c;
        if lists[c] != [] {
          var l := lists[c];
          ptr := l[0];
          hit := true;
          Removing(lists, sizes, c);
          bytes := bytes - sz;
          lists := lists[c := lists[c][1..]];
        }
      }
    }

    /** `free` of an object of class `c`: cached, unless it is too large or the buffer would hold too much. */
    method Free(ptr: nat, c: nat) returns (kept: bool)
      requires Valid() && c < |sizes|
      modifies this, parent
      ensures Valid() && (kept <==> sizes[c] <= largest && sizes[c] + old(bytes) <= limit)
      ensures Moves(Form(), old(Now()), Now(), if kept then Kept(c, ptr) else Passed)
      ensures bytes - Bytes() == old(bytes - Bytes())
      ensures Objects() + parent.taken == old(Objects() + parent.taken) + multiset{ptr}
      ensures kept ==> parent.taken == old(parent.taken)
    {
      var sz := sizes[c];
      kept := sz <= largest && sz + bytes <= limit;
      if kept {
        var k := SizeClass(sizes, sz);
        OwnClass(sizes, c, k);
        Adding(lists, sizes, c, ptr);
        lists := lists[k := [ptr] + lists[k]];
        bytes := bytes + sz;
      } else {
        parent.Take(ptr);
      }
    }

    /** The objects of class `i` go back to the parent. */
    method Drain(i: nat)
      requires Valid() && i < |sizes|
      modifies this, parent
      ensures Valid() && parent.taken + Objects() == old(parent.taken + Objects())
      ensures lists == old(lists)[i := []] && bytes - Bytes() == old(bytes - Bytes())
    {
      var sz := sizes[i];
      while lists[i] != []
        invariant Valid() && parent.taken + Objects() == old(parent.taken + Objects())
        invariant lists == old(lists)[i := lists[i]] && bytes - Bytes() == old(bytes - Bytes())
        decreases |lists[i]|
      {
        var l := lists[i];
        Removing(lists, sizes, i);
        lists := lists[i := l[1..]];
        parent.Take(l[0]);
        bytes := bytes - sz;
      }
    }

    /** `clear`: every cached object goes back to the parent, once, although the loop stops as soon as the
        counter is zero. */
    method Clear()
      requires Valid()
      modifies this, parent
      ensures Valid() && Moves(Form(), old(Now()), Now(), Cleared)
      ensures parent.taken == old(parent.taken) + old(Objects())
      ensures Objects() == multiset{} && bytes == old(bytes - Bytes())
    {
      hide Increasing;
      var i := |lists| - 1;
      while bytes > 0 && i >= 0
        invariant Valid() && -1 <= i < |lists| == |old(lists)|
        invariant parent.taken + Objects() == old(parent.taken + Objects()) && bytes - Bytes() == old(bytes - Bytes())
        invariant forall c {:trigger lists[c]} :: i < c < |lists| ==> lists[c] == []
        decreases i + 1
      {
        Drain(i);
        i := i - 1;
      }
      AllPositive(sizes);
      if bytes == 0 {
        NothingCached(lists, sizes, |lists|);
      } else {
        AllEmpty(lists, |lists|);
      }
      EmptyBytes(lists, sizes, |lists|);
    }
  }

  lemma AllPositive(sizes: seq<nat>)
    requires Increasing(sizes) && (|sizes| > 0 ==> 0 < sizes[0])
    ensures forall k {:trigger sizes[k]} :: 0 <= k < |sizes| ==> 0 < sizes[k]
  {
    forall k {:trigger sizes[k]} | 0 <= k < |sizes| ensures 0 < sizes[k] {
      assert k > 0 ==> sizes[0] < sizes[k];
    }
  }

  /** The class of a class size is that class. */
  lemma OwnClass(sizes: seq<nat>, c: nat, k: nat)
    requires Increasing(sizes) && c < |sizes| && k < |sizes| && sizes[c] <= sizes[k]
    requires forall i {:trigger sizes[i]} :: 0 <= i < k ==> sizes[i] < sizes[c]
    ensures k == c
  {
  }

  lemma {:induction false} EmptyBytes(lists: seq<seq<nat>>, sizes: seq<nat>, n: nat)
    requires n <= |lists| == |sizes| && forall c {:trigger lists[c]} :: 0 <= c < n ==> lists[c] == []
    ensures CachedBytes(lists, sizes, n) == 0
  {
    if n > 0 {
      EmptyBytes(lists, sizes, n - 1);
    }
  }

  lemma {:induction false} AllEmpty(lists: seq<seq<nat>>, n: nat)
    requires n <= |lists| && forall c {:trigger lists[c]} :: 0 <= c < n ==> lists[c] == []
    ensures CachedObjects(lists, n) == multiset{}
  {
    if n > 0 {
      AllEmpty(lists, n - 1);
    }
  }
}
