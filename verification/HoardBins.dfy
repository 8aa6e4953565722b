/** One bin of a Hoard heap: `ManageOneSuperblock` in front of `EmptyClass`, and the statistics that
    `HoardManager` keeps about it. */
module HoardBins {
  import opened EmptinessLists
  import opened Words

  // ---- sums over the superblocks of a bin

  /** The free objects of all superblocks. */
  ghost function FreeObjects(free: map<nat, nat>): nat {
    if free == map[] then 0 else
      var s :| s in free;
      free[s] + FreeObjects(free - {s})
  }

  /** The objects of all superblocks. */
  ghost function Objects(total: nat, free: map<nat, nat>): nat {
    if free == map[] then 0 else
      var s :| s in free;
      total + Objects(total, free - {s})
  }

  lemma {:induction false} FreeOf(free: map<nat, nat>, s: nat)
    requires s in free
    ensures FreeObjects(free) == free[s] + FreeObjects(free - {s})
    decreases |free|
  {
    var r :| r in free && FreeObjects(free) == free[r] + FreeObjects(free - {r});
    if r != s {
      FreeOf(free - {r}, s);
      FreeOf(free - {s}, r);
      assert free - {r} - {s} == free - {s} - {r};
    }
  }

  lemma {:induction false} ObjectsOf(total: nat, free: map<nat, nat>, s: nat)
    requires s in free
    ensures Objects(total, free) == total + Objects(total, free - {s})
    decreases |free|
  {
    var r :| r in free && Objects(total, free) == total + Objects(total, free - {r});
    if r != s {
      ObjectsOf(total, free - {r}, s);
      ObjectsOf(total, free - {s}, r);
      assert free - {r} - {s} == free - {s} - {r};
    }
  }

  /** The sums when the entry of one superblock is set. */
  lemma SumsPut(total: nat, free: map<nat, nat>, s: nat, n: nat)
    ensures FreeObjects(free[s := n]) == n + FreeObjects(free - {s})
    ensures Objects(total, free[s := n]) == total + Objects(total, free - {s})
  {
    FreeOf(free[s := n], s);
    ObjectsOf(total, free[s := n], s);
    assert free[s := n] - {s} == free - {s};
  }

  lemma {:induction false} SomeFree(free: map<nat, nat>) returns (s: nat)
    requires FreeObjects(free) > 0
    ensures s in free && free[s] > 0
    decreases |free|
  {
    var r :| r in free && FreeObjects(free) == free[r] + FreeObjects(free - {r});
    if free[r] > 0 {
      s := r;
    } else {
      s := SomeFree(free - {r});
    }
  }

  // ---- the bin

  ghost predicate LineOk(head: seq<nat>, next: Words, prev: Words, lists: seq<seq<nat>>, i: nat)
    requires i < |head| == |lists|
  {
    head[i] == First(lists[i]) && ListOk(next, prev, lists[i])
  }

  /** The links stand for the lists. */
  ghost predicate LinesOk(head: seq<nat>, next: Words, prev: Words, lists: seq<seq<nat>>) {
    |head| == |lists| == CLASSES + 2 && forall i {:trigger LineOk(head, next, prev, lists, i)} :: 0 <= i < |lists| ==>
        LineOk(head, next, prev, lists, i)
  }

  predicate InList(lists: seq<seq<nat>>, i: nat, s: nat) { i < |lists| && s in lists[i] }

  /** A superblock of list `i` has that fullness, and is neither cached nor in hand. */
  predicate Filed(total: nat, free: map<nat, nat>, current: nat, hand: nat, s: nat, i: nat)
    requires 0 < total
  {
    s in free && free[s] <= total && Fullness(total, free[s]) == i && s != current && s != hand
  }

  /** A superblock of the bin is cached, in hand, or in the list of its fullness. */
  predicate Somewhere(total: nat, free: map<nat, nat>, current: nat, hand: nat, lists: seq<seq<nat>>, s: nat)
    requires 0 < total && s in free
  {
    s != 0 && free[s] <= total && (s == current || s == hand || InList(lists, Fullness(total, free[s]), s))
  }

  ghost predicate Sorted(total: nat, free: map<nat, nat>, current: nat, hand: nat, lists: seq<seq<nat>>) {
    && 0 < total && (current != 0 ==> current in free && current != hand)
    && (forall i, s {:trigger InList(lists, i, s)} :: InList(lists, i, s) ==> Filed(total, free, current, hand, s, i))
    && (forall s {:trigger Somewhere(total, free, current, hand, lists, s)} :: s in free ==>
            Somewhere(total, free, current, hand, lists, s))
  }

  class Bin {
    const total: nat                 // objects in a superblock
    var head: seq<nat>               // _available, by fullness
    var next: Words
    var prev: Words
    var current: nat                 // the cached superblock, or null
    var free: map<nat, nat>          // the free objects of the superblocks of this bin
    var inUse: int                   // the statistics
    var held: int                    // `_allocated`
    ghost var lists: seq<seq<nat>>   // the lists the links stand for

    /** The superblocks are in the lists of their fullness, apart from the cached one and from `hand`,
        which an operation is at work on. */
    ghost predicate Kept(hand: nat)
      reads this
    {
      LinesOk(head, next, prev, lists) && Sorted(total, free, current, hand, lists)
    }

    /** The statistics are the sums over the superblocks. */
    ghost predicate Counted()
      reads this
    {
      held == Objects(total, free) && inUse == held - FreeObjects(free)
    }

    ghost predicate Valid()
      reads this
    {
      Kept(0) && Counted()
    }

    constructor (objects: nat)
      requires objects > 0
      ensures Valid() && total == objects && free == map[]
    {
      total, next, prev, current, free, inUse, held := objects, map[], map[], 0, map[], 0, 0;
      head := seq(CLASSES + 2, _ => 0);
      lists := seq(CLASSES + 2, _ => []);
    }
  }

  /** Every superblock is full. */
  ghost predicate AllFull(free: map<nat, nat>) { forall s {:trigger s in free} :: s in free ==> free[s] == 0 }

  // ---- EmptyClass

  lemma PushLines(head: seq<nat>, next: Words, prev: Words, lists: seq<seq<nat>>, cl: nat, s: nat)
    requires LinesOk(head, next, prev, lists) && cl < |lists| && s != 0
    requires forall i {:trigger InList(lists, i, s)} :: !InList(lists, i, s)
    requires forall i, j, r {:trigger InList(lists, i, r), InList(lists, j, r)} ::
               InList(lists, i, r) && InList(lists, j, r) ==> i == j
    ensures var n := head[cl];
            LinesOk(head[cl := s], next[s := n], Cut(prev[s := 0], n, s), lists[cl := [s] + lists[cl]])
  {
    var n, l := head[cl], lists[cl];
    var head', next', prev', lists' := head[cl := s], next[s := n], Cut(prev[s := 0], n, s), lists[cl := [s] + l];
    assert LineOk(head, next, prev, lists, cl) && !InList(lists, cl, s);
    PushOk(next, prev, l, s);
    forall i {:trigger LineOk(head', next', prev', lists', i)} | 0 <= i < |lists'|
      ensures LineOk(head', next', prev', lists', i)
    {
      if i != cl {
        assert LineOk(head, next, prev, lists, i);
        forall r {:trigger r in lists[i]} | r in lists[i]
          ensures At(next', r) == At(next, r) && At(prev', r) == At(prev, r)
        {
          assert InList(lists, i, r) && !InList(lists, i, s);
          assert r == n && n != 0 ==> InList(lists, cl, r);
        }
        OtherOk(next, prev, next', prev', lists[i]);
      }
    }
  }

  lemma PushSorted(total: nat, free: map<nat, nat>, current: nat, lists: seq<seq<nat>>, s: nat)
    requires Sorted(total, free, current, s, lists) && s in free && s != current && |lists| == CLASSES + 2
    ensures free[s] <= total && Fullness(total, free[s]) < |lists|
    ensures var cl := Fullness(total, free[s]); Sorted(total, free, current, 0, lists[cl := [s] + lists[cl]])
  {
    hide Fullness;
    assert Somewhere(total, free, current, s, lists, s);
    FullnessMeans(total, free[s]);
    var cl := Fullness(total, free[s]);
    var lists' := lists[cl := [s] + lists[cl]];
    forall i, r {:trigger InList(lists', i, r)} | InList(lists', i, r) ensures Filed(total, free, current, 0, r, i) {
      assert r != s || i != cl ==> InList(lists, i, r);
      assert Somewhere(total, free, current, s, lists, r);
    }
    forall r {:trigger Somewhere(total, free, current, 0, lists', r)} | r in free
      ensures Somewhere(total, free, current, 0, lists', r)
    {
      assert Somewhere(total, free, current, s, lists, r);
    }
  }

  /** The superblock is in front of the list of its fullness, and the others are as they were. */
  ghost predicate InFront(total: nat, free: map<nat, nat>, lists: seq<seq<nat>>, lists': seq<seq<nat>>, s: nat) {
    && 0 < total && s in free && free[s] <= total && Fullness(total, free[s]) < |lists|
    && var cl := Fullness(total, free[s]); lists' == lists[cl := [s] + lists[cl]]
  }

  /** The superblock was in front of the first list that was not empty. */
  ghost predicate OffFront(lists: seq<seq<nat>>, lists': seq<seq<nat>>, s: nat) {
    exists n {:trigger lists[n]} ::
      && 0 <= n < |lists| && lists[n] != [] && s == lists[n][0] && lists' == lists[n := lists[n][1..]]
      && forall i {:trigger lists[i]} :: 0 <= i < n ==> lists[i] == []
  }

  /** `EmptyClass::put`: a superblock at the front of the list of its fullness. */
  method Push(b: Bin, s: nat)
    requires b.Kept(s) && s in b.free && s != b.current
    modifies b`head, b`next, b`prev, b`lists
    ensures b.Kept(0) && InFront(b.total, b.free, old(b.lists), b.lists, s)
  {
    hide Fullness;
    PushSorted(b.total, b.free, b.current, b.lists, s);
    var cl := Fullness(b.total, b.free[s]);
    assert Somewhere(b.total, b.free, b.current, s, b.lists, s);
    PushLines(b.head, b.next, b.prev, b.lists, cl, s);
    var n := b.head[cl];
    b.prev := b.prev[s := 0];
    b.next := b.next[s := n];
    if n != 0 {
      b.prev := b.prev[n := s];
    }
    b.head := b.head[cl := s];
    b.lists := b.lists[cl := [s] + b.lists[cl]];
  }

  lemma PullLines(head: seq<nat>, next: Words, prev: Words, lists: seq<seq<nat>>, i: nat, j: nat)
    requires LinesOk(head, next, prev, lists) && i < |lists| && j < |lists[i]|
    requires forall i, j, r {:trigger InList(lists, i, r), InList(lists, j, r)} ::
               InList(lists, i, r) && InList(lists, j, r) ==> i == j
    ensures var s := lists[i][j]; var p, n := At(prev, s), At(next, s);
            && 0 <= n
            && LinesOk(if s == head[i] then head[i := n] else head, Cut(next, p, n), Cut(prev, n, p),
                       lists[i := Without(lists[i], j)])
  {
    var l := lists[i];
    var s := l[j];
    var p, n := At(prev, s), At(next, s);
    assert LineOk(head, next, prev, lists, i) && LinkOk(next, prev, l, j);
    CutOk(next, prev, l, j);
    assert s == head[i] <==> j == 0;
    var head' := if s == head[i] then head[i := n] else head;
    var next', prev', lists' := Cut(next, p, n), Cut(prev, n, p), lists[i := Without(l, j)];
    forall k {:trigger LineOk(head', next', prev', lists', k)} | 0 <= k < |lists'|
      ensures LineOk(head', next', prev', lists', k)
    {
      if k != i {
        assert LineOk(head, next, prev, lists, k);
        forall r {:trigger r in lists[k]} | r in lists[k]
          ensures At(next', r) == At(next, r) && At(prev', r) == At(prev, r)
        {
          assert InList(lists, k, r);
          assert r == p && p != 0 ==> InList(lists, i, r);
          assert r == n && n != 0 ==> InList(lists, i, r);
        }
        OtherOk(next, prev, next', prev', lists[k]);
      }
    }
  }

  lemma PullSorted(total: nat, free: map<nat, nat>, current: nat, lists: seq<seq<nat>>, i: nat, j: nat)
    requires Sorted(total, free, current, 0, lists) && i < |lists| && j < |lists[i]|
    requires forall j, k {:trigger lists[i][j], lists[i][k]} :: 0 <= j < k < |lists[i]| ==> lists[i][j] != lists[i][k]
    ensures var s := lists[i][j];
            s in free && s != current && Sorted(total, free, current, s, lists[i := Without(lists[i], j)])
  {
    hide Fullness;
    var s, l := lists[i][j], lists[i];
    var lists' := lists[i := Without(l, j)];
    assert InList(lists, i, s);
    forall r ensures r in Without(l, j) <==> r in l && r != s {
      WithoutHas(l, j, r);
    }
    forall k, r {:trigger InList(lists', k, r)} | InList(lists', k, r) ensures Filed(total, free, current, s, r, k) {
      assert InList(lists, k, r);
    }
    forall r {:trigger Somewhere(total, free, current, s, lists', r)} | r in free
      ensures Somewhere(total, free, current, s, lists', r)
    {
      assert Somewhere(total, free, current, 0, lists, r);
    }
  }

  lemma WithoutHas(l: seq<int>, j: nat, r: int)
    requires j < |l| && forall j, k {:trigger l[j], l[k]} :: 0 <= j < k < |l| ==> l[j] != l[k]
    ensures r in Without(l, j) <==> r in l && r != l[j]
  {
    var w := Without(l, j);
    if r in l && r != l[j] {
      var i :| 0 <= i < |l| && l[i] == r;
      assert w[if i < j then i else i - 1] == r;
    }
    if r in w {
      var i :| 0 <= i < |w| && w[i] == r;
      assert l[if i < j then i else i + 1] == r;
    }
  }

  /** The superblock at position `j` of list `i` taken out of its list. */
  method Pull(b: Bin, s: nat, i: nat, ghost j: nat)
    requires b.Kept(0) && i < |b.lists| && j < |b.lists[i]| && b.lists[i][j] == s
    modifies b`head, b`next, b`prev, b`lists
    ensures b.Kept(s) && s in b.free && s != b.current && b.lists == old(b.lists)[i := Without(old(b.lists[i]), j)]
  {
    hide Fullness;
    assert LineOk(b.head, b.next, b.prev, b.lists, i);
    PullSorted(b.total, b.free, b.current, b.lists, i, j);
    PullLines(b.head, b.next, b.prev, b.lists, i, j);
    var p, n := At(b.prev, s), At(b.next, s);
    if p != 0 {
      b.next := b.next[p := n];
    }
    if n != 0 {
      b.prev := b.prev[n := p];
    }
    if s == b.head[i] {
      b.head := b.head[i := n];
    }
    b.lists := b.lists[i := Without(b.lists[i], j)];
  }

  /** `EmptyClass::get`: the front of the first list that is not that of the full superblocks. */
  method Emptiest(b: Bin) returns (s: nat)
    requires b.Kept(0)
    modifies b`head, b`next, b`prev, b`lists
    ensures s == 0 ==> b.Kept(0) && forall r {:trigger r in b.free} :: r in b.free && r != b.current ==> b.free[r] == 0
    ensures s != 0 ==> b.Kept(s) && s in b.free && 0 < b.free[s] <= b.total && s != b.current
    ensures s != 0 ==> forall r {:trigger r in b.free} :: r in b.free && r != b.current ==>
              b.free[r] <= b.total && Fullness(b.total, b.free[s]) <= Fullness(b.total, b.free[r])
    ensures if s == 0 then b.lists == old(b.lists) else OffFront(old(b.lists), b.lists, s)
  {
    hide Fullness;
    var n := 0;
    while n < CLASSES + 1
      invariant 0 <= n <= CLASSES + 1 && b.Kept(0) && forall i :: 0 <= i < n ==> b.lists[i] == []
      invariant b.lists == old(b.lists)
    {
      assert LineOk(b.head, b.next, b.prev, b.lists, n);
      s := b.head[n];
      assert b.lists[n] != [] ==> LinkOk(b.next, b.prev, b.lists[n], 0);
      if s != 0 {
        assert InList(b.lists, n, s);
        FullnessMeans(b.total, b.free[s]);
        Fuller(b, n);
        Pull(b, s, n, 0);
        assert Without(old(b.lists)[n], 0) == old(b.lists)[n][1..];
        return;
      }
      n := n + 1;
    }
    Fuller(b, n);
    s := 0;
  }

  /** With the lists before `n` empty, every listed superblock is at least that full. */
  lemma Fuller(b: Bin, n: nat)
    requires b.Kept(0) && n <= CLASSES + 1 && forall i :: 0 <= i < n ==> b.lists[i] == []
    ensures forall r {:trigger r in b.free} :: r in b.free && r != b.current ==>
              b.free[r] <= b.total && n <= Fullness(b.total, b.free[r]) && (n == CLASSES + 1 ==> b.free[r] == 0)
  {
    hide Fullness;
    forall r {:trigger r in b.free} | r in b.free && r != b.current
      ensures b.free[r] <= b.total && n <= Fullness(b.total, b.free[r]) && (n == CLASSES + 1 ==> b.free[r] == 0)
    {
      assert Somewhere(b.total, b.free, b.current, 0, b.lists, r);
      FullnessMeans(b.total, b.free[r]);
    }
  }

  /** `EmptyClass::free`: one more free object in a listed superblock, moved if its fullness changed. */
  method FreeListed(b: Bin, s: nat)
    requires b.Kept(0) && s in b.free && s != b.current && b.free[s] < b.total
    modifies b`head, b`next, b`prev, b`lists, b`free
    ensures b.Kept(0) && b.free == old(b.free)[s := old(b.free)[s] + 1]
  {
    hide Fullness;
    assert Somewhere(b.total, b.free, b.current, 0, b.lists, s);
    FullnessMeans(b.total, b.free[s]);
    FullnessMeans(b.total, b.free[s] + 1);
    var oldCl := Fullness(b.total, b.free[s]);
    var newCl := Fullness(b.total, b.free[s] + 1);
    if oldCl != newCl {
      ghost var j :| 0 <= j < |b.lists[oldCl]| && b.lists[oldCl][j] == s;
      Pull(b, s, oldCl, j);
      SetHand(b.total, b.free, b.current, b.lists, s, b.free[s] + 1);
      b.free := b.free[s := b.free[s] + 1];
      Push(b, s);
    } else {
      SetSame(b.total, b.free, b.current, b.lists, s, b.free[s] + 1);
      b.free := b.free[s := b.free[s] + 1];
    }
  }

  /** The superblock in hand may have any number of free objects. */
  lemma SetHand(total: nat, free: map<nat, nat>, current: nat, lists: seq<seq<nat>>, s: nat, n: nat)
    requires Sorted(total, free, current, s, lists) && s != 0 && s != current && n <= total
    ensures Sorted(total, free[s := n], current, s, lists)
  {
    hide Fullness;
    var free' := free[s := n];
    forall i, r {:trigger InList(lists, i, r)} | InList(lists, i, r) ensures Filed(total, free', current, s, r, i) {
      assert Filed(total, free, current, s, r, i);
    }
    forall r {:trigger Somewhere(total, free', current, s, lists, r)} | r in free'
      ensures Somewhere(total, free', current, s, lists, r)
    {
      assert r != s ==> Somewhere(total, free, current, s, lists, r);
    }
  }

  /** A superblock whose fullness does not change may stay, and the cached one in any case. */
  lemma SetSame(total: nat, free: map<nat, nat>, current: nat, lists: seq<seq<nat>>, s: nat, n: nat)
    requires Sorted(total, free, current, 0, lists) && s in free && n <= total && free[s] <= total
    requires s == current || Fullness(total, n) == Fullness(total, free[s])
    ensures Sorted(total, free[s := n], current, 0, lists)
  {
    hide Fullness;
    var free' := free[s := n];
    forall i, r {:trigger InList(lists, i, r)} | InList(lists, i, r) ensures Filed(total, free', current, 0, r, i) {
      assert Filed(total, free, current, 0, r, i);
    }
    forall r {:trigger Somewhere(total, free', current, 0, lists, r)} | r in free'
      ensures Somewhere(total, free', current, 0, lists, r)
    {
      assert Somewhere(total, free, current, 0, lists, r);
    }
  }

  // ---- ManageOneSuperblock

  /** One more or one less free object in the cached superblock. */
  method SetCurrent(b: Bin, n: nat)
    requires b.Kept(0) && b.current != 0 && n <= b.total
    modifies b`free
    ensures b.Kept(0) && b.free == old(b.free)[b.current := n]
  {
    assert Somewhere(b.total, b.free, b.current, 0, b.lists, b.current);
    SetSame(b.total, b.free, b.current, b.lists, b.current, n);
    b.free := b.free[b.current := n];
  }

  /** The superblock in hand becomes the cached one, there being none. */
  lemma Cached(total: nat, free: map<nat, nat>, lists: seq<seq<nat>>, s: nat)
    requires Sorted(total, free, 0, s, lists) && s in free
    ensures Sorted(total, free, s, 0, lists)
  {
    hide Fullness;
    assert Somewhere(total, free, 0, s, lists, s);
    forall i, r {:trigger InList(lists, i, r)} | InList(lists, i, r) ensures Filed(total, free, s, 0, r, i) {
      assert Filed(total, free, 0, s, r, i) && Somewhere(total, free, 0, s, lists, r);
    }
    forall r {:trigger Somewhere(total, free, s, 0, lists, r)} | r in free
      ensures Somewhere(total, free, s, 0, lists, r)
    {
      assert Somewhere(total, free, 0, s, lists, r);
    }
  }

  /** The cached superblock comes into hand. */
  lemma Uncached(total: nat, free: map<nat, nat>, lists: seq<seq<nat>>, s: nat)
    requires Sorted(total, free, s, 0, lists) && s != 0
    ensures Sorted(total, free, 0, s, lists)
  {
    hide Fullness;
    forall i, r {:trigger InList(lists, i, r)} | InList(lists, i, r) ensures Filed(total, free, 0, s, r, i) {
      assert Filed(total, free, s, 0, r, i) && Somewhere(total, free, s, 0, lists, r);
    }
    forall r {:trigger Somewhere(total, free, 0, s, lists, r)} | r in free
      ensures Somewhere(total, free, 0, s, lists, r)
    {
      assert Somewhere(total, free, s, 0, lists, r);
    }
  }

  /** A superblock of the emptiest class, and not full. */
  ghost predicate InEmptiest(total: nat, free: map<nat, nat>, s: nat) {
    && 0 < total && s in free && 0 < free[s] <= total
    && forall r {:trigger r in free} :: r in free ==>
            free[r] <= total && Fullness(total, free[s]) <= Fullness(total, free[r])
  }

  /** What `get` takes: the cached superblock if there is one, or else one of the emptiest. */
  ghost predicate Picked(total: nat, free: map<nat, nat>, current: nat, s: nat) {
    if current != 0 then s == current else InEmptiest(total, free, s)
  }

  /** What `malloc` serves from: the cached superblock if it has an object, or else one of the emptiest. */
  ghost predicate Serving(total: nat, free: map<nat, nat>, current: nat, s: nat) {
    if current in free && free[current] > 0 then s == current else InEmptiest(total, free, s)
  }

  /** `get`: the cached superblock, whatever its fullness, or the emptiest listed one that is not full. */
  method GetBlock(b: Bin) returns (s: nat)
    requires b.Kept(0)
    modifies b`head, b`next, b`prev, b`lists, b`current
    ensures s == 0 ==> b.Kept(0) && AllFull(b.free) && b.current == 0
    ensures s == 0 ==> old(b.current) == 0
    ensures s != 0 ==> b.Kept(s) && s in b.free && b.current == 0 && Picked(b.total, b.free, old(b.current), s)
  {
    if b.current != 0 {
      s := b.current;
      Uncached(b.total, b.free, b.lists, s);
      b.current := 0;
    } else {
      s := Emptiest(b);
      NoneNull(b, s);
    }
  }

  lemma NoneNull(b: Bin, hand: nat)
    requires b.Kept(hand)
    ensures 0 !in b.free
  {
    assert 0 in b.free ==> Somewhere(b.total, b.free, b.current, hand, b.lists, 0);
  }

  /** `put`: the superblock becomes the cached one, and the cached one is listed. */
  method PutBlock(b: Bin, s: nat, n: nat)
    requires b.Kept(0) && s !in b.free && s != 0 && n <= b.total
    modifies b`head, b`next, b`prev, b`lists, b`current, b`free
    ensures b.Kept(0) && b.current == s && b.free == old(b.free)[s := n]
  {
    hide Fullness;
    if b.current != 0 {
      var c := b.current;
      Uncached(b.total, b.free, b.lists, c);
      b.current := 0;
      Push(b, c);
    }
    AddHand(b.total, b.free, b.lists, s, n);
    b.free := b.free[s := n];
    Cached(b.total, b.free, b.lists, s);
    b.current := s;
  }

  lemma AddHand(total: nat, free: map<nat, nat>, lists: seq<seq<nat>>, s: nat, n: nat)
    requires Sorted(total, free, 0, 0, lists) && s !in free && s != 0 && n <= total
    ensures Sorted(total, free[s := n], 0, s, lists)
  {
    hide Fullness;
    var free' := free[s := n];
    forall i, r {:trigger InList(lists, i, r)} | InList(lists, i, r) ensures Filed(total, free', 0, s, r, i) {
      assert Filed(total, free, 0, 0, r, i);
    }
    forall r {:trigger Somewhere(total, free', 0, s, lists, r)} | r in free'
      ensures Somewhere(total, free', 0, s, lists, r)
    {
      assert r != s ==> Somewhere(total, free, 0, 0, lists, r);
    }
  }

  /** The superblock in hand leaves the bin. */
  lemma DropHand(total: nat, free: map<nat, nat>, lists: seq<seq<nat>>, s: nat)
    requires Sorted(total, free, 0, s, lists) && s in free
    ensures Sorted(total, free - {s}, 0, 0, lists)
  {
    hide Fullness;
    var free' := free - {s};
    forall i, r {:trigger InList(lists, i, r)} | InList(lists, i, r) ensures Filed(total, free', 0, 0, r, i) {
      assert Filed(total, free, 0, s, r, i) && Somewhere(total, free, 0, s, lists, r);
    }
    forall r {:trigger Somewhere(total, free', 0, 0, lists, r)} | r in free'
      ensures Somewhere(total, free', 0, 0, lists, r)
    {
      assert Somewhere(total, free, 0, s, lists, r);
    }
  }

  /** `malloc`: an object of the cached superblock, or of another one that becomes the cached one; null just
      when every superblock is full. */
  method TakeObject(b: Bin) returns (s: nat)
    requires b.Kept(0)
    modifies b`head, b`next, b`prev, b`lists, b`current, b`free
    ensures b.Kept(0)
    ensures s != 0 ==> s in old(b.free) && 0 < old(b.free)[s] && b.free == old(b.free)[s := old(b.free)[s] - 1]
    ensures s != 0 ==> Serving(b.total, old(b.free), old(b.current), s) && b.current == s
    ensures s == 0 ==> AllFull(b.free) && b.free == old(b.free)
  {
    hide Fullness, LinesOk;
    CachedThere(b);
    if b.current != 0 && b.free[b.current] > 0 {
      s := b.current;
      Within(b, s);
      SetCurrent(b, b.free[s] - 1);
      return;
    }
    s := SlowObject(b);
  }

  lemma CachedThere(b: Bin)
    requires b.Kept(0)
    ensures b.current != 0 ==> b.current in b.free
    ensures 0 !in b.free
  {
    NoneNull(b, 0);
  }

  lemma Within(b: Bin, s: nat)
    requires b.Kept(0) && s in b.free
    ensures b.free[s] <= b.total
  {
    assert Somewhere(b.total, b.free, b.current, 0, b.lists, s);
  }

  /** `slowMallocPath`.  A superblock got from the lists is never full, so the loop runs once. */
  method SlowObject(b: Bin) returns (s: nat)
    requires b.Kept(0)
    modifies b`head, b`next, b`prev, b`lists, b`current, b`free
    ensures b.Kept(0)
    ensures s != 0 ==> s in old(b.free) && 0 < old(b.free)[s] && b.free == old(b.free)[s := old(b.free)[s] - 1]
    ensures s != 0 ==> Serving(b.total, old(b.free), old(b.current), s) && b.current == s
    ensures s == 0 ==> AllFull(b.free) && b.free == old(b.free)
  {
    hide Fullness;
    CachedThere(b);
    if b.current != 0 {
      var c := b.current;
      Within(b, c);
      if b.free[c] > 0 {
        s := c;
        SetCurrent(b, b.free[c] - 1);
        return;
      }
      Uncached(b.total, b.free, b.lists, c);
      b.current := 0;
      Push(b, c);
    }
    s := Emptiest(b);
    NoneNull(b, s);
    if s != 0 {
      Cached(b.total, b.free, b.lists, s);
      b.current := s;
      SetCurrent(b, b.free[s] - 1);
    }
  }

  /** `free`: one more free object in a superblock of the bin. */
  method ReturnObject(b: Bin, s: nat)
    requires b.Kept(0) && s in b.free && b.free[s] < b.total
    modifies b`head, b`next, b`prev, b`lists, b`free
    ensures b.Kept(0) && b.free == old(b.free)[s := old(b.free)[s] + 1]
  {
    if s == b.current {
      assert Somewhere(b.total, b.free, b.current, 0, b.lists, s);
      SetCurrent(b, b.free[s] + 1);
    } else {
      FreeListed(b, s);
    }
  }
}
