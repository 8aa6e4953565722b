/** Hoard's `HoardManager`, for one size class: a heap `b` of a thread and the global heap `g`. */
module HoardManager {
  import opened Bits
  import opened EmptinessLists
  import opened HoardBins

  const SUPERBLOCK_SIZE: nat := 65536

  /** The heap is emptier than it should be, by two superblocks at least. */
  predicate Threshold(u: int, a: int, size: nat)
    requires size > 0
  {
    CLASSES * u < (CLASSES - 1) * a && u < a - (2 * SUPERBLOCK_SIZE) / size
  }

  /** The threshold is crossed when more than an eighth of the objects of a bin is free, and more than two
      superblocks hold. */
  lemma ThresholdIff(total: nat, free: map<nat, nat>, size: nat)
    requires size > 0
    ensures Threshold(Objects(total, free) - FreeObjects(free), Objects(total, free), size) <==>
              CLASSES * FreeObjects(free) > Objects(total, free) && FreeObjects(free) > (2 * SUPERBLOCK_SIZE) / size
  {
  }

  lemma {:induction false} FreeWithin(total: nat, free: map<nat, nat>)
    requires forall s {:trigger s in free} :: s in free ==> free[s] <= total
    ensures FreeObjects(free) <= total * |free|
    decreases |free|
  {
    if s :| s in free {
      FreeOf(free, s);
      FreeWithin(total, free - {s});
      OneLess(free, s);
      Successor(total, |free - {s}|);
    }
  }

  lemma OneLess(free: map<nat, nat>, s: nat)
    requires s in free
    ensures |free| == |free - {s}| + 1
  {
    assert free == (free - {s})[s := free[s]];
  }

  lemma Successor(a: nat, n: nat)
    ensures a * (n + 1) == a * n + a
  {
  }

  /** A heap that crosses the threshold has three superblocks at least, as long as the objects of one fit into it. */
  lemma CrossedHasThree(total: nat, free: map<nat, nat>, size: nat)
    requires 0 < size && total * size <= SUPERBLOCK_SIZE
    requires forall s {:trigger s in free} :: s in free ==> free[s] <= total
    requires Threshold(Objects(total, free) - FreeObjects(free), Objects(total, free), size)
    ensures |free| >= 3
  {
    ThresholdIff(total, free, size);
    FreeWithin(total, free);
    TwoFit(total, size);
    if |free| <= 2 {
      MulMonotone(|free|, 2, total);
    }
  }

  lemma TwoFit(total: nat, size: nat)
    requires 0 < size && total * size <= SUPERBLOCK_SIZE
    ensures 2 * total <= (2 * SUPERBLOCK_SIZE) / size
  {
    var x := 2 * SUPERBLOCK_SIZE;
    var q := x / size;
    assert x == size * q + x % size;
    MulStep(q, 2 * total, size);
    assert (2 * total) * size == 2 * (total * size);
  }

  /** Where new superblocks come from. */
  class Source {
    var unused: nat      // no superblock so far has this address or a higher one

    /** `_sourceHeap.malloc`: a superblock, or null; `granted` is the answer of the system. */
    method Obtain(granted: bool) returns (s: nat)
      requires unused > 0
      modifies this
      ensures if granted then s == old(unused) && unused == old(unused) + 1 else s == 0 && unused == old(unused)
    {
      s := 0;
      if granted {
        s := unused;
        unused := unused + 1;
      }
    }
  }

  ghost predicate Older(free: map<nat, nat>, unused: nat) { forall s {:trigger s in free} :: s in free ==> s < unused }

  /** Two heaps of the same size class, with no superblock in common. */
  ghost predicate Pair(b: Bin, g: Bin)
    reads b, g
  {
    b != g && b.Valid() && g.Valid() && b.total == g.total && b.free.Keys !! g.free.Keys
  }

  // ---- statistics

  lemma {:induction false} FreeAtMost(total: nat, free: map<nat, nat>)
    requires forall s {:trigger s in free} :: s in free ==> free[s] <= total
    ensures FreeObjects(free) <= Objects(total, free)
    decreases |free|
  {
    if free != map[] {
      var s :| s in free;
      FreeOf(free, s);
      ObjectsOf(total, free, s);
      FreeAtMost(total, free - {s});
    }
  }

  /** Objects are in use as long as some superblock is not empty. */
  lemma SomeInUse(b: Bin, s: nat)
    requires b.Valid() && s in b.free && b.free[s] < b.total
    ensures b.inUse > 0
  {
    forall r {:trigger r in b.free} | r in b.free ensures b.free[r] <= b.total {
      Within(b, r);
    }
    FreeOf(b.free, s);
    ObjectsOf(b.total, b.free, s);
    FreeAtMost(b.total, b.free - {s});
  }

  // ---- getObject, unlocked_put, get

  /** `getObject` */
  method GetObject(b: Bin) returns (s: nat)
    requires b.Valid()
    modifies b
    ensures b.Valid()
    ensures s != 0 ==>
              s in old(b.free) && 0 < old(b.free)[s] && b.free == old(b.free)[s := old(b.free)[s] - 1]
                  && b.inUse == old(b.inUse) + 1
    ensures s != 0 ==> b.free[s] < b.total && Serving(b.total, old(b.free), old(b.current), s) && b.current == s
    ensures s == 0 ==> AllFull(b.free) && b.free == old(b.free) && b.inUse == old(b.inUse)
  {
    hide LinesOk, Sorted;
    forall r {:trigger r in b.free} | r in b.free ensures b.free[r] <= b.total {
      Within(b, r);
    }
    s := TakeObject(b);
    if s != 0 {
      SumsPut(b.total, old(b.free), s, old(b.free)[s] - 1);
      FreeOf(old(b.free), s);
      ObjectsOf(b.total, old(b.free), s);
      b.inUse := b.inUse + 1;
    }
  }

  /** `unlocked_put`: a superblock with `n` free objects joins the heap, and its counts the statistics. */
  method UnlockedPut(b: Bin, s: nat, n: nat)
    requires b.Valid() && s !in b.free && s != 0 && n <= b.total
    modifies b
    ensures b.Valid() && b.current == s && b.free == old(b.free)[s := n] && b.inUse == old(b.inUse) + (b.total - n)
  {
    hide LinesOk, Sorted;
    PutBlock(b, s, n);
    SumsPut(b.total, old(b.free), s, n);
    assert old(b.free) - {s} == old(b.free);
    b.inUse := b.inUse + (b.total - n);
    b.held := b.held + b.total;
  }

  /** `get`: a superblock leaves the heap, and its counts the statistics. */
  method TakeBlock(b: Bin) returns (s: nat, n: nat)
    requires b.Valid()
    modifies b
    ensures b.Valid()
    ensures s == 0 ==> AllFull(b.free) && b.free == old(b.free) && b.inUse == old(b.inUse) && b.held == old(b.held)
    ensures s == 0 ==> old(b.current) == 0
    ensures s != 0 ==> Picked(b.total, old(b.free), old(b.current), s)
    ensures s != 0 ==>
              s in old(b.free) && n == old(b.free)[s] <= b.total && b.free == old(b.free) - {s}
                  && b.inUse == old(b.inUse) - (b.total - n)
  {
    hide LinesOk;
    s := GetBlock(b);
    n := 0;
    if s != 0 {
      n := b.free[s];
      assert Somewhere(b.total, b.free, 0, s, b.lists, s);
      FreeOf(b.free, s);
      ObjectsOf(b.total, b.free, s);
      DropHand(b.total, b.free, b.lists, s);
      b.inUse := b.inUse - (b.total - n);
      b.held := b.held - b.total;
      b.free := b.free - {s};
    }
  }

  // ---- free

  /** One superblock moves up: the one that `get` takes. */
  ghost predicate GivenUp(free: map<nat, nat>, up: map<nat, nat>, total: nat, current: nat, free': map<nat, nat>,
                          up': map<nat, nat>) {
    exists s {:trigger s in free} ::
      s in free && Picked(total, free, current, s) && free' == free - {s} && up' == up[s := free[s]]
  }

  lemma BinCounts(b: Bin)
    requires b.Valid()
    ensures b.held == Objects(b.total, b.free) && b.inUse == b.held - FreeObjects(b.free)
  {
  }

  /** `slowPathFree`: past the threshold there always is a superblock to give to the global heap. */
  method SlowPathFree(b: Bin, g: Bin)
    requires Pair(b, g) && b.inUse < b.held
    modifies b, g
    ensures Pair(b, g) && b.inUse + g.inUse == old(b.inUse + g.inUse)
    ensures exists s {:trigger s in old(b.free)} ::
              && s in old(b.free) && Picked(b.total, old(b.free), old(b.current), s)
              && b.free == old(b.free) - {s} && g.free == old(g.free)[s := old(b.free)[s]] && g.current == s
  {
    hide LinesOk, Sorted;
    ghost var r := SomeFree(b.free);
    NoneNull(b, 0);
    var s, n := TakeBlock(b);
    assert s != 0;
    UnlockedPut(g, s, n);
  }

  /** One more free object in superblock `s`, and one less in use. */
  method CountReturn(b: Bin, s: nat)
    requires b.Valid() && s in b.free && b.free[s] < b.total
    modifies b
    ensures b.Valid() && b.free == old(b.free)[s := old(b.free)[s] + 1]
    ensures b.inUse == old(b.inUse) - 1 && b.held == old(b.held) && b.current == old(b.current)
  {
    hide LinesOk, Sorted;
    SomeInUse(b, s);
    ghost var free0 := b.free;
    ReturnObject(b, s);
    SumsPut(b.total, free0, s, free0[s] + 1);
    FreeOf(free0, s);
    ObjectsOf(b.total, free0, s);
    if b.inUse > 0 {
      b.inUse := b.inUse - 1;
    }
  }

  /** `free` of an object of superblock `s` under the lock of its owner `b` */
  method FreeObject(b: Bin, g: Bin, s: nat, size: nat)
    requires Pair(b, g) && s in b.free && b.free[s] < b.total && 0 < size
    modifies b, g
    ensures Pair(b, g) && b.inUse + g.inUse == old(b.inUse + g.inUse) - 1
    ensures !Threshold(old(b.inUse) - 1, old(b.held), size) ==>
              b.free == old(b.free)[s := old(b.free)[s] + 1] && g.free == old(g.free)
    ensures Threshold(old(b.inUse) - 1, old(b.held), size) ==>
              GivenUp(old(b.free)[s := old(b.free)[s] + 1], old(g.free), b.total, old(b.current), b.free, g.free)
    ensures !Threshold(old(b.inUse) - 1, old(b.held), size) ==>
              CLASSES * FreeObjects(b.free) <= Objects(b.total, b.free)
              || FreeObjects(b.free) <= (2 * SUPERBLOCK_SIZE) / size
  {
    hide Bin.Valid, Threshold, Picked;
    CountReturn(b, s);
    Uncrossed(b, size);
    ThresholdIff(b.total, b.free, size);
    BinCounts(b);
    if Threshold(b.inUse, b.held, size) {
      SlowPathFree(b, g);
    }
  }

  /** Past the threshold some object is free. */
  lemma Uncrossed(b: Bin, size: nat)
    requires 0 < size
    ensures Threshold(b.inUse, b.held, size) ==> b.inUse < b.held
  {
  }

  /** `free` of an object whose superblock the global heap owns: its threshold is never crossed. */
  method FreeInGlobal(g: Bin, s: nat)
    requires g.Valid() && s in g.free && g.free[s] < g.total
    modifies g
    ensures g.Valid() && g.free == old(g.free)[s := old(g.free)[s] + 1] && g.inUse == old(g.inUse) - 1
  {
    CountReturn(g, s);
  }

  // ---- malloc

  /** `getAnotherSuperblock`: one of the global heap's, full or not, or a new one. */
  method AnotherBlock(b: Bin, g: Bin, src: Source, granted: bool) returns (s: nat)
    requires Pair(b, g) && 0 < src.unused && Older(b.free, src.unused) && Older(g.free, src.unused)
    modifies b, g, src
    ensures Pair(b, g) && 0 < src.unused && Older(b.free, src.unused) && Older(g.free, src.unused)
    ensures b.inUse + g.inUse == old(b.inUse + g.inUse)
    ensures s == 0 ==>
              !granted && AllFull(g.free) && b.free == old(b.free) && g.free == old(g.free)
                  && src.unused == old(src.unused)
    ensures s != 0 ==> s !in old(b.free) && s in b.free && b.current == s
    ensures s != 0 && s in old(g.free) ==> Picked(g.total, old(g.free), old(g.current), s)
    ensures src.unused != old(src.unused) ==> AllFull(old(g.free)) && old(g.current) == 0
    ensures s != 0 && s in old(g.free) ==>
              b.free == old(b.free)[s := old(g.free)[s]] && g.free == old(g.free) - {s} && src.unused == old(src.unused)
    ensures s != 0 && s !in old(g.free) ==>
              s == old(src.unused) && b.free == old(b.free)[s := b.total] && g.free == old(g.free)
                  && src.unused == old(src.unused) + 1
  {
    hide LinesOk, Sorted;
    var n;
    s, n := TakeBlock(g);
    if s == 0 {
      s := src.Obtain(granted);
      if s == 0 {
        return;
      }
      n := b.total;
    }
    UnlockedPut(b, s, n);
  }

  lemma SomeObjects(b: Bin)
    requires b.Valid()
    ensures b.total > 0
  {
  }

  /** The superblocks of both heaps, with their free objects: all are still there, the only new one comes from the
      source, and then all others are full, and one object is gone. */
  ghost predicate Supplied(all: map<nat, nat>, all': map<nat, nat>, next: nat, next': nat, total: nat, s: nat) {
    if s == 0 then all' == all && next' == next
    else if next' == next then s in all && all[s] > 0 && all' == all[s := all[s] - 1]
    else next' == next + 1 && s == next && total > 0 && all' == all[s := total - 1] && AllFull(all)
  }

  /** The superblocks of both heaps between two turns of the loop: as they were, or with one more that nobody has
      used, and then no other can serve. */
  ghost predicate Stocked(all: map<nat, nat>, b: map<nat, nat>, g: map<nat, nat>, next: nat, next': nat, total: nat) {
    if next' == next then b + g == all
    else
      && next' == next + 1 && b + g == all[next := total] && next in b && b[next] == total > 0 && AllFull(b - {next})
      && AllFull(all)
  }

  lemma StockedAtFirst(b: map<nat, nat>, g: map<nat, nat>, next: nat, total: nat)
    ensures Stocked(b + g, b, g, next, next, total)
  {
  }

  lemma StockedAsBefore(all: map<nat, nat>, b: map<nat, nat>, g: map<nat, nat>, next: nat, total: nat)
    requires Stocked(all, b, g, next, next, total)
    ensures Supplied(all, b + g, next, next, total, 0)
  {
  }

  lemma TurnServed(all: map<nat, nat>, b: map<nat, nat>, b': map<nat, nat>, g: map<nat, nat>, next: nat, next': nat,
                   total: nat, s: nat)
    requires Stocked(all, b, g, next, next', total) && b.Keys !! g.Keys
    requires s != 0 && s in b && b[s] > 0 && b' == b[s := b[s] - 1]
    ensures Supplied(all, b' + g, next, next', total, s)
  {
    assert b' + g == (b + g)[s := b[s] - 1];
    assert next' != next && s != next ==> s in b - {next};
  }

  lemma TurnMoved(all: map<nat, nat>, b: map<nat, nat>, g: map<nat, nat>, next: nat, total: nat, s: nat)
    requires Stocked(all, b, g, next, next, total) && b.Keys !! g.Keys && s in g
    ensures Stocked(all, b[s := g[s]], g - {s}, next, next, total)
  {
    assert b[s := g[s]] + (g - {s}) == b + g;
  }

  lemma TurnNew(all: map<nat, nat>, b: map<nat, nat>, g: map<nat, nat>, next: nat, total: nat)
    requires Stocked(all, b, g, next, next, total) && AllFull(b) && AllFull(g) && next !in b && next !in g && total > 0
    ensures Stocked(all, b[next := total], g, next, next + 1, total)
  {
    assert b[next := total] + g == (b + g)[next := total];
  }

  /** What holds between two turns of the loop. */
  ghost predicate Between(b: Bin, g: Bin, src: Source, all: map<nat, nat>, next: nat, use: int)
    reads b, g, src
  {
    && Pair(b, g) && 0 < src.unused && Older(b.free, src.unused) && Older(g.free, src.unused)
    && b.inUse + g.inUse == use && Stocked(all, b.free, g.free, next, src.unused, b.total)
    && (src.unused == next || (src.unused == next + 1 && !AllFull(b.free)))
  }

  lemma OlderPut(free: map<nat, nat>, next: nat, s: nat, n: nat)
    requires Older(free, next) && s in free
    ensures Older(free[s := n], next)
  {
  }

  lemma OneFewer(g: map<nat, nat>, s: nat)
    requires s in g
    ensures |g - {s}| < |g|
  {
    assert (g - {s}).Keys == g.Keys - {s};
  }

  lemma NotFull(b: map<nat, nat>, s: nat)
    requires s in b && b[s] > 0
    ensures !AllFull(b)
  {
  }

  lemma PairApart(b: Bin, g: Bin, next: nat)
    requires Pair(b, g) && Older(b.free, next) && Older(g.free, next)
    ensures b.free.Keys !! g.free.Keys && b.total == g.total && next !in b.free && next !in g.free && 0 !in g.free
    ensures b.total > 0
  {
    SomeObjects(b);
    NoneNull(g, 0);
  }

  /** One superblock more in the heap, from the global heap or new. */
  lemma Restocked(all: map<nat, nat>, b: map<nat, nat>, g: map<nat, nat>, next: nat, next': nat, total: nat, s: nat,
                  b': map<nat, nat>, g': map<nat, nat>)
    requires Stocked(all, b, g, next, next, total) && AllFull(b) && b.Keys !! g.Keys && total > 0
    requires s in g ==> b' == b[s := g[s]] && g' == g - {s} && next' == next
    requires s !in g ==> s == next && s !in b && b' == b[s := total] && g' == g && next' == next + 1 && AllFull(g)
    ensures Stocked(all, b', g', next, next', total)
    ensures |g'| < |g| || (g' == g && !AllFull(b'))
    ensures next' == next || (next' == next + 1 && !AllFull(b'))
  {
    hide Stocked, AllFull;
    if s in g {
      TurnMoved(all, b, g, next, total, s);
      OneFewer(g, s);
    } else {
      TurnNew(all, b, g, next, total);
      NotFull(b', s);
    }
  }

  /** Every superblock of the heap is full: one more to try, or a failure of the source. */
  method Restock(b: Bin, g: Bin, src: Source, granted: bool, ghost all: map<nat, nat>, ghost next: nat, ghost use: int)
    returns (s: nat)
    requires Between(b, g, src, all, next, use) && AllFull(b.free)
    modifies b, g, src
    ensures Between(b, g, src, all, next, use)
    ensures s == 0 ==> !granted && AllFull(b.free) && AllFull(g.free) && src.unused == next
    ensures s != 0 ==> |g.free| < |old(g.free)| || (g.free == old(g.free) && !AllFull(b.free))
  {
    hide Bin.Valid, Stocked, AllFull, Pair, Older;
    PairApart(b, g, src.unused);
    ghost var free0, up0 := b.free, g.free;
    s := AnotherBlock(b, g, src, granted);
    if s != 0 {
      Restocked(all, free0, up0, next, src.unused, b.total, s, b.free, g.free);
    }
  }

  /** One turn of the loop: an object, a failure of the source, or one more superblock to try. */
  method Turn(b: Bin, g: Bin, src: Source, granted: bool, ghost all: map<nat, nat>, ghost next: nat, ghost use: int)
    returns (s: nat, done: bool)
    requires Between(b, g, src, all, next, use)
    modifies b, g, src
    ensures !done ==> Between(b, g, src, all, next, use)
    ensures !done ==> |g.free| < |old(g.free)| || (g.free == old(g.free) && AllFull(old(b.free)) && !AllFull(b.free))
    ensures done ==> Pair(b, g) && 0 < src.unused && Older(b.free, src.unused) && Older(g.free, src.unused)
    ensures done && s == 0 ==> !granted && AllFull(b.free) && AllFull(g.free) && b.inUse + g.inUse == use
    ensures done && s != 0 ==> s in b.free && b.free[s] < b.total && b.inUse + g.inUse == use + 1
    ensures done ==> src.unused <= next + 1 && Supplied(all, b.free + g.free, next, src.unused, b.total, s)
  {
    hide Bin.Valid, Supplied, Stocked, AllFull, Older;
    ghost var free0 := b.free;
    s := GetObject(b);
    done := true;
    if s != 0 {
      OlderPut(free0, src.unused, s, b.free[s]);
      TurnServed(all, free0, b.free, g.free, next, src.unused, b.total, s);
    } else {
      s := Restock(b, g, src, granted, all, next, use);
      if s == 0 {
        StockedAsBefore(all, b.free, g.free, src.unused, b.total);
      } else {
        done := false;
      }
    }
  }

  /** A new superblock only when every other one is full. */
  lemma FullParts(b: map<nat, nat>, g: map<nat, nat>, all': map<nat, nat>, next: nat, next': nat, total: nat, s: nat)
    requires Supplied(b + g, all', next, next', total, s) && b.Keys !! g.Keys
    ensures next' != next ==> AllFull(b) && AllFull(g)
    ensures s != 0 && AllFull(b) && next' == next ==> s in g && g[s] > 0
  {
    var all := b + g;
    if next' != next {
      forall r {:trigger r in b} | r in b ensures b[r] == 0 {
        assert r in all;
      }
      forall r {:trigger r in g} | r in g ensures g[r] == 0 {
        assert r in all;
      }
    }
  }

  /** Nothing is lost, so a failure means that all were full. */
  lemma FailedFull(b: map<nat, nat>, g: map<nat, nat>, b': map<nat, nat>, g': map<nat, nat>)
    requires b' + g' == b + g && b.Keys !! g.Keys && AllFull(b') && AllFull(g')
    ensures AllFull(b) && AllFull(g)
  {
    var all := b + g;
    forall r {:trigger r in all} | r in all ensures all[r] == 0 {
      assert r in b' + g';
    }
    forall r {:trigger r in b} | r in b ensures b[r] == 0 {
      assert r in all;
    }
    forall r {:trigger r in g} | r in g ensures g[r] == 0 {
      assert r in all;
    }
  }

  /** Where an object comes from when the heap has none: from the global heap if that has one, and else from a new
      superblock. */
  ghost predicate FromElsewhere(b: map<nat, nat>, g: map<nat, nat>, next: nat, next': nat, s: nat) {
    && (next' != next ==> AllFull(b) && AllFull(g))
    && (AllFull(b) && !AllFull(g) ==> s in g && g[s] > 0)
    && (AllFull(b) && AllFull(g) && s != 0 ==> s == next)
  }

  lemma Elsewhere(b: map<nat, nat>, g: map<nat, nat>, b': map<nat, nat>, g': map<nat, nat>, next: nat, next': nat,
                  total: nat, s: nat)
    requires Supplied(b + g, b' + g', next, next', total, s) && b.Keys !! g.Keys
    requires s == 0 ==> AllFull(b') && AllFull(g')
    ensures FromElsewhere(b, g, next, next', s)
  {
    hide AllFull;
    FullParts(b, g, b' + g', next, next', total, s);
    if s == 0 {
      FailedFull(b, g, b', g');
    } else if next' == next && s in g && g[s] > 0 {
      NotFull(g, s);
    }
  }

  /** `slowPathMalloc`: the loop ends, since every turn uses up a superblock of the global heap, and a new
      one serves the next turn; so the source is asked once at most.  Null means that the source failed and
      every superblock of both heaps is full. */
  method SlowPathMalloc(b: Bin, g: Bin, src: Source, granted: bool) returns (s: nat)
    requires Pair(b, g) && 0 < src.unused && Older(b.free, src.unused) && Older(g.free, src.unused)
    modifies b, g, src
    ensures Pair(b, g) && 0 < src.unused && Older(b.free, src.unused) && Older(g.free, src.unused)
    ensures s == 0 ==> !granted && AllFull(b.free) && AllFull(g.free) && b.inUse + g.inUse == old(b.inUse + g.inUse)
    ensures src.unused <= old(src.unused) + 1
    ensures s != 0 ==> s in b.free && b.free[s] < b.total && b.inUse + g.inUse == old(b.inUse + g.inUse) + 1
    ensures Supplied(old(b.free + g.free), b.free + g.free, old(src.unused), src.unused, b.total, s)
    ensures FromElsewhere(old(b.free), old(g.free), old(src.unused), src.unused, s)
  {
    hide LinesOk, Sorted, Supplied, Stocked, Pair, Older, FromElsewhere;
    PairApart(b, g, src.unused);
    StockedAtFirst(b.free, g.free, src.unused, b.total);
    s := 0;
    var done := false;
    while !done
      invariant !done ==> Between(b, g, src, old(b.free + g.free), old(src.unused), old(b.inUse + g.inUse))
      invariant done ==> Pair(b, g) && 0 < src.unused && Older(b.free, src.unused) && Older(g.free, src.unused)
      invariant done && s == 0 ==>
                  !granted && AllFull(b.free) && AllFull(g.free) && b.inUse + g.inUse == old(b.inUse + g.inUse)
      invariant done && s != 0 ==>
                  s in b.free && b.free[s] < b.total && b.inUse + g.inUse == old(b.inUse + g.inUse) + 1
      invariant done ==> src.unused <= old(src.unused) + 1
      invariant done ==> Supplied(old(b.free + g.free), b.free + g.free, old(src.unused), src.unused, b.total, s)
      decreases !done, |g.free|, if AllFull(b.free) then 1 else 0
    {
      s, done := Turn(b, g, src, granted, old(b.free + g.free), old(src.unused), old(b.inUse + g.inUse));
    }
    Elsewhere(old(b.free), old(g.free), b.free, g.free, old(src.unused), src.unused, b.total, s);
  }

  /** `malloc` under the lock of `b` */
  method Malloc(b: Bin, g: Bin, src: Source, granted: bool) returns (s: nat)
    requires Pair(b, g) && 0 < src.unused && Older(b.free, src.unused) && Older(g.free, src.unused)
    modifies b, g, src
    ensures Pair(b, g) && 0 < src.unused && Older(b.free, src.unused) && Older(g.free, src.unused)
    ensures s == 0 ==> !granted && AllFull(b.free) && AllFull(g.free) && b.inUse + g.inUse == old(b.inUse + g.inUse)
    ensures src.unused <= old(src.unused) + 1
    ensures s != 0 ==> s in b.free && b.free[s] < b.total && b.inUse + g.inUse == old(b.inUse + g.inUse) + 1
    ensures Supplied(old(b.free + g.free), b.free + g.free, old(src.unused), src.unused, b.total, s)
    ensures !AllFull(old(b.free)) ==>
              && Serving(b.total, old(b.free), old(b.current), s) && s in old(b.free)
              && b.free == old(b.free)[s := old(b.free)[s] - 1]
              && g.free == old(g.free) && src.unused == old(src.unused)
    ensures AllFull(old(b.free)) ==> FromElsewhere(old(b.free), old(g.free), old(src.unused), src.unused, s)
  {
    hide LinesOk, Sorted, Supplied, Stocked, FromElsewhere, Serving, AllFull;
    ghost var free0 := b.free;
    s := GetObject(b);
    if s != 0 {
      NotFull(free0, s);
      StockedAtFirst(free0, g.free, src.unused, b.total);
      TurnServed(old(b.free + g.free), free0, b.free, g.free, src.unused, src.unused, b.total, s);
    } else {
      s := SlowPathMalloc(b, g, src, granted);
    }
  }
}
