/** How other threads move a superblock of Hoard to another heap while one thread stands still. */
module HoardMoves {
  import opened HoardProtocol
  import opened HoardExact
  import opened HoardDrive
  import Bits
  import B = HoardBins
  import L = EmptinessLists
  import M = HoardManager

  // ---- out of the global heap

  /** A heap that nobody uses. */
  lemma NewHeap(g: SizeClass, c: Exact, o: nat) returns (h: nat)
    requires ExactInv(g, c)
    ensures h != GLOBAL && h != o && h !in c.s.heapLock && h !in c.cached && Exhausted(c.s, h)
  {
    var owners := set x | x in c.s.owner :: c.s.owner[x];
    h := NewNumber(c.s.heapLock.Keys + c.cached.Keys + owners + {o});
    forall x {:trigger Has(c.s, h, x)} ensures !Has(c.s, h, x) {
      assert BlockOk(c.s, x);
      assert x in c.s.owner ==> c.s.owner[x] in owners;
    }
  }

  /** A newcomer in the bins of the global heap. */
  lemma Enter(g: SizeClass, c: Exact, t: int, o: nat) returns (u: int, h: nat, c': Exact)
    requires ExactInv(g, c) && GLOBAL !in c.s.heapLock
    ensures u != t && u !in c.s.pcs && h != GLOBAL && h != o && h !in c.s.heapLock && Leads(g, c, c', {t})
    ensures c' == c.(s := Goto(c.s, u, Fetching(h)).(heapLock := c.s.heapLock[h := u][GLOBAL := u]))
  {
    hide Leads;
    h := NewHeap(g, c, o);
    hide ExactInv, Exhausted;
    var c1;
    u, c1 := Begins(g, c, t, h);
    ExhaustedSame(c.s, c1.s, h);
    c' := TurnsToGlobal(g, c1, t, u, h);
    Then(g, c, c1, c', {t});
    Twice(c.s.pcs, u, Allocating(h), Fetching(h));
    assert c1.cached - {h} == c.cached;
  }

  /** A superblock of the global heap is fetched: `x`, or another. */
  lemma TakeOne(g: SizeClass, c: Exact, t: int, u: int, h: nat, x: nat) returns (c': Exact)
    requires ExactInv(g, c) && At(c.s, u) == Fetching(h) && u != t && GlobalFor(c.s, u) && x in c.s.owner
    requires GLOBAL in c.cached || !Exhausted(c.s, GLOBAL)
    ensures Leads(g, c, c', {t}) && |Bin(c'.s, GLOBAL)| < |Bin(c.s, GLOBAL)|
    ensures Movable(g, c, t, x) || Aside(c, c', t, x, {h, GLOBAL})
    ensures forall k {:trigger k in c'.s.heapLock} :: k in c'.s.heapLock ==>
              c'.s.heapLock[k] != u && k in c.s.heapLock && c.s.heapLock[k] == c'.s.heapLock[k]
  {
    hide ExactInv, ExactStep, Leads, Aside, Movable, Exhausted, Picks;
    var c1 := FetchingOn(g, c, u, h);
    OneStep(g, c, c1, u, t);
    LeadsInv(g, c, c1, {t}, x);
    c' := Release(g, c1, t, u, x, {h, GLOBAL});
    RankZero(c'.s, u);
    Then(g, c, c1, c', {t});
    ReleaseOn(g, c, c1, c', t, u, x, {h, GLOBAL});
  }

  /** A newcomer comes to the bins of the global heap, by way of heap `h`. */
  lemma ByWayOf(g: SizeClass, c: Exact, t: int, h: nat, x: nat) returns (u: int, c': Exact)
    requires ExactInv(g, c) && h != GLOBAL && h !in c.s.heapLock && GLOBAL !in c.s.heapLock && x in c.s.owner
    ensures Leads(g, c, c', {t}) && ExactInv(g, c') && u != t && At(c'.s, u) == Fetching(h)
    ensures c'.s.heapLock == c.s.heapLock[h := u][GLOBAL := u]
    ensures SameBin(c, c', GLOBAL) && Aside(c, c', t, x, {h, GLOBAL})
  {
    hide ExactInv, Leads;
    var c1 := Fill(g, c, t, h);
    var c2;
    u, c2 := Begins(g, c1, t, h);
    ExhaustedSame(c1.s, c2.s, h);
    hide Exhausted;
    c' := TurnsToGlobal(g, c2, t, u, h);
    Then(g, c1, c2, c', {t});
    Then(g, c, c1, c', {t});
    LeadsInv(g, c, c', {t}, x);
    WayAside(g, c, c1, c', t, u, h, x);
  }

  lemma WayAside(g: SizeClass, c: Exact, c1: Exact, c': Exact, t: int, u: int, h: nat, x: nat)
    requires ExactInv(g, c1) && Fed(c, c1, h, {}) && x in c.s.owner && u != t && u !in c1.s.pcs && h !in c1.s.heapLock
    requires GLOBAL !in c1.s.heapLock && h != GLOBAL && c'.cached == c1.cached - {h} && c'.s.owner == c1.s.owner
    requires c'.s.place == c1.s.place && c'.s.free == c1.s.free && c'.s.blockLock == c1.s.blockLock
    requires c'.s.pcs == c1.s.pcs[u := Allocating(h)][u := Fetching(h)]
    requires c'.s.heapLock == c1.s.heapLock[h := u][GLOBAL := u]
    ensures SameBin(c, c', GLOBAL) && Aside(c, c', t, x, {h, GLOBAL})
  {
    forall k {:trigger SameBin(c, c', k)} | k != h ensures SameBin(c, c', k) {
      assert SameBin(c, c1, k);
      SameSums(c1.s, c'.s, k, {});
    }
    SameBinHas(c, c', GLOBAL, x);
    assert At(c1.s, t) == At(c.s, t) == At(c'.s, t);
    forall y {:trigger Loose(c'.s, t, y)} | Loose(c.s, t, y) ensures Loose(c'.s, t, y) {
      OwnOnly(g, c1, u, y);
      if y in c.s.blockLock {
        var v := c.s.blockLock[y];
        assert At(c1.s, v) == At(c.s, v);
      }
    }
  }

  /** It fetches a superblock, and goes on until it holds no lock of a heap. */
  lemma DrainOne(g: SizeClass, c: Exact, t: int, x: nat, h: nat) returns (c': Exact)
    requires ExactInv(g, c) && Calm(c.s, t) && h != GLOBAL && !HoldsHeap(c.s, t, h) && !HoldsHeap(c.s, t, GLOBAL)
    requires x in c.s.owner && (GLOBAL in c.cached || !Exhausted(c.s, GLOBAL))
    ensures Leads(g, c, c', {t}) && Calm(c'.s, t) && |Bin(c'.s, GLOBAL)| < |Bin(c.s, GLOBAL)|
    ensures Movable(g, c, t, x) || Aside(c, c', t, x, {h, GLOBAL})
  {
    hide ExactInv, Leads, Aside, Movable, Exhausted, Calm, SameBin, Bin;
    CalmFree(c.s, t, h);
    CalmFree(c.s, t, GLOBAL);
    var u, c1 := ByWayOf(g, c, t, h, x);
    LeadsInv(g, c, c1, {t}, x);
    StillSomething(c, c1);
    c' := TakeOne(g, c1, t, u, h, x);
    DrainCalm(c, c1, c', t, u, h);
    Then(g, c, c1, c', {t});
    AsideLater(g, c, c1, c', t, x, {h, GLOBAL});
  }

  lemma DrainCalm(c: Exact, c1: Exact, c': Exact, t: int, u: int, h: nat)
    requires Calm(c.s, t) && c1.s.heapLock == c.s.heapLock[h := u][GLOBAL := u]
    requires forall k {:trigger k in c'.s.heapLock} :: k in c'.s.heapLock ==>
               c'.s.heapLock[k] != u && k in c1.s.heapLock && c1.s.heapLock[k] == c'.s.heapLock[k]
    ensures Calm(c'.s, t)
  {
  }

  lemma StillSomething(c: Exact, c': Exact)
    requires SameBin(c, c', GLOBAL) && (GLOBAL in c.cached || !Exhausted(c.s, GLOBAL))
    ensures (GLOBAL in c'.cached || !Exhausted(c'.s, GLOBAL)) && Bin(c'.s, GLOBAL) == Bin(c.s, GLOBAL)
  {
    if GLOBAL !in c.cached {
      var y :| Has(c.s, GLOBAL, y) && Free(c.s, y) > 0;
      SameBinHas(c, c', GLOBAL, y);
      assert Has(c'.s, GLOBAL, y);
    }
  }

  /** A superblock of the global heap that is not full is fetched sooner or later. */
  lemma {:induction false} OpenMoves(g: SizeClass, c: Exact, t: int, x: nat)
    requires ExactInv(g, c) && Calm(c.s, t) && !HoldsHeap(c.s, t, GLOBAL) && Has(c.s, GLOBAL, x) && Free(c.s, x) > 0
    ensures Movable(g, c, t, x)
    decreases |Bin(c.s, GLOBAL)|
  {
    HasOwner(g, c, GLOBAL, x);
    var h := OtherHeap(g, c, t);
    hide ExactInv, Leads, Movable, Calm;
    var c' := DrainOne(g, c, t, x, h);
    if !Movable(g, c, t, x) {
      LeadsInv(g, c, c', {t}, x);
      CalmGlobal(g, c, c', t);
      OpenMoves(g, c', t, x);
      MovesLater(g, c, c', t, x);
    }
  }

  /** Of any two heaps, `t` holds the lock of one at most. */
  lemma OtherHeap(g: SizeClass, c: Exact, t: int) returns (h: nat)
    requires ExactInv(g, c)
    ensures h in {1, 2} && !HoldsHeap(c.s, t, h)
  {
    HoldsAt(g, c, t, 1);
    HoldsAt(g, c, t, 2);
    h := if HoldsHeap(c.s, t, 1) then 2 else 1;
  }

  lemma CalmGlobal(g: SizeClass, c: Exact, c': Exact, t: int)
    requires ExactInv(g, c) && ExactInv(g, c') && Calm(c'.s, t) && At(c'.s, t) == At(c.s, t)
    requires !HoldsHeap(c.s, t, GLOBAL)
    ensures GLOBAL !in c'.s.heapLock && !HoldsHeap(c'.s, t, GLOBAL)
  {
    HoldsAt(g, c, t, GLOBAL);
    HoldsAt(g, c', t, GLOBAL);
  }

  lemma CalmFree(s: State, t: int, h: nat)
    requires Calm(s, t) && !HoldsHeap(s, t, h)
    ensures h !in s.heapLock
  {
  }

  /** A full superblock of the global heap gets a free object first, if its lock is loose. */
  lemma LooseInGlobal(g: SizeClass, c: Exact, t: int, x: nat)
    requires ExactInv(g, c) && Calm(c.s, t) && !HoldsHeap(c.s, t, GLOBAL) && Has(c.s, GLOBAL, x) && Loose(c.s, t, x)
    ensures Movable(g, c, t, x)
  {
    HasOwner(g, c, GLOBAL, x);
    hide ExactInv, Leads, Movable;
    CalmFree(c.s, t, GLOBAL);
    if Free(c.s, x) > 0 {
      OpenMoves(g, c, t, x);
    } else {
      var v, c1 := FreesOne(g, c, t, x);
      var c2 := Finishes(g, c1, t, v, x, GLOBAL);
      Then(g, c, c1, c2, {t});
      LockedOnce(c.s.heapLock, GLOBAL, v);
      OpenMoves(g, c2, t, x);
      MovesLater(g, c, c2, t, x);
    }
  }

  /** The cached superblock of the global heap is the next to be fetched. */
  lemma CachedInGlobal(g: SizeClass, c: Exact, t: int, x: nat)
    requires ExactInv(g, c) && GLOBAL !in c.s.heapLock && IsCached(c, GLOBAL, x)
    ensures Movable(g, c, t, x)
  {
    CachedHas(g, c, GLOBAL, x);
    HasOwner(g, c, GLOBAL, x);
    hide ExactInv, ExactStep, Leads, Movable;
    var u, h, c1 := Enter(g, c, t, GLOBAL);
    LeadsInv(g, c, c1, {t}, x);
    var c2 := FetchingOn(g, c1, u, h);
    Advance(g, c, c1, c2, u, {t});
    MovesLater(g, c, c2, t, x);
  }

  lemma StaysCached(g: SizeClass, c: Exact, c': Exact, v: int, x: nat)
    requires ExactInv(g, c) && ExactStep(g, c, c', v) && IsCached(c, GLOBAL, x)
    requires HoldsHeap(c.s, v, GLOBAL) && !At(c.s, v).Fetching? && !At(c.s, v).Handing?
    ensures IsCached(c', GLOBAL, x)
  {
    hide Step, Inv, Class;
    HoldsAt(g, c, v, GLOBAL);
    NotGlobal(g, c, v);
  }

  lemma NotGlobal(g: SizeClass, c: Exact, v: int)
    requires ExactInv(g, c) && HoldsHeap(c.s, v, GLOBAL) && !At(c.s, v).Fetching? && !At(c.s, v).Handing?
    ensures var pc := At(c.s, v);
            !pc.Idle? && !pc.Allocating? && !pc.Asking? && !pc.Placing? && (pc.Freed? ==> pc.o == GLOBAL)
  {
    assert HeapLockOk(c.s, v, GLOBAL) && ThreadOk(c.s, v);
  }

  /** The holder of the global lock is about to make another superblock the cached one. */
  predicate Displaced(s: State) { GLOBAL in s.heapLock && At(s, s.heapLock[GLOBAL]).Handing? }

  lemma {:induction false} CachedLater(g: SizeClass, c: Exact, t: int, x: nat)
    requires ExactInv(g, c) && !HoldsHeap(c.s, t, GLOBAL) && IsCached(c, GLOBAL, x) && !Displaced(c.s)
    ensures Movable(g, c, t, x)
    decreases if GLOBAL in c.s.heapLock then Work(c.s, c.s.heapLock[GLOBAL]) + 1 else 0
  {
    CachedHas(g, c, GLOBAL, x);
    HasOwner(g, c, GLOBAL, x);
    hide ExactInv, ExactStep, Leads, Movable, IsCached, Has;
    if GLOBAL in c.s.heapLock {
      var v := c.s.heapLock[GLOBAL];
      HoldsAt(g, c, v, GLOBAL);
      RankZero(c.s, v);
      var c' := Drives(g, c, v);
      OneStep(g, c, c', v, t);
      LeadsInv(g, c, c', {t}, x);
      if At(c.s, v).Fetching? {
        FetchesCached(g, c, c', v, x);
      } else if c'.s.owner[x] == c.s.owner[x] {
        StaysCached(g, c, c', v, x);
        NotYetHanding(g, c, c', v);
        CachedLater(g, c', t, x);
      }
      MovesLater(g, c, c', t, x);
    } else {
      CachedInGlobal(g, c, t, x);
    }
  }

  lemma FetchesCached(g: SizeClass, c: Exact, c': Exact, v: int, x: nat)
    requires ExactInv(g, c) && ExactStep(g, c, c', v) && At(c.s, v).Fetching? && IsCached(c, GLOBAL, x)
    ensures x in c.s.owner && x in c'.s.owner && c'.s.owner[x] != c.s.owner[x]
  {
    CachedHas(g, c, GLOBAL, x);
    HasOwner(g, c, GLOBAL, x);
    assert ThreadOk(c.s, v);
    hide ExactInv, ExactStep;
    FetchCases(g, c, c', v, At(c.s, v).h);
  }

  lemma NotYetHanding(g: SizeClass, c: Exact, c': Exact, v: int)
    requires ExactInv(g, c) && ExactStep(g, c, c', v) && HoldsHeap(c.s, v, GLOBAL) && GlobalFor(c'.s, v)
    requires !At(c.s, v).Fetching? && !At(c.s, v).Handing?
    ensures !Displaced(c'.s)
  {
    HoldsAt(g, c, v, GLOBAL);
    NotGlobal(g, c, v);
    hide ExactInv;
    assert !At(c.s, v).Giving?;
  }

  // ---- out of another heap, when the lock of the superblock is loose

  /** `t` is where it was, and `x` has its owner. */
  ghost predicate Beside(c: Exact, c': Exact, t: int, x: nat) {
    && LooseAfter(c.s, c'.s, t) && x in c.s.owner && x in c'.s.owner && c'.s.owner[x] == c.s.owner[x]
  }

  lemma BesideThen(c: Exact, c1: Exact, c2: Exact, t: int, x: nat, held: set<nat>)
    requires Aside(c, c1, t, x, held) && Beside(c1, c2, t, x)
    ensures Beside(c, c2, t, x)
  {
    hide Loose;
    StillThen(c, c1, c2, t);
  }

  /** Everything that can be fetched from the global heap is fetched, by way of heap `h`. */
  lemma {:induction false} Drain(g: SizeClass, c: Exact, t: int, x: nat, h: nat) returns (c': Exact)
    requires ExactInv(g, c) && Calm(c.s, t) && h != GLOBAL && !HoldsHeap(c.s, t, h) && !HoldsHeap(c.s, t, GLOBAL)
    requires x in c.s.owner
    ensures Movable(g, c, t, x)
            || (Leads(g, c, c', {t}) && ExactInv(g, c') && Calm(c'.s, t) && Beside(c, c', t, x)
                    && GLOBAL !in c'.cached && Exhausted(c'.s, GLOBAL))
    decreases |Bin(c.s, GLOBAL)|
  {
    hide ExactInv, Leads, Movable, Exhausted, Calm;
    c' := c;
    if GLOBAL !in c.cached && Exhausted(c.s, GLOBAL) {
      Stay(g, c, {t});
    } else {
      var c1 := DrainOne(g, c, t, x, h);
      if !Movable(g, c, t, x) {
        LeadsInv(g, c, c1, {t}, x);
        HoldsSame(g, c, c1, t, GLOBAL);
        HoldsSame(g, c, c1, t, h);
        c' := Drain(g, c1, t, x, h);
        if Movable(g, c1, t, x) {
          MovesLater(g, c, c1, t, x);
        } else {
          Then(g, c, c1, c', {t});
          BesideThen(c, c1, c', t, x, {h, GLOBAL});
        }
      }
    }
  }

  /** `malloc` has added the superblocks `a` to the bin of `o`, and changed no other bin. */
  ghost predicate Fed(c: Exact, c': Exact, o: nat, a: set<nat>) {
    && SameThreads(c.s, c'.s) && a !! c.s.owner.Keys
    && (forall y {:trigger y in c.s.owner} :: y in c.s.owner ==> y in c'.s.owner && c'.s.owner[y] == c.s.owner[y])
    && (forall y {:trigger Has(c'.s, o, y)} :: Has(c'.s, o, y) <==> Has(c.s, o, y) || y in a)
    && (forall h {:trigger SameBin(c, c', h)} :: h != o ==> SameBin(c, c', h))
  }

  lemma FedThen(c: Exact, c1: Exact, c2: Exact, o: nat, a: set<nat>, b: set<nat>)
    requires Fed(c, c1, o, a) && Fed(c1, c2, o, b)
    ensures Fed(c, c2, o, a + b)
  {
    forall h {:trigger SameBin(c, c2, h)} | h != o ensures SameBin(c, c2, h) {
      assert SameBin(c, c1, h) && SameBin(c1, c2, h);
    }
    forall y {:trigger y in c.s.owner} | y in c.s.owner
      ensures y !in b && y in c2.s.owner && c2.s.owner[y] == c.s.owner[y]
    {
      assert y in c1.s.owner;
    }
    forall y {:trigger Has(c2.s, o, y)} ensures Has(c2.s, o, y) <==> Has(c.s, o, y) || y in a + b {
      assert Has(c1.s, o, y) <==> Has(c.s, o, y) || y in a;
    }
  }

  lemma HitFed(c: Exact, c': Exact, o: nat, z: nat)
    requires SameThreads(c.s, c'.s) && Has(c.s, o, z) && c'.cached == c.cached[o := z]
    requires c'.s.owner == c.s.owner && c'.s.place == c.s.place && c'.s.free == c.s.free[z := Free(c'.s, z)]
    ensures Fed(c, c', o, {})
  {
    forall h {:trigger SameBin(c, c', h)} | h != o ensures SameBin(c, c', h) {
      forall y {:trigger SameIn(c.s, c'.s, h, y)} ensures SameIn(c.s, c'.s, h, y) {
      }
      BinsEqual(c.s, c'.s, h);
    }
  }

  lemma MissFed(g: SizeClass, c: Exact, c': Exact, o: nat, y: nat)
    requires ExactInv(g, c) && SameThreads(c.s, c'.s) && y !in c.s.owner && c'.cached == c.cached[o := y]
    requires c'.s.owner == c.s.owner[y := o] && c'.s.place == c.s.place[y := Listed(o)]
    requires c'.s.free == c.s.free[y := Free(c'.s, y)]
    ensures Fed(c, c', o, {y})
  {
    assert BlockOk(c.s, y);
    hide ExactInv;
    forall h {:trigger SameBin(c, c', h)} | h != o ensures SameBin(c, c', h) {
      forall z {:trigger SameIn(c.s, c'.s, h, z)} ensures SameIn(c.s, c'.s, h, z) {
      }
      BinsEqual(c.s, c'.s, h);
    }
  }

  lemma FedSame(c: Exact, o: nat)
    ensures Fed(c, c, o, {})
  {
  }

  /** Objects are taken until the heap has none. */
  lemma {:induction false} Fill(g: SizeClass, c: Exact, t: int, o: nat) returns (c': Exact)
    requires ExactInv(g, c) && o != GLOBAL && o !in c.s.heapLock
    ensures Leads(g, c, c', {t}) && ExactInv(g, c') && Fed(c, c', o, {}) && Exhausted(c'.s, o)
    decreases B.FreeObjects(Bin(c.s, o))
  {
    hide ExactInv, Leads, Exhausted, Fed;
    if Exhausted(c.s, o) {
      c' := c;
      Stay(g, c, {t});
      FedSame(c, o);
    } else {
      var z, c1 := Hit(g, c, t, o);
      HitFed(c, c1, o, z);
      LeadsInv(g, c, c1, {t}, 0);
      BinPut(c.s, c1.s, o, z, Free(c.s, z) - 1);
      B.SumsPut(g.total, Bin(c.s, o), z, Free(c.s, z) - 1);
      B.FreeOf(Bin(c.s, o), z);
      c' := Fill(g, c1, t, o);
      Then(g, c, c1, c', {t});
      var none: set<nat> := {};
      FedThen(c, c1, c', o, none, none);
      assert none + none == none;
    }
  }

  lemma NothingStill(c: Exact, c': Exact)
    requires SameBin(c, c', GLOBAL) && GLOBAL !in c.cached && Exhausted(c.s, GLOBAL)
    ensures GLOBAL !in c'.cached && Exhausted(c'.s, GLOBAL)
  {
    forall x {:trigger Has(c'.s, GLOBAL, x)} | Has(c'.s, GLOBAL, x) ensures Free(c'.s, x) == 0 {
      SameBinHas(c, c', GLOBAL, x);
    }
  }

  /** One new superblock, all objects of which are handed out. */
  lemma GrowOne(g: SizeClass, c: Exact, t: int, o: nat) returns (y: nat, c': Exact)
    requires ExactInv(g, c) && o != GLOBAL && o !in c.s.heapLock && GLOBAL !in c.s.heapLock && Exhausted(c.s, o)
    requires GLOBAL !in c.cached && Exhausted(c.s, GLOBAL)
    ensures Leads(g, c, c', {t}) && ExactInv(g, c') && Fed(c, c', o, {y}) && Exhausted(c'.s, o)
    ensures GLOBAL !in c'.cached && Exhausted(c'.s, GLOBAL)
  {
    hide ExactInv, Leads, Exhausted;
    var c1;
    y, c1 := Miss(g, c, t, o);
    MissFed(g, c, c1, o, y);
    LeadsInv(g, c, c1, {t}, 0);
    c' := Fill(g, c1, t, o);
    Then(g, c, c1, c', {t});
    FedThen(c, c1, c', o, {y}, {});
    assert {y} + {} == {y};
    assert SameBin(c, c', GLOBAL);
    NothingStill(c, c');
  }

  lemma {:induction false} Grow(g: SizeClass, c: Exact, t: int, o: nat, n: nat) returns (a: set<nat>, c': Exact)
    requires ExactInv(g, c) && o != GLOBAL && o !in c.s.heapLock && GLOBAL !in c.s.heapLock && Exhausted(c.s, o)
    requires GLOBAL !in c.cached && Exhausted(c.s, GLOBAL)
    ensures Leads(g, c, c', {t}) && ExactInv(g, c') && Fed(c, c', o, a) && Exhausted(c'.s, o) && |a| == n
    decreases n
  {
    hide ExactInv, Leads, Exhausted;
    if n == 0 {
      a, c' := {}, c;
      Stay(g, c, {t});
      FedSame(c, o);
    } else {
      var y, c1 := GrowOne(g, c, t, o);
      var b;
      b, c' := Grow(g, c1, t, o, n - 1);
      Then(g, c, c1, c', {t});
      FedThen(c, c1, c', o, {y}, b);
      assert Has(c1.s, o, y);
      HasOwner(g, c1, o, y);
      a := {y} + b;
    }
  }

  // ---- full bins

  lemma {:induction false} HeldIs(g: SizeClass, m: map<nat, nat>)
    ensures Held(g, m) == g.total * |m|
    decreases |m|
  {
    if r :| r in m {
      B.ObjectsOf(g.total, m, r);
      HeldIs(g, m - {r});
      M.OneLess(m, r);
      M.Successor(g.total, |m - {r}|);
    }
  }

  lemma FullSums(g: SizeClass, m: map<nat, nat>)
    requires forall y {:trigger y in m} :: y in m ==> m[y] == 0
    ensures InUse(g, m) == Held(g, m) == g.total * |m|
  {
    HeldIs(g, m);
    if B.FreeObjects(m) > 0 {
      var y := B.SomeFree(m);
    }
  }

  lemma Mul(total: nat, k: nat, n: nat, size: nat)
    requires total > 0 && size > 0 && n == k + (2 * M.SUPERBLOCK_SIZE) / size + 1
    ensures M.Threshold(total * (k + n) - total * n, total * (k + n), size)
  {
    var d := (2 * M.SUPERBLOCK_SIZE) / size;
    assert total * (k + n) == total * k + total * n;
    assert total * n == total * k + total * (d + 1);
    assert total * (d + 1) >= d + 1;
  }

  lemma ExhaustedSums(g: SizeClass, s: State, o: nat)
    requires Exhausted(s, o)
    ensures InUse(g, Bin(s, o)) == Held(g, Bin(s, o)) == g.total * |Bin(s, o)|
  {
    var m := Bin(s, o);
    forall y {:trigger y in m} | y in m ensures m[y] == 0 {
      assert Has(s, o, y);
    }
    FullSums(g, m);
  }

  lemma PartSums(g: SizeClass, s: State, o: nat, a: set<nat>)
    requires Exhausted(s, o) && forall y {:trigger Has(s, o, y)} :: y in a ==> Has(s, o, y)
    ensures InUse(g, Part(s, a)) == g.total * |a|
  {
    var m := Part(s, a);
    forall y {:trigger y in m} | y in m ensures m[y] == 0 {
      assert Has(s, o, y);
    }
    FullSums(g, m);
    assert m.Keys == a;
  }

  /** One free object does not cross the threshold. */
  lemma NotCrossed(g: SizeClass, s: State, s': State, o: nat, x: nat)
    requires Exhausted(s, o) && Has(s, o, x) && s'.place == s.place && s'.free == s.free[x := 1]
    ensures !Crossed(g, s', o)
  {
    ExhaustedSums(g, s, o);
    BinPut(s, s', o, x, 1);
    InUsePut(g, Bin(s, o), x, 1);
    hide InUse, Held;
    M.TwoFit(g.total, g.size);
  }

  /** With all superblocks full, `x` gets a free object, becomes the cached one and is full again. */
  lemma MakesCached(g: SizeClass, c: Exact, t: int, o: nat, x: nat) returns (c': Exact)
    requires ExactInv(g, c) && Calm(c.s, t) && o != GLOBAL && !HoldsHeap(c.s, t, o) && !HoldsHeap(c.s, t, GLOBAL)
    requires Exhausted(c.s, o) && Has(c.s, o, x) && Loose(c.s, t, x)
    ensures Leads(g, c, c', {t}) && ExactInv(g, c') && LooseAfter(c.s, c'.s, t) && IsCached(c', o, x)
    ensures c'.s.heapLock == c.s.heapLock && c'.s.owner == c.s.owner && c'.s.place == c.s.place
    ensures Exhausted(c'.s, o)
  {
    HasOwner(g, c, o, x);
    CalmFree(c.s, t, o);
    hide ExactInv, Leads, Loose, Calm;
    var v, c1 := FreesOne(g, c, t, x);
    NotCrossed(g, c.s, c1.s, o, x);
    var c2 := Finishes(g, c1, t, v, x, o);
    Then(g, c, c1, c2, {t});
    StillThen(c, c1, c2, t);
    LockedOnce(c.s.heapLock, o, v);
    assert Has(c2.s, o, x);
    var z;
    z, c' := Hit(g, c2, t, o);
    assert Has(c.s, o, z);
    assert z == x;
    Then(g, c, c2, c', {t});
    LeadsInv(g, c, c', {t}, x);
    SameLoose(c2.s, c'.s, t);
    StillThen(c, c2, c', t);
    FullAgain(c.s, c'.s, o, x);
  }

  lemma SameLoose(s: State, s': State, t: int)
    requires SameThreads(s, s')
    ensures LooseAfter(s, s', t)
  {
  }

  lemma FullAgain(s: State, s': State, o: nat, x: nat)
    requires Exhausted(s, o) && s'.place == s.place && s'.free == s.free[x := 1][x := 0]
    ensures Exhausted(s', o)
  {
    forall y {:trigger Has(s', o, y)} | Has(s', o, y) ensures Free(s', y) == 0 {
      assert Has(s, o, y);
    }
  }

  /** All superblocks of the heap are full, and enough of them are new. */
  lemma GrownMoves(g: SizeClass, c: Exact, t: int, o: nat, x: nat, a: set<nat>, k: nat, n: nat)
    requires ExactInv(g, c) && Calm(c.s, t) && o != GLOBAL && !HoldsHeap(c.s, t, o) && !HoldsHeap(c.s, t, GLOBAL)
    requires Exhausted(c.s, o) && Has(c.s, o, x) && Loose(c.s, t, x)
    requires forall y {:trigger Ready(c.s, t, o, y)} :: y in a ==> Ready(c.s, t, o, y)
    requires |Bin(c.s, o)| == k + n && |a| == n == k + (2 * M.SUPERBLOCK_SIZE) / g.size + 1
    ensures Movable(g, c, t, x)
  {
    HasOwner(g, c, o, x);
    var c1 := MakesCached(g, c, t, o, x);
    hide ExactInv, Leads, Movable, Loose;
    forall y {:trigger Ready(c1.s, t, o, y)} | y in a ensures Ready(c1.s, t, o, y) {
      assert Ready(c.s, t, o, y);
    }
    forall y {:trigger Has(c1.s, o, y)} | y in a ensures Has(c1.s, o, y) {
      assert Ready(c1.s, t, o, y);
    }
    ExhaustedSums(g, c1.s, o);
    PartSums(g, c1.s, o, a);
    SameKeys(c.s, c1.s, o);
    Mul(g.total, k, n, g.size);
    Bits.MulMonotone(1, n, g.total);
    FreesDown(g, c1, t, o, x, a);
    MovesLater(g, c, c1, t, x);
  }

  lemma SameKeys(s: State, s': State, o: nat)
    requires s'.place == s.place
    ensures |Bin(s', o)| == |Bin(s, o)|
  {
    assert Bin(s', o).Keys == Bin(s, o).Keys;
    assert |Bin(s', o).Keys| == |Bin(s, o).Keys|;
  }

  lemma FedSize(g: SizeClass, c: Exact, c': Exact, o: nat, a: set<nat>)
    requires ExactInv(g, c) && Fed(c, c', o, a)
    ensures |Bin(c'.s, o)| == |Bin(c.s, o)| + |a|
  {
    var m, m' := Bin(c.s, o), Bin(c'.s, o);
    forall y: nat ensures (y in m'.Keys <==> y in m.Keys || y in a) && (y in m.Keys ==> y !in a) {
      assert Has(c'.s, o, y) <==> Has(c.s, o, y) || y in a;
      assert BlockOk(c.s, y);
    }
    assert m'.Keys == m.Keys + a && m.Keys !! a;
    assert |m'.Keys| == |m.Keys| + |a|;
  }

  /** Nobody knows the new superblocks. */
  lemma NewReady(g: SizeClass, c: Exact, c': Exact, t: int, o: nat, a: set<nat>)
    requires ExactInv(g, c) && Fed(c, c', o, a)
    ensures forall y {:trigger Ready(c'.s, t, o, y)} :: y in a ==> Ready(c'.s, t, o, y)
  {
    forall y {:trigger Ready(c'.s, t, o, y)} | y in a ensures Ready(c'.s, t, o, y) {
      assert Has(c'.s, o, y) && y !in c.s.owner;
      assert ThreadOk(c.s, t);
      LockKnown(g, c, y);
    }
  }

  lemma LockKnown(g: SizeClass, c: Exact, y: nat)
    requires ExactInv(g, c)
    ensures y in c.s.blockLock ==> y in c.s.owner
  {
    var v := if y in c.s.blockLock then c.s.blockLock[y] else 0;
    assert BlockLockOk(c.s, v, y) && ThreadOk(c.s, v);
  }

  lemma HoldsSame(g: SizeClass, c: Exact, c': Exact, t: int, h: nat)
    requires ExactInv(g, c) && ExactInv(g, c') && At(c'.s, t) == At(c.s, t)
    ensures HoldsHeap(c'.s, t, h) <==> HoldsHeap(c.s, t, h)
  {
    HoldsAt(g, c, t, h);
    HoldsAt(g, c', t, h);
  }

  /** Nothing left in the global heap. */
  lemma DrainedMoves(g: SizeClass, c: Exact, t: int, o: nat, x: nat)
    requires ExactInv(g, c) && Calm(c.s, t) && o != GLOBAL && !HoldsHeap(c.s, t, o) && !HoldsHeap(c.s, t, GLOBAL)
    requires Has(c.s, o, x) && Loose(c.s, t, x) && GLOBAL !in c.cached && Exhausted(c.s, GLOBAL)
    ensures Movable(g, c, t, x)
  {
    HasOwner(g, c, o, x);
    CalmFree(c.s, t, o);
    CalmFree(c.s, t, GLOBAL);
    hide ExactInv, Leads, Movable, Loose, Exhausted, Calm;
    var c1 := Fill(g, c, t, o);
    assert SameBin(c, c1, GLOBAL);
    NothingStill(c, c1);
    var k := |Bin(c1.s, o)|;
    var n := k + (2 * M.SUPERBLOCK_SIZE) / g.size + 1;
    var a, c2 := Grow(g, c1, t, o, n);
    Then(g, c, c1, c2, {t});
    FedSize(g, c1, c2, o, a);
    NewReady(g, c1, c2, t, o, a);
    FedLoose(c, c1, t, x);
    FedLoose(c1, c2, t, x);
    assert Has(c1.s, o, x) && Has(c2.s, o, x);
    HasOwner(g, c2, o, x);
    GrownMoves(g, c2, t, o, x, a, k, n);
    MovesLater(g, c, c2, t, x);
  }

  lemma FedLoose(c: Exact, c': Exact, t: int, x: nat)
    requires SameThreads(c.s, c'.s)
    ensures Loose(c.s, t, x) ==> Loose(c'.s, t, x)
    ensures Calm(c.s, t) ==> Calm(c'.s, t)
  {
  }

  /** A superblock whose owner's lock is free is in the bin of its owner. */
  lemma NotCarried(g: SizeClass, c: Exact, x: nat)
    requires ExactInv(g, c) && x in c.s.owner && (c.s.owner[x] !in c.s.heapLock || c.s.owner[x] == GLOBAL)
    ensures Has(c.s, c.s.owner[x], x)
  {
    assert BlockOk(c.s, x);
    var v := if c.s.place[x].Carried? then c.s.place[x].thread else 0;
    assert ThreadOk(c.s, v) && HeapLockOk(c.s, v, c.s.owner[x]);
  }

  lemma CalmMoves(g: SizeClass, c: Exact, t: int, x: nat)
    requires ExactInv(g, c) && Calm(c.s, t) && x in c.s.owner && Loose(c.s, t, x)
    requires !HoldsHeap(c.s, t, c.s.owner[x]) && !HoldsHeap(c.s, t, GLOBAL)
    ensures Movable(g, c, t, x)
  {
    var o := c.s.owner[x];
    CalmFree(c.s, t, o);
    NotCarried(g, c, x);
    hide ExactInv, Leads, Movable, Loose, Exhausted, Calm;
    if o == GLOBAL {
      LooseInGlobal(g, c, t, x);
    } else {
      var c1 := Drain(g, c, t, x, o);
      if !Movable(g, c, t, x) {
        HoldsSame(g, c, c1, t, o);
        HoldsSame(g, c, c1, t, GLOBAL);
        CalmFree(c1.s, t, o);
        NotCarried(g, c1, x);
        DrainedMoves(g, c1, t, o, x);
        MovesLater(g, c, c1, t, x);
      }
    }
  }

  /** The lock of the superblock is loose, and `t` holds neither the lock of its owner nor the global lock. */
  lemma LooseMoves(g: SizeClass, c: Exact, t: int, x: nat)
    requires ExactInv(g, c) && x in c.s.owner && Loose(c.s, t, x)
    requires !HoldsHeap(c.s, t, c.s.owner[x]) && !HoldsHeap(c.s, t, GLOBAL)
    ensures Movable(g, c, t, x)
  {
    hide ExactInv, Leads, Movable, Loose, Calm;
    var c1 := Unlock(g, c, t, x);
    if !Movable(g, c, t, x) {
      LeadsInv(g, c, c1, {t}, x);
      HoldsSame(g, c, c1, t, c.s.owner[x]);
      HoldsSame(g, c, c1, t, GLOBAL);
      CalmMoves(g, c1, t, x);
      MovesLater(g, c, c1, t, x);
    }
  }

  // ---- out of another heap, when `t` holds the lock of the superblock

  /** `t` has locked `x`, to return an object of it, and holds no other lock. */
  predicate AtBlock(s: State, t: int, x: nat) { At(s, t) == Reading(x) || (At(s, t).WantOwner? && At(s, t).b == x) }

  /** Every other superblock of the heap is ready. */
  lemma OthersReady(g: SizeClass, c: Exact, t: int, o: nat, x: nat, y: nat)
    requires ExactInv(g, c) && AtBlock(c.s, t, x) && Has(c.s, o, y) && y != x
    ensures Ready(c.s, t, o, y)
  {
    if y in c.s.blockLock {
      var v := c.s.blockLock[y];
      assert BlockLockOk(c.s, v, y);
      if At(c.s, v).WantOwner? {
        assert HeapLockOk(c.s, t, At(c.s, v).o);
      }
    }
  }

  lemma FreeAtMost(g: SizeClass, c: Exact, x: nat)
    requires ExactInv(g, c) && x in c.s.owner
    ensures Free(c.s, x) <= g.total
    ensures forall t {:trigger At(c.s, t)} :: Pends(At(c.s, t), x) ==> Free(c.s, x) < g.total
  {
    assert CountOk(g, c, x);
    forall t {:trigger At(c.s, t)} | Pends(At(c.s, t), x) ensures Free(c.s, x) < g.total {
      assert t in Pending(c.s, x);
    }
  }

  lemma {:induction false} InUseAtLeast(g: SizeClass, m: map<nat, nat>)
    requires forall y {:trigger y in m} :: y in m ==> m[y] <= g.total
    ensures InUse(g, m) >= 0
    decreases |m|
  {
    if r :| r in m {
      B.FreeOf(m, r);
      B.ObjectsOf(g.total, m, r);
      InUseAtLeast(g, m - {r});
    }
  }

  /** The objects in use of a bin, without those of `x`. */
  lemma InUseWithout(g: SizeClass, c: Exact, o: nat, x: nat)
    requires ExactInv(g, c) && Has(c.s, o, x)
    ensures var m := Bin(c.s, o); InUse(g, m) == Used(g, c.s, x) + InUse(g, m - {x}) && InUse(g, m - {x}) >= 0
    ensures forall y {:trigger Has(c.s, o, y)} :: Has(c.s, o, y) && y != x && Free(c.s, y) < g.total ==>
              InUse(g, Bin(c.s, o) - {x}) > 0
  {
    var m := Bin(c.s, o);
    assert x in m && m[x] == Free(c.s, x);
    B.FreeOf(m, x);
    B.ObjectsOf(g.total, m, x);
    BinBound(g, c, o);
    InUseAtLeast(g, m - {x});
    forall y: nat {:trigger Has(c.s, o, y)} | Has(c.s, o, y) && y != x && Free(c.s, y) < g.total
      ensures InUse(g, m - {x}) > 0
    {
      var r := m - {x};
      assert y in r && r[y] == Free(c.s, y);
      B.FreeOf(r, y);
      B.ObjectsOf(g.total, r, y);
      InUseAtLeast(g, r - {y});
    }
  }

  lemma BinBound(g: SizeClass, c: Exact, o: nat)
    requires ExactInv(g, c)
    ensures var m := Bin(c.s, o); forall y {:trigger y in m} :: y in m ==> m[y] <= g.total
  {
    var m := Bin(c.s, o);
    forall y {:trigger y in m} | y in m ensures m[y] <= g.total {
      HasOwner(g, c, o, y);
      FreeAtMost(g, c, y);
    }
  }

  /** `x` is cached, and the other superblocks are not all empty. */
  lemma CachedMoves(g: SizeClass, c: Exact, t: int, o: nat, x: nat, y: nat)
    requires ExactInv(g, c) && Calm(c.s, t) && o != GLOBAL && AtBlock(c.s, t, x) && IsCached(c, o, x)
    requires M.Threshold(Used(g, c.s, x), Held(g, Bin(c.s, o)), g.size)
    requires Has(c.s, o, y) && y != x && Free(c.s, y) < g.total
    ensures Movable(g, c, t, x)
  {
    CachedHas(g, c, o, x);
    HoldsAt(g, c, t, o);
    HoldsAt(g, c, t, GLOBAL);
    InUseWithout(g, c, o, x);
    var a := Bin(c.s, o).Keys - {x};
    assert Part(c.s, a) == Bin(c.s, o) - {x};
    hide M.Threshold, InUse, Held;
    forall z {:trigger Ready(c.s, t, o, z)} | z in a ensures Ready(c.s, t, o, z) {
      OthersReady(g, c, t, o, x, z);
    }
    hide ExactInv;
    FreesDown(g, c, t, o, x, a);
  }

  /** The emptiest superblock is not empty: then no listed one is, and the cached one is full. */
  lemma ServesFullest(g: SizeClass, c: Exact, o: nat, x: nat, y: nat)
    requires ExactInv(g, c) && Serves(g, c, o, x) && !IsCached(c, o, x) && 0 < Free(c.s, x) < g.total
    requires Has(c.s, o, y)
    ensures Free(c.s, y) < g.total
  {
    HasOwner(g, c, o, y);
    FreeAtMost(g, c, y);
    L.FullnessMeans(g.total, Free(c.s, x));
    L.FullnessMeans(g.total, Free(c.s, y));
    hide ExactInv, L.Fullness;
    assert Offers(c, o, y) ==> Ahead(g, c, x, y);
  }

  /** Objects are taken until `x` is the cached superblock. */
  lemma {:induction false} ComesUp(g: SizeClass, c: Exact, t: int, o: nat, x: nat) returns (c': Exact)
    requires ExactInv(g, c) && o != GLOBAL && o !in c.s.heapLock
    requires Has(c.s, o, x) && !IsCached(c, o, x) && 0 < Free(c.s, x) < g.total
    ensures Leads(g, c, c', {t}) && ExactInv(g, c') && SameThreads(c.s, c'.s) && IsCached(c', o, x)
    ensures c'.s.place == c.s.place && c'.s.owner == c.s.owner && Free(c'.s, x) == Free(c.s, x) - 1
    ensures forall y {:trigger Has(c'.s, o, y)} :: Has(c'.s, o, y) ==> Free(c'.s, y) < g.total
    decreases B.FreeObjects(Bin(c.s, o))
  {
    hide ExactInv, Leads, Serves;
    var z, c1 := Hit(g, c, t, o);
    LeadsInv(g, c, c1, {t}, 0);
    if z == x {
      c' := c1;
      forall y {:trigger Has(c'.s, o, y)} | Has(c'.s, o, y) ensures Free(c'.s, y) < g.total {
        ServesFullest(g, c, o, x, y);
      }
    } else {
      BinPut(c.s, c1.s, o, z, Free(c.s, z) - 1);
      B.SumsPut(g.total, Bin(c.s, o), z, Free(c.s, z) - 1);
      B.FreeOf(Bin(c.s, o), z);
      c' := ComesUp(g, c1, t, o, x);
      Then(g, c, c1, c', {t});
    }
  }

  /** Above the threshold a heap has another superblock. */
  lemma AnotherBlock(g: SizeClass, c: Exact, o: nat, x: nat, u: nat) returns (y: nat)
    requires M.Threshold(u, Held(g, Bin(c.s, o)), g.size)
    ensures Has(c.s, o, y) && y != x
  {
    var m := Bin(c.s, o);
    HeldIs(g, m);
    M.TwoFit(g.total, g.size);
    if m.Keys <= {x} {
      AtMostOne(m.Keys, x);
      Bits.MulMonotone(|m|, 1, g.total);
      assert false;
    }
    y :| y in m.Keys && y != x;
  }

  lemma AtMostOne(a: set<nat>, x: nat)
    requires a <= {x}
    ensures |a| <= 1
  {
    SubsetSize(a, {x});
  }

  /** What it takes for `x` to leave the heap while `t` holds its lock: a free object or a place in front, and a heap
      that can cross the threshold when all objects of its other superblocks are returned. */
  ghost predicate MayCross(g: SizeClass, c: Exact, o: nat, x: nat) {
    var held := Held(g, Bin(c.s, o));
    if IsCached(c, o, x) then
      && M.Threshold(Used(g, c.s, x), held, g.size)
      && exists y {:trigger Has(c.s, o, y)} :: Has(c.s, o, y) && y != x && Free(c.s, y) < g.total
    else
      Free(c.s, x) > 0 && M.Threshold(Used(g, c.s, x) + 1, held, g.size)
  }

  lemma MayCrossSame(g: SizeClass, c: Exact, c': Exact, o: nat, x: nat)
    requires SameBin(c, c', o) && Has(c.s, o, x) && MayCross(g, c, o, x)
    ensures Has(c'.s, o, x) && MayCross(g, c', o, x)
  {
    hide M.Threshold, Held;
    SameBinHas(c, c', o, x);
    if IsCached(c, o, x) {
      var y :| Has(c.s, o, y) && y != x && Free(c.s, y) < g.total;
      SameBinHas(c, c', o, y);
      assert Has(c'.s, o, y);
    }
  }

  lemma AtBlockPends(g: SizeClass, c: Exact, t: int, x: nat)
    requires ExactInv(g, c) && AtBlock(c.s, t, x)
    ensures x in c.s.owner && Free(c.s, x) < g.total
  {
    assert ThreadOk(c.s, t);
    FreeAtMost(g, c, x);
    assert Pends(At(c.s, t), x);
  }

  lemma CalmCrosses(g: SizeClass, c: Exact, t: int, o: nat, x: nat)
    requires ExactInv(g, c) && Calm(c.s, t) && AtBlock(c.s, t, x) && Has(c.s, o, x) && o != GLOBAL
    requires MayCross(g, c, o, x)
    ensures Movable(g, c, t, x)
  {
    AtBlockPends(g, c, t, x);
    if IsCached(c, o, x) {
      var y :| Has(c.s, o, y) && y != x && Free(c.s, y) < g.total;
      CachedMoves(g, c, t, o, x, y);
    } else {
      HoldsAt(g, c, t, o);
      CalmFree(c.s, t, o);
      hide ExactInv, Leads, Movable, M.Threshold, Held;
      var c1 := ComesUp(g, c, t, o, x);
      SameKeys(c.s, c1.s, o);
      HeldIs(g, Bin(c.s, o));
      HeldIs(g, Bin(c1.s, o));
      FedLoose(c, c1, t, x);
      var y := AnotherBlock(g, c1, o, x, Used(g, c1.s, x));
      CachedMoves(g, c1, t, o, x, y);
      MovesLater(g, c, c1, t, x);
    }
  }

  lemma MayCrossMoves(g: SizeClass, c: Exact, t: int, o: nat, x: nat)
    requires ExactInv(g, c) && AtBlock(c.s, t, x) && Has(c.s, o, x) && o != GLOBAL && o !in c.s.heapLock
    requires MayCross(g, c, o, x)
    ensures Movable(g, c, t, x)
  {
    AtBlockPends(g, c, t, x);
    HoldsAt(g, c, t, GLOBAL);
    hide ExactInv, Leads, Movable, MayCross, SameBin, Loose;
    var c1 := Unlock(g, c, t, x);
    if !Movable(g, c, t, x) {
      LeadsInv(g, c, c1, {t}, x);
      assert SameBin(c, c1, o);
      MayCrossSame(g, c, c1, o, x);
      CalmCrosses(g, c1, t, o, x);
      MovesLater(g, c, c1, t, x);
    }
  }
}
