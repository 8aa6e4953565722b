/** What keeps a superblock with its heap while a thread stands still: the lock of the heap or of the global heap
    always, the superblock's own lock sometimes. */
module HoardPinning {
  import opened HoardProtocol
  import opened HoardExact
  import opened HoardDrive
  import opened HoardMoves
  import Bits
  import B = HoardBins
  import M = HoardManager

  // ---- the lock of the owner, or of the global heap

  /** Every change of owner goes through the global heap, under its lock. */
  lemma ThroughGlobal(s: State, s': State, u: int, x: nat)
    requires Inv(s) && Step(s, s', u) && x in s.owner && x in s'.owner && s'.owner[x] != s.owner[x]
    ensures HoldsHeap(s, u, s.owner[x]) && HoldsHeap(s, u, GLOBAL)
    ensures s.owner[x] == GLOBAL || s'.owner[x] == GLOBAL
  {
    assert BlockOk(s, x) && ThreadOk(s, u);
    TouchesUnderLock(s, s', u, x);
    OneIsGlobal(s, s', u, x);
  }

  lemma OneIsGlobal(s: State, s': State, u: int, x: nat)
    requires Inv(s) && Step(s, s', u) && x in s.owner && x in s'.owner && s'.owner[x] != s.owner[x]
    ensures s.owner[x] == GLOBAL || s'.owner[x] == GLOBAL
  {
    if !Touches(At(s, u)) {
      TouchesNothing(s, s', u, x);
    }
    assert BlockOk(s, x) && ThreadOk(s, u);
  }

  ghost predicate Pins(s: State, t: int, x: nat)
    requires x in s.owner
  {
    HoldsHeap(s, t, s.owner[x]) || HoldsHeap(s, t, GLOBAL)
  }

  lemma PinnedStep(s: State, s': State, u: int, t: int, x: nat)
    requires Inv(s) && Inv(s') && Step(s, s', u) && u != t && x in s.owner && Pins(s, t, x)
    ensures x in s'.owner && s'.owner[x] == s.owner[x] && Pins(s', t, x)
  {
    hide Inv, Step;
    OwnersStay(s, s', u, x);
    if s'.owner[x] != s.owner[x] {
      ThroughGlobal(s, s', u, x);
    }
    KeepsLock(s, s', u, t, s.owner[x]);
    KeepsLock(s, s', u, t, GLOBAL);
  }

  /** Other threads do not touch what `t` holds. */
  lemma KeepsLock(s: State, s': State, u: int, t: int, h: nat)
    requires Inv(s) && Inv(s') && Step(s, s', u) && u != t
    ensures HoldsHeap(s', t, h) <==> HoldsHeap(s, t, h)
  {
    hide Step;
    StepFrame(s, s', u, t);
    assert HeapLockOk(s, t, h) && HeapLockOk(s', t, h);
  }

  lemma {:induction false} PinnedPath(g: SizeClass, run: seq<Exact>, who: seq<int>, t: int, x: nat, n: nat)
    requires IsPath(g, run, who, {t}) && n <= |who| && ExactInv(g, run[0])
    requires x in run[0].s.owner && Pins(run[0].s, t, x)
    ensures x in run[n].s.owner && run[n].s.owner[x] == run[0].s.owner[x] && Pins(run[n].s, t, x)
  {
    hide Inv, Step, Pins;
    if n > 0 {
      PinnedPath(g, run, who, t, x, n - 1);
      PathInv(g, run, who, {t}, n - 1, x);
      PathInv(g, run, who, {t}, n, x);
      assert who[n - 1] !in {t};
      assert ExactStep(g, run[n - 1], run[n], who[n - 1]);
      PinnedStep(run[n - 1].s, run[n].s, who[n - 1], t, x);
    }
  }

  /** A thread that holds the lock of the owner of a superblock, or the global lock, keeps the superblock there. */
  lemma HeapLockPins(g: SizeClass, c: Exact, t: int, x: nat)
    requires Reachable(g, c) && x in c.s.owner && (HoldsHeap(c.s, t, c.s.owner[x]) || HoldsHeap(c.s, t, GLOBAL))
    ensures !Movable(g, c, t, x)
  {
    hide ExactInv, ExactStep, Reachable;
    ReachableInv(g, c);
    forall c' {:trigger Leads(g, c, c', {t})} | Leads(g, c, c', {t})
      ensures x in c'.s.owner && c'.s.owner[x] == c.s.owner[x]
    {
      var run, who :| IsPath(g, run, who, {t}) && run[0] == c && run[|who|] == c';
      PinnedPath(g, run, who, t, x, |who|);
    }
  }

  // ---- the lock of the superblock

  /** A lock that is not loose stays so, and no other thread holds it. */
  lemma StaysTaken(s: State, s': State, u: int, t: int, x: nat)
    requires Inv(s) && Inv(s') && Step(s, s', u) && u != t && !Loose(s, t, x)
    ensures !Loose(s', t, x) && x !in BlocksHeld(At(s, u))
  {
    var v := s.blockLock[x];
    assert BlockLockOk(s, v, x) && BlockLockOk(s, u, x);
    if v != t {
      var o := At(s, v).o;
      KeepsLock(s, s', u, t, o);
      assert u != v;
    }
    hide Step;
    StepFrame(s, s', u, v);
    assert BlockLockOk(s', v, x);
  }

  /** Full, not to be taken by `get`, and nobody can return an object to it. */
  ghost predicate Stuck(c: Exact, t: int, h: nat, x: nat) {
    && Has(c.s, h, x) && Free(c.s, x) == 0 && !Loose(c.s, t, x)
    && (IsCached(c, h, x) ==> h == GLOBAL && Displaced(c.s))
  }

  lemma StuckElsewhere(g: SizeClass, c: Exact, c': Exact, u: int, t: int, h: nat, x: nat)
    requires ExactInv(g, c) && ExactInv(g, c') && ExactStep(g, c, c', u) && Stuck(c, t, h, x) && !Loose(c'.s, t, x)
    requires h !in WorksOn(At(c.s, u))
    ensures Stuck(c', t, h, x)
  {
    hide ExactStep, Loose;
    BinUntouched(g, c, c', u, h);
    SameBinHas(c, c', h, x);
    if IsCached(c, h, x) {
      var w := c.s.heapLock[GLOBAL];
      StepOnly(g, c, c', u, w);
      assert HeapLockOk(c'.s, w, GLOBAL);
    }
  }

  lemma StepOnly(g: SizeClass, c: Exact, c': Exact, u: int, w: int)
    requires ExactStep(g, c, c', u)
    ensures w != u ==> At(c'.s, w) == At(c.s, w)
  {
    hide Step;
    StepFrame(c.s, c'.s, u, w);
  }

  lemma NotCachedHere(g: SizeClass, c: Exact, u: int, t: int, h: nat, x: nat)
    requires ExactInv(g, c) && Stuck(c, t, h, x) && h in WorksOn(At(c.s, u)) && !At(c.s, u).Handing?
    ensures !IsCached(c, h, x)
  {
    WorksUnderLock(g, c, u, h);
  }

  /** `get` does not return it. */
  lemma NotPicked(g: SizeClass, c: Exact, h: nat, x: nat, z: nat)
    requires !IsCached(c, h, x) && Free(c.s, x) == 0
    requires Picks(g, c, h, z) || Serves(g, c, h, z)
    ensures z != x
  {
  }

  lemma StuckMalloc(g: SizeClass, c: Exact, c': Exact, u: int, t: int, h: nat, x: nat)
    requires ExactInv(g, c) && ExactStep(g, c, c', u) && Stuck(c, t, h, x) && !Loose(c'.s, t, x)
    requires At(c.s, u) == Allocating(h)
    ensures Stuck(c', t, h, x)
  {
    NotCachedHere(g, c, u, t, h, x);
    hide Inv, ExactStep, Serves, Exhausted, Loose;
    MallocCases(g, c, c', u, h);
    if z :| Served(g, c, c', u, h, z) {
      NotPicked(g, c, h, x, z);
      assert Allocates(c.s, c'.s, u, h, z);
    }
  }

  lemma StuckFetch(g: SizeClass, c: Exact, c': Exact, u: int, t: int, h: nat, x: nat)
    requires ExactInv(g, c) && ExactStep(g, c, c', u) && Stuck(c, t, h, x) && !Loose(c'.s, t, x)
    requires At(c.s, u).Fetching? && h == GLOBAL
    ensures Stuck(c', t, h, x)
  {
    NotCachedHere(g, c, u, t, h, x);
    hide Inv, ExactStep, Picks, Exhausted, Loose;
    FetchCases(g, c, c', u, At(c.s, u).h);
    if z :| Picks(g, c, GLOBAL, z) && TakesOver(c.s, c'.s, u, At(c.s, u).h, z) {
      NotPicked(g, c, h, x, z);
    }
  }

  lemma StuckPut(g: SizeClass, c: Exact, c': Exact, u: int, t: int, h: nat, x: nat)
    requires ExactInv(g, c) && ExactStep(g, c, c', u) && Stuck(c, t, h, x) && !Loose(c'.s, t, x)
    requires (At(c.s, u).Placing? && At(c.s, u).h == h) || (At(c.s, u).Handing? && h == GLOBAL)
    ensures Stuck(c', t, h, x)
  {
    hide Loose;
    assert ThreadOk(c.s, u) && Carries(c.s, u, At(c.s, u).x);
  }

  lemma StuckFree(g: SizeClass, c: Exact, c': Exact, u: int, t: int, h: nat, x: nat)
    requires ExactInv(g, c) && ExactStep(g, c, c', u) && Stuck(c, t, h, x) && !Loose(c'.s, t, x)
    requires At(c.s, u).Freeing? && At(c.s, u).o == h && x !in BlocksHeld(At(c.s, u))
    ensures Stuck(c', t, h, x)
  {
    NotCachedHere(g, c, u, t, h, x);
    hide Inv, ExactStep, Class, Loose;
    FreeCases(g, c, c', u, At(c.s, u).b, h);
  }

  lemma StuckGive(g: SizeClass, c: Exact, c': Exact, u: int, t: int, h: nat, x: nat)
    requires ExactInv(g, c) && ExactStep(g, c, c', u) && Stuck(c, t, h, x) && !Loose(c'.s, t, x)
    requires At(c.s, u).Freed? && At(c.s, u).o == h
    ensures Stuck(c', t, h, x)
  {
    NotCachedHere(g, c, u, t, h, x);
    hide Inv, ExactStep, Picks, Crossed, Loose;
    GiveCases(g, c, c', u, At(c.s, u).b, h);
    if z :| Picks(g, c, h, z) && TakesOut(c.s, c'.s, u, At(c.s, u).b, h, z) {
      NotPicked(g, c, h, x, z);
    }
  }

  lemma StuckStep(g: SizeClass, c: Exact, c': Exact, u: int, t: int, h: nat, x: nat)
    requires ExactInv(g, c) && ExactInv(g, c') && ExactStep(g, c, c', u) && u != t && Stuck(c, t, h, x)
    ensures Stuck(c', t, h, x)
  {
    StaysTaken(c.s, c'.s, u, t, x) by {
      hide Step, Inv, Loose;
    }
    hide ExactInv, ExactStep, Stuck, Loose;
    var pc := At(c.s, u);
    if h !in WorksOn(pc) {
      StuckElsewhere(g, c, c', u, t, h, x);
    } else if pc.Allocating? {
      StuckMalloc(g, c, c', u, t, h, x);
    } else if pc.Fetching? {
      StuckFetch(g, c, c', u, t, h, x);
    } else if pc.Placing? || pc.Handing? {
      StuckPut(g, c, c', u, t, h, x);
    } else if pc.Freeing? {
      StuckFree(g, c, c', u, t, h, x);
    } else {
      StuckGive(g, c, c', u, t, h, x);
    }
  }

  lemma {:induction false} StuckPath(g: SizeClass, run: seq<Exact>, who: seq<int>, t: int, h: nat, x: nat, n: nat)
    requires IsPath(g, run, who, {t}) && n <= |who| && ExactInv(g, run[0]) && Stuck(run[0], t, h, x)
    ensures Stuck(run[n], t, h, x)
  {
    hide ExactInv, ExactStep, Stuck;
    if n > 0 {
      StuckPath(g, run, who, t, h, x, n - 1);
      PathInv(g, run, who, {t}, n - 1, x);
      PathInv(g, run, who, {t}, n, x);
      assert who[n - 1] !in {t};
      StuckStep(g, run[n - 1], run[n], who[n - 1], t, h, x);
    }
  }

  lemma StuckPins(g: SizeClass, c: Exact, t: int, h: nat, x: nat)
    requires ExactInv(g, c) && Stuck(c, t, h, x)
    ensures !Movable(g, c, t, x)
  {
    hide ExactInv, ExactStep, Loose;
    forall c' {:trigger Leads(g, c, c', {t})} | Leads(g, c, c', {t})
      ensures x in c.s.owner && x in c'.s.owner && c'.s.owner[x] == c.s.owner[x]
    {
      LeadsInv(g, c, c', {t}, x);
      var run, who :| IsPath(g, run, who, {t}) && run[0] == c && run[|who|] == c';
      StuckPath(g, run, who, t, h, x, |who|);
      HasOwner(g, c, h, x);
      HasOwner(g, c', h, x);
    }
  }

  /** The superblock's own lock pins it while it is full and not cached. */
  lemma OwnLockPinsFull(g: SizeClass, c: Exact, t: int, h: nat, x: nat)
    requires Reachable(g, c) && Has(c.s, h, x) && Free(c.s, x) == 0 && !IsCached(c, h, x)
    requires x in c.s.blockLock && c.s.blockLock[x] == t
    ensures !Movable(g, c, t, x)
  {
    hide ExactInv, Reachable;
    ReachableInv(g, c);
    StuckPins(g, c, t, h, x);
  }

  /** As long as the superblock's lock is loose, it is pinned by the lock of its owner or the global lock, and by
      nothing else. */
  lemma LooseIff(g: SizeClass, c: Exact, t: int, x: nat)
    requires Reachable(g, c) && x in c.s.owner && Loose(c.s, t, x)
    ensures !Movable(g, c, t, x) <==> HoldsHeap(c.s, t, c.s.owner[x]) || HoldsHeap(c.s, t, GLOBAL)
  {
    hide ExactInv, Reachable, Movable, Loose;
    ReachableInv(g, c);
    if HoldsHeap(c.s, t, c.s.owner[x]) || HoldsHeap(c.s, t, GLOBAL) {
      HeapLockPins(g, c, t, x);
    } else {
      LooseMoves(g, c, t, x);
    }
  }

  /** When a superblock can leave the global heap: nobody but `t` is kept from taking the global lock, and the
      superblock has a free object, or can get one, or is cached and stays so. */
  lemma GlobalIff(g: SizeClass, c: Exact, t: int, x: nat)
    requires Reachable(g, c) && x in c.s.owner && c.s.owner[x] == GLOBAL
    ensures Movable(g, c, t, x) <==>
              !HoldsHeap(c.s, t, GLOBAL)
              && (Free(c.s, x) > 0 || Loose(c.s, t, x) || (IsCached(c, GLOBAL, x) && !Displaced(c.s)))
  {
    hide ExactInv, Reachable, Movable, Loose;
    ReachableInv(g, c);
    NotCarried(g, c, x);
    if HoldsHeap(c.s, t, GLOBAL) {
      HeapLockPins(g, c, t, x);
    } else if Loose(c.s, t, x) {
      LooseMoves(g, c, t, x);
    } else if IsCached(c, GLOBAL, x) && !Displaced(c.s) {
      CachedLater(g, c, t, x);
    } else if Free(c.s, x) > 0 {
      OpenLater(g, c, t, x);
    } else {
      StuckPins(g, c, t, GLOBAL, x);
    }
  }

  lemma OpenLater(g: SizeClass, c: Exact, t: int, x: nat)
    requires ExactInv(g, c) && Has(c.s, GLOBAL, x) && Free(c.s, x) > 0 && !HoldsHeap(c.s, t, GLOBAL)
    ensures Movable(g, c, t, x)
  {
    HasOwner(g, c, GLOBAL, x);
    hide ExactInv, Leads, Movable, Calm;
    var c1 := Unlock(g, c, t, x);
    if !Movable(g, c, t, x) {
      LeadsInv(g, c, c1, {t}, x);
      CalmGlobal(g, c, c1, t);
      OpenMoves(g, c1, t, x);
      MovesLater(g, c, c1, t, x);
    }
  }

  // ---- the lock of a superblock of another heap

  /** The thread has found nothing in its heap `o` and is fetching a superblock for it. */
  predicate FetchesFor(pc: PC, o: nat) {
    match pc
    case WantGlobal(h) => h == o
    case Fetching(h) => h == o
    case Fetched(h, x) => h == o
    case Missed(h) => h == o
    case Asking(h) => h == o
    case Placing(h, x) => h == o
    case _ => false
  }

  ghost predicate NoFetch(s: State, o: nat) { forall v {:trigger At(s, v)} :: !FetchesFor(At(s, v), o) }

  ghost predicate NoneFreed(s: State, o: nat) {
    forall v {:trigger At(s, v)} :: !(At(s, v).Freed? && At(s, v).o == o)
  }

  /** The heap does not cross the threshold while `x` is in front. */
  ghost predicate Low(g: SizeClass, c: Exact, o: nat, x: nat) {
    var u := Used(g, c.s, x) + (if IsCached(c, o, x) then 0 else 1);
    !M.Threshold(u, Held(g, Bin(c.s, o)), g.size)
  }

  /** No object of another superblock of the heap is in use. */
  ghost predicate Alone(g: SizeClass, c: Exact, o: nat, x: nat) {
    && IsCached(c, o, x) && NoneFreed(c.s, o)
    && forall y {:trigger Has(c.s, o, y)} :: Has(c.s, o, y) && y != x ==> Free(c.s, y) >= g.total
  }

  ghost predicate Tight(g: SizeClass, c: Exact, t: int, o: nat, x: nat) {
    && AtBlock(c.s, t, x)
    && (Stuck(c, t, o, x)
        || (Has(c.s, o, x) && NoFetch(c.s, o) && (Low(g, c, o, x) || Alone(g, c, o, x))))
  }

  lemma ThresholdMono(u: int, a: int, u': int, a': int, size: nat)
    requires size > 0 && M.Threshold(u', a', size) && u <= u' && a' <= a
    ensures M.Threshold(u, a, size)
  {
  }

  /** How a thread comes to fetch for a heap, and to have returned an object to it. */
  ghost predicate Entry(pc: PC, pc': PC, o: nat) {
    && (FetchesFor(pc', o) ==> FetchesFor(pc, o) || pc == Allocating(o))
    && (pc'.Freed? ==> pc.Freeing? && pc.o == pc'.o)
  }

  lemma StepEntry(s: State, s': State, u: int, o: nat)
    requires Step(s, s', u)
    ensures Entry(At(s, u), At(s', u), o)
  {
    hide Step;
    StepEdge(s, s', u);
  }

  lemma StillNoFetch(g: SizeClass, c: Exact, c': Exact, u: int, o: nat)
    requires ExactStep(g, c, c', u) && NoFetch(c.s, o) && (At(c.s, u) == Allocating(o) ==> At(c'.s, u).Leaving?)
    ensures NoFetch(c'.s, o)
    ensures NoneFreed(c.s, o) && !(At(c.s, u).Freeing? && At(c.s, u).o == o) ==> NoneFreed(c'.s, o)
  {
    hide Step;
    StepEntry(c.s, c'.s, u, o);
    forall v {:trigger At(c'.s, v)}
      ensures !FetchesFor(At(c'.s, v), o) && (v != u ==> At(c'.s, v) == At(c.s, v))
    {
      StepFrame(c.s, c'.s, u, v);
    }
  }

  // ---- every step of another thread keeps it tight

  lemma TightElsewhere(g: SizeClass, c: Exact, c': Exact, u: int, o: nat, x: nat)
    requires ExactInv(g, c) && ExactStep(g, c, c', u) && o !in WorksOn(At(c.s, u))
    requires Has(c.s, o, x) && NoFetch(c.s, o) && (Low(g, c, o, x) || Alone(g, c, o, x))
    ensures Has(c'.s, o, x) && NoFetch(c'.s, o) && (Low(g, c', o, x) || Alone(g, c', o, x))
  {
    StillNoFetch(g, c, c', u, o);
    BinUntouched(g, c, c', u, o);
    SameBinHas(c, c', o, x);
    hide ExactInv, ExactStep, M.Threshold, Held;
    if Alone(g, c, o, x) {
      forall y {:trigger Has(c'.s, o, y)} | Has(c'.s, o, y) && y != x ensures Free(c'.s, y) >= g.total {
        SameBinHas(c, c', o, y);
      }
    }
  }

  lemma TightMiss(g: SizeClass, c: Exact, c': Exact, u: int, t: int, o: nat, x: nat)
    requires Has(c.s, o, x) && !Loose(c'.s, t, x) && Exhausted(c.s, o)
    requires c' == Uncache(c, o).(s := Goto(c.s, u, WantGlobal(o)))
    ensures Stuck(c', t, o, x)
  {
    hide Loose;
  }

  lemma TightServed(g: SizeClass, c: Exact, c': Exact, u: int, t: int, o: nat, x: nat, z: nat)
    requires ExactInv(g, c) && ExactStep(g, c, c', u) && At(c.s, u) == Allocating(o) && Served(g, c, c', u, o, z)
    requires Has(c.s, o, x) && NoFetch(c.s, o) && (Low(g, c, o, x) || Alone(g, c, o, x)) && !Loose(c'.s, t, x)
    ensures Stuck(c', t, o, x)
            || (Has(c'.s, o, x) && NoFetch(c'.s, o) && (Low(g, c', o, x) || Alone(g, c', o, x)))
  {
    hide Loose, ExactInv, Emptiest;
    assert Allocates(c.s, c'.s, u, o, z);
    StillNoFetch(g, c, c', u, o);
    hide ExactStep, Step;
    var m := Bin(c.s, o);
    BinPut(c.s, c'.s, o, z, Free(c.s, z) - 1);
    InUsePut(g, m, z, Free(c.s, z) - 1);
    hide Held;
    if Alone(g, c, o, x) && z == x {
      forall y {:trigger Has(c'.s, o, y)} | Has(c'.s, o, y) && y != x ensures Free(c'.s, y) >= g.total {
        assert Has(c.s, o, y);
      }
    }
  }

  lemma TightMalloc(g: SizeClass, c: Exact, c': Exact, u: int, t: int, o: nat, x: nat)
    requires ExactInv(g, c) && ExactStep(g, c, c', u) && At(c.s, u) == Allocating(o)
    requires Has(c.s, o, x) && NoFetch(c.s, o) && (Low(g, c, o, x) || Alone(g, c, o, x)) && !Loose(c'.s, t, x)
    ensures Stuck(c', t, o, x)
            || (Has(c'.s, o, x) && NoFetch(c'.s, o) && (Low(g, c', o, x) || Alone(g, c', o, x)))
  {
    hide ExactInv, ExactStep, Loose, Low, Alone, Served, Exhausted, NoFetch;
    MallocCases(g, c, c', u, o);
    if z :| Served(g, c, c', u, o, z) {
      TightServed(g, c, c', u, t, o, x, z);
    } else {
      TightMiss(g, c, c', u, t, o, x);
    }
  }

  lemma TightFree(g: SizeClass, c: Exact, c': Exact, u: int, o: nat, x: nat)
    requires ExactInv(g, c) && ExactStep(g, c, c', u) && At(c.s, u).Freeing? && At(c.s, u).o == o != GLOBAL
    requires x !in BlocksHeld(At(c.s, u))
    requires Has(c.s, o, x) && NoFetch(c.s, o) && (Low(g, c, o, x) || Alone(g, c, o, x))
    ensures Has(c'.s, o, x) && NoFetch(c'.s, o) && Low(g, c', o, x)
  {
    var b := At(c.s, u).b;
    StillNoFetch(g, c, c', u, o);
    FreesListed(g, c, u, b, o);
    hide ExactInv, Class;
    FreeCases(g, c, c', u, b, o);
    hide ExactStep, Step;
    assert !Alone(g, c, o, x);
    BinPut(c.s, c'.s, o, b, Free(c.s, b) + 1);
    InUsePut(g, Bin(c.s, o), b, Free(c.s, b) + 1);
    hide Held;
  }

  /** The object that a thread is about to return is in a listed superblock, and in use. */
  lemma FreesListed(g: SizeClass, c: Exact, u: int, b: nat, o: nat)
    requires ExactInv(g, c) && At(c.s, u) == Freeing(b, o)
    ensures Has(c.s, o, b) && Free(c.s, b) < g.total
  {
    assert BlockOk(c.s, b) && ThreadOk(c.s, u) && HeapLockOk(c.s, u, o);
    var v := if c.s.place[b].Carried? then c.s.place[b].thread else 0;
    assert ThreadOk(c.s, v) && HeapLockOk(c.s, v, o);
    FreeAtMost(g, c, b);
    assert Pends(At(c.s, u), b);
  }

  /** A heap that crosses the threshold and gives up `x` is one that may cross it. */
  lemma PickCrosses(g: SizeClass, c: Exact, o: nat, x: nat)
    requires ExactInv(g, c) && Has(c.s, o, x) && Crossed(g, c.s, o) && Picks(g, c, o, x) && Free(c.s, x) < g.total
    ensures !Low(g, c, o, x)
  {
    var m := Bin(c.s, o);
    InUseWithout(g, c, o, x);
    if IsCached(c, o, x) {
      ThresholdMono(Used(g, c.s, x), Held(g, m), InUse(g, m), Held(g, m), g.size);
    } else {
      InUseAtLeastAll(g, c, o);
      var y := AnotherBlock(g, c, o, x, InUse(g, m));
      PickFullest(g, c, o, x, y);
      ThresholdMono(Used(g, c.s, x) + 1, Held(g, m), InUse(g, m), Held(g, m), g.size);
    }
  }

  lemma InUseAtLeastAll(g: SizeClass, c: Exact, o: nat)
    requires ExactInv(g, c)
    ensures InUse(g, Bin(c.s, o)) >= 0
  {
    BinBound(g, c, o);
    InUseAtLeast(g, Bin(c.s, o));
  }

  lemma PickFullest(g: SizeClass, c: Exact, o: nat, x: nat, y: nat)
    requires ExactInv(g, c) && Picks(g, c, o, x) && !IsCached(c, o, x) && Free(c.s, x) < g.total && Has(c.s, o, y)
    ensures Free(c.s, y) < g.total
  {
    ServesFullest(g, c, o, x, y);
  }

  lemma TightGive(g: SizeClass, c: Exact, c': Exact, u: int, o: nat, x: nat)
    requires ExactInv(g, c) && ExactStep(g, c, c', u) && At(c.s, u).Freed? && At(c.s, u).o == o
    requires Has(c.s, o, x) && NoFetch(c.s, o) && (Low(g, c, o, x) || Alone(g, c, o, x)) && Free(c.s, x) < g.total
    ensures Has(c'.s, o, x) && NoFetch(c'.s, o) && Low(g, c', o, x)
  {
    StillNoFetch(g, c, c', u, o);
    var b := At(c.s, u).b;
    assert !Alone(g, c, o, x);
    hide ExactStep, M.Threshold, Held;
    GiveCases(g, c, c', u, b, o);
    if z :| Picks(g, c, o, z) && TakesOut(c.s, c'.s, u, b, o, z) && Crossed(g, c.s, o)
          && c' == c.(s := c'.s, cached := c.cached - {o}) {
      if z == x {
        PickCrosses(g, c, o, x);
      }
      TightGives(g, c, c', u, b, o, x, z);
    } else {
      SameSums(c.s, c'.s, o, {});
    }
  }

  lemma TightGives(g: SizeClass, c: Exact, c': Exact, u: int, b: nat, o: nat, x: nat, z: nat)
    requires Picks(g, c, o, z) && TakesOut(c.s, c'.s, u, b, o, z) && c'.cached == c.cached - {o}
    requires Has(c.s, o, x) && z != x && Low(g, c, o, x)
    ensures Has(c'.s, o, x) && Low(g, c', o, x)
  {
    var m := Bin(c.s, o);
    TakenOut(c.s, c'.s, o, z, u);
    assert z in m;
    B.ObjectsOf(g.total, m, z);
    if !Low(g, c', o, x) {
      ThresholdMono(Used(g, c.s, x) + 1, Held(g, m), Used(g, c'.s, x) + 1, Held(g, Bin(c'.s, o)), g.size);
    }
  }

  lemma TightStep(g: SizeClass, c: Exact, c': Exact, u: int, t: int, o: nat, x: nat)
    requires ExactInv(g, c) && ExactInv(g, c') && ExactStep(g, c, c', u) && u != t && Tight(g, c, t, o, x)
    requires o != GLOBAL
    ensures Tight(g, c', t, o, x)
  {
    StepOnly(g, c, c', u, t);
    if Stuck(c, t, o, x) {
      StuckStep(g, c, c', u, t, o, x);
    } else {
      AtBlockPends(g, c, t, x);
      OwnNotLoose(g, c, t, x);
      StaysTaken(c.s, c'.s, u, t, x) by {
        hide Step, Inv, Loose;
      }
      TightMoves(g, c, c', u, t, o, x);
    }
  }

  lemma OwnNotLoose(g: SizeClass, c: Exact, t: int, x: nat)
    requires ExactInv(g, c) && AtBlock(c.s, t, x)
    ensures !Loose(c.s, t, x) && x in c.s.blockLock && c.s.blockLock[x] == t
  {
    assert BlockLockOk(c.s, t, x);
  }

  lemma TightMoves(g: SizeClass, c: Exact, c': Exact, u: int, t: int, o: nat, x: nat)
    requires ExactInv(g, c) && ExactStep(g, c, c', u) && o != GLOBAL && Free(c.s, x) < g.total
    requires x !in BlocksHeld(At(c.s, u)) && !Loose(c'.s, t, x)
    requires Has(c.s, o, x) && NoFetch(c.s, o) && (Low(g, c, o, x) || Alone(g, c, o, x))
    ensures Stuck(c', t, o, x)
            || (Has(c'.s, o, x) && NoFetch(c'.s, o) && (Low(g, c', o, x) || Alone(g, c', o, x)))
  {
    var pc := At(c.s, u);
    assert !FetchesFor(pc, o);
    hide ExactInv, ExactStep, Loose, Low, Alone, NoFetch, Stuck;
    if o !in WorksOn(pc) {
      TightElsewhere(g, c, c', u, o, x);
    } else if pc.Allocating? {
      TightMalloc(g, c, c', u, t, o, x);
    } else if pc.Freeing? {
      TightFree(g, c, c', u, o, x);
    } else {
      TightGive(g, c, c', u, o, x);
    }
  }

  lemma {:induction false} TightPath(g: SizeClass, run: seq<Exact>, who: seq<int>, t: int, o: nat, x: nat, n: nat)
    requires IsPath(g, run, who, {t}) && n <= |who| && ExactInv(g, run[0]) && Tight(g, run[0], t, o, x) && o != GLOBAL
    ensures Tight(g, run[n], t, o, x)
  {
    hide ExactInv, ExactStep, Tight;
    if n > 0 {
      TightPath(g, run, who, t, o, x, n - 1);
      PathInv(g, run, who, {t}, n - 1, x);
      PathInv(g, run, who, {t}, n, x);
      assert who[n - 1] !in {t};
      TightStep(g, run[n - 1], run[n], who[n - 1], t, o, x);
    }
  }

  lemma TightPins(g: SizeClass, c: Exact, t: int, o: nat, x: nat)
    requires ExactInv(g, c) && Tight(g, c, t, o, x) && o != GLOBAL
    ensures !Movable(g, c, t, x)
  {
    hide ExactInv, ExactStep, Loose, Low, Alone, NoFetch;
    forall c' {:trigger Leads(g, c, c', {t})} | Leads(g, c, c', {t})
      ensures x in c.s.owner && x in c'.s.owner && c'.s.owner[x] == c.s.owner[x]
    {
      LeadsInv(g, c, c', {t}, x);
      var run, who :| IsPath(g, run, who, {t}) && run[0] == c && run[|who|] == c';
      TightPath(g, run, who, t, o, x, |who|);
      HasOwner(g, c, o, x);
      HasOwner(g, c', o, x);
    }
  }

  /** Nobody is at work in a heap whose lock is free. */
  lemma NobodyThere(g: SizeClass, c: Exact, o: nat)
    requires ExactInv(g, c) && o !in c.s.heapLock
    ensures NoFetch(c.s, o) && NoneFreed(c.s, o)
  {
    forall v {:trigger At(c.s, v)}
      ensures !FetchesFor(At(c.s, v), o) && !(At(c.s, v).Freed? && At(c.s, v).o == o)
    {
      assert HeapLockOk(c.s, v, o);
    }
  }

  lemma StartsTight(g: SizeClass, c: Exact, t: int, o: nat, x: nat)
    requires ExactInv(g, c) && AtBlock(c.s, t, x) && Has(c.s, o, x) && o !in c.s.heapLock && !MayCross(g, c, o, x)
    ensures Tight(g, c, t, o, x)
  {
    NobodyThere(g, c, o);
    OwnNotLoose(g, c, t, x);
    hide ExactInv, M.Threshold, Held, Loose;
  }

  /** A thread has locked a superblock to return an object, as `RedirectFree::free` does, and the lock of the
      superblock's heap is free.  The superblock can leave its heap just when the heap may cross the threshold. */
  lemma OwnLockIff(g: SizeClass, c: Exact, t: int, x: nat)
    requires Reachable(g, c) && AtBlock(c.s, t, x)
    requires x in c.s.owner && c.s.owner[x] != GLOBAL && c.s.owner[x] !in c.s.heapLock
    ensures Movable(g, c, t, x) <==> MayCross(g, c, c.s.owner[x], x)
  {
    hide ExactInv, Reachable, Movable, MayCross;
    ReachableInv(g, c);
    NotCarried(g, c, x);
    var o := c.s.owner[x];
    if MayCross(g, c, o, x) {
      MayCrossMoves(g, c, t, o, x);
    } else {
      StartsTight(g, c, t, o, x);
      TightPins(g, c, t, o, x);
    }
  }

  // ---- both happen

  lemma Unheld(g: SizeClass, c: Exact, c': Exact, t: int)
    requires Leads(g, c, c', {t})
    ensures Leads(g, c, c', {})
  {
    hide ExactStep;
    var run, who :| IsPath(g, run, who, {t}) && run[0] == c && run[|who|] == c';
    assert IsPath(g, run, who, {});
  }

  lemma Continues(g: SizeClass, c: Exact, c': Exact, t: int)
    requires Reachable(g, c) && Leads(g, c, c', {t})
    ensures Reachable(g, c')
  {
    hide Leads;
    Unheld(g, c, c', t);
    Then(g, START, c, c', {});
  }

  /** Any number of superblocks in heap 1, all objects of which are handed out. */
  lemma AllFull(g: SizeClass, n: nat) returns (a: set<nat>, c: Exact)
    ensures Reachable(g, c) && ExactInv(g, c) && |a| == n && c.s.heapLock == map[] == c.s.blockLock
    ensures Exhausted(c.s, 1) && GLOBAL !in c.cached && Exhausted(c.s, GLOBAL)
    ensures forall y {:trigger Has(c.s, 1, y)} :: Has(c.s, 1, y) <==> y in a
  {
    StartInv(g);
    hide ExactInv, Leads;
    a, c := Grow(g, START, 0, 1, n);
    Stay(g, START, {});
    Continues(g, START, c, 0);
    assert SameBin(START, c, GLOBAL);
    NothingStill(START, c);
    forall y {:trigger Has(c.s, 1, y)} ensures Has(c.s, 1, y) <==> y in a {
      assert !Has(START.s, 1, y);
    }
  }

  /** The lock of a superblock may keep it with its heap. */
  lemma OwnLockMayPin(g: SizeClass) returns (c: Exact, t: int, x: nat)
    ensures Reachable(g, c) && AtBlock(c.s, t, x) && c.s.heapLock == map[] && !Movable(g, c, t, x)
  {
    var a, c1 := AllFull(g, 2);
    hide ExactInv, Leads, Movable;
    x := TwoBlocks(c1, a);
    assert Has(c1.s, 1, x);
    HasOwner(g, c1, 1, x);
    t, c := Arrives(g, c1, 0, x);
    Continues(g, c1, c, 0);
    OwnNotLoose(g, c, t, x);
    OwnLockPinsFull(g, c, t, 1, x);
  }

  lemma TwoBlocks(c: Exact, a: set<nat>) returns (x: nat)
    requires |a| == 2
    ensures x in a && !IsCached(c, 1, x)
  {
    if 1 in c.cached && a <= {c.cached[1]} {
      AtMostOne(a, c.cached[1]);
      assert false;
    }
    x :| x in a && !IsCached(c, 1, x);
  }

  /** The owner of a superblock may change while a thread holds the superblock's lock, whatever the size of its
      objects. */
  lemma OwnerMayChange(g: SizeClass) returns (c: Exact, t: int, x: nat)
    ensures Reachable(g, c) && AtBlock(c.s, t, x) && c.s.heapLock == map[] && Movable(g, c, t, x)
  {
    var d := (2 * M.SUPERBLOCK_SIZE) / g.size;
    var a, c1 := AllFull(g, d + 1);
    hide ExactInv, Leads, Movable, Exhausted;
    var c2;
    x, c2 := Miss(g, c1, 0, 1);
    Continues(g, c1, c2, 0);
    LeadsInv(g, c1, c2, {0}, 0);
    Unpended(g, c1, 0, x);
    t, c := Arrives(g, c2, 0, x);
    Continues(g, c2, c, 0);
    OneMore(g, c1, c, a, x, d);
    OwnLockIff(g, c, t, x);
  }

  lemma Unpended(g: SizeClass, c: Exact, t: int, x: nat)
    requires ExactInv(g, c) && x !in c.s.owner
    ensures !Pends(At(c.s, t), x)
  {
    assert ThreadOk(c.s, t);
  }

  lemma OneMore(g: SizeClass, c: Exact, c': Exact, a: set<nat>, x: nat, d: nat)
    requires ExactInv(g, c) && d == (2 * M.SUPERBLOCK_SIZE) / g.size && |a| == d + 1 && Exhausted(c.s, 1)
    requires forall y {:trigger Has(c.s, 1, y)} :: Has(c.s, 1, y) <==> y in a
    requires x !in c.s.owner && c'.s.place == c.s.place[x := Listed(1)] && c'.s.free == c.s.free[x := g.total - 1]
    requires IsCached(c', 1, x)
    ensures MayCross(g, c', 1, x)
  {
    assert BlockOk(c.s, x);
    assert !Has(c.s, 1, x);
    var m := Bin(c'.s, 1);
    forall y: nat ensures y in m.Keys <==> y in a + {x} {
      assert Has(c.s, 1, y) <==> y in a;
      assert y in m.Keys <==> Has(c'.s, 1, y);
    }
    assert m.Keys == a + {x};
    assert |m.Keys| == d + 2;
    HeldIs(g, m);
    Bits.MulMonotone(2, g.total, d + 2);
    assert g.total * (d + 2) >= 2 * (d + 2);
    var y :| y in a;
    assert Has(c.s, 1, y) && Has(c'.s, 1, y);
  }
}
