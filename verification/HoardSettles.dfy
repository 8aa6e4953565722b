/** The loop of `RedirectFree::free` ends: while a thread holds the lock of a superblock, the superblock changes its
    owner only so many times. */
module HoardSettles {
  import opened HoardProtocol
  import opened HoardExact
  import opened HoardDrive
  import opened HoardMoves
  import opened HoardPinning

  /** `t` is in the loop: it has locked `x` and not yet returned its object. */
  predicate InLoop(s: State, t: int, x: nat) {
    var pc := At(s, t);
    (pc.Reading? || pc.WantOwner? || pc.Checking? || pc.Retrying?) && pc.b == x
  }

  /** A thread has fetched `x` for the heap `h` and not yet taken an object, or is about to take one from it. */
  predicate InTransit(c: Exact, h: nat, x: nat) {
    h in c.s.heapLock &&
    var pc := At(c.s, c.s.heapLock[h]);
    pc == Fetched(h, x) || pc == Placing(h, x) || (pc == Allocating(h) && IsCached(c, h, x))
  }

  /** Full and listed, so that `get` does not return it. */
  predicate Stopped(c: Exact, h: nat, x: nat) { Has(c.s, h, x) && Free(c.s, x) == 0 && !IsCached(c, h, x) }

  /** How often the owner can still change: on each way down to a heap an object is taken. */
  function Left(c: Exact, x: nat): nat
    requires x in c.s.owner
  {
    var h, f := c.s.owner[x], Free(c.s, x);
    if h == GLOBAL then 2 * f + 1
    else if InTransit(c, h, x) then 2 * f
    else if Stopped(c, h, x) then 0
    else 2 * f + 2
  }

  function Changed(c: Exact, c': Exact, x: nat): nat
    requires x in c.s.owner && x in c'.s.owner
  {
    if c'.s.owner[x] == c.s.owner[x] then 0 else 1
  }

  // ---- the lock of the superblock

  lemma LoopHolds(g: SizeClass, c: Exact, t: int, x: nat)
    requires ExactInv(g, c) && InLoop(c.s, t, x)
    ensures x in c.s.owner && !Loose(c.s, t, x) && Free(c.s, x) < g.total
    ensures forall u {:trigger At(c.s, u)} :: u != t ==> x !in BlocksHeld(At(c.s, u))
  {
    assert BlockLockOk(c.s, t, x) && ThreadOk(c.s, t);
    FreeAtMost(g, c, x);
    assert Pends(At(c.s, t), x);
    forall u {:trigger At(c.s, u)} | u != t ensures x !in BlocksHeld(At(c.s, u)) {
      assert BlockLockOk(c.s, u, x);
    }
  }

  lemma TakenFewer(g: SizeClass, c: Exact, c': Exact, u: int, x: nat)
    requires ExactInv(g, c) && ExactStep(g, c, c', u) && At(c.s, u).Allocating? && x in c.s.owner
    ensures Free(c'.s, x) <= Free(c.s, x)
  {
    hide Inv, ExactStep, Serves, Exhausted;
    var h := At(c.s, u).h;
    MallocCases(g, c, c', u, h);
    if z :| Served(g, c, c', u, h, z) {
      assert Allocates(c.s, c'.s, u, h, z);
    }
  }

  lemma ObtainedFewer(g: SizeClass, c: Exact, c': Exact, u: int, x: nat)
    requires ExactInv(g, c) && ExactStep(g, c, c', u) && At(c.s, u).Asking? && x in c.s.owner
    ensures Free(c'.s, x) <= Free(c.s, x)
  {
    hide Inv, ExactStep;
    ObtainCases(g, c, c', u, At(c.s, u).h);
  }

  /** Nobody else returns an object to it. */
  lemma NoMoreFree(g: SizeClass, c: Exact, c': Exact, u: int, x: nat)
    requires ExactInv(g, c) && ExactStep(g, c, c', u) && x in c.s.owner && x !in BlocksHeld(At(c.s, u))
    ensures Free(c'.s, x) <= Free(c.s, x)
  {
    var pc := At(c.s, u);
    if pc.Allocating? {
      TakenFewer(g, c, c', u, x);
    } else if pc.Asking? {
      ObtainedFewer(g, c, c', u, x);
    } else if pc.Freeing? {
      hide Inv, Class;
      FreeCases(g, c, c', u, pc.b, pc.o);
      hide ExactStep;
    } else {
      hide Step;
      FreeSame(c.s, c'.s, u);
    }
  }

  // ---- a step that changes the owner

  lemma FetchChanges(g: SizeClass, c: Exact, c': Exact, u: int, x: nat)
    requires ExactInv(g, c) && ExactStep(g, c, c', u) && At(c.s, u).Fetching?
    requires x in c.s.owner && x in c'.s.owner && c'.s.owner[x] != c.s.owner[x]
    ensures var h := c'.s.owner[x];
            c.s.owner[x] == GLOBAL != h && At(c'.s, u) == Fetched(h, x) && HoldsHeap(c'.s, u, h)
  {
    var h := At(c.s, u).h;
    assert HeapLockOk(c.s, u, h) && ThreadOk(c.s, u) && BlockOk(c.s, x);
    hide Inv, ExactStep, Picks, Exhausted;
    FetchCases(g, c, c', u, h);
  }

  lemma HandChanges(g: SizeClass, c: Exact, c': Exact, u: int, x: nat)
    requires ExactInv(g, c) && ExactStep(g, c, c', u) && At(c.s, u).Handing?
    requires x in c.s.owner && x in c'.s.owner && c'.s.owner[x] != c.s.owner[x]
    ensures c'.s.owner[x] == GLOBAL && c.s.owner[x] == At(c.s, u).o && At(c.s, u).x == x
    ensures HoldsHeap(c.s, u, c.s.owner[x]) && !Has(c.s, c.s.owner[x], x)
  {
    assert ThreadOk(c.s, u) && HeapLockOk(c.s, u, At(c.s, u).o) && Carries(c.s, u, At(c.s, u).x);
  }

  lemma OthersKeepOwner(g: SizeClass, c: Exact, c': Exact, u: int, x: nat)
    requires ExactInv(g, c) && ExactStep(g, c, c', u) && !At(c.s, u).Fetching? && !At(c.s, u).Handing?
    requires x in c.s.owner && x in c'.s.owner
    ensures c'.s.owner[x] == c.s.owner[x]
  {
    if !Touches(At(c.s, u)) {
      PlainSame(g, c, c', u);
    } else if At(c.s, u).Asking? {
      hide Inv;
      ObtainCases(g, c, c', u, At(c.s, u).h);
    } else {
      assert ThreadOk(c.s, u);
    }
  }

  lemma ChangeStep(g: SizeClass, c: Exact, c': Exact, u: int, x: nat)
    requires ExactInv(g, c) && ExactStep(g, c, c', u) && Free(c'.s, x) <= Free(c.s, x)
    requires x in c.s.owner && x in c'.s.owner && c'.s.owner[x] != c.s.owner[x]
    ensures 1 + Left(c', x) <= Left(c, x)
  {
    hide ExactInv, ExactStep;
    if At(c.s, u).Fetching? {
      FetchChanges(g, c, c', u, x);
    } else if At(c.s, u).Handing? {
      HandChanges(g, c, c', u, x);
    } else {
      OthersKeepOwner(g, c, c', u, x);
    }
  }

  // ---- a step that does not

  /** What is on its way is not in a list. */
  lemma NotBoth(g: SizeClass, c: Exact, h: nat, x: nat)
    requires ExactInv(g, c) && Stopped(c, h, x)
    ensures !InTransit(c, h, x)
  {
    if h in c.s.heapLock {
      var w := c.s.heapLock[h];
      assert ThreadOk(c.s, w) && (x in Hand(At(c.s, w)) ==> Carries(c.s, w, x));
    }
  }

  /** It stays on its way, or an object is taken, or it stops. */
  ghost predicate Progresses(c: Exact, c': Exact, h: nat, x: nat) {
    InTransit(c', h, x) || Stopped(c', h, x) || Free(c'.s, x) < Free(c.s, x)
  }

  lemma OtherTransit(g: SizeClass, c: Exact, c': Exact, u: int, h: nat, x: nat)
    requires ExactInv(g, c) && ExactInv(g, c') && ExactStep(g, c, c', u) && InTransit(c, h, x) && !HoldsHeap(c.s, u, h)
    ensures InTransit(c', h, x)
  {
    var w := c.s.heapLock[h];
    BinUnheld(g, c, c', u, h);
    StepOnly(g, c, c', u, w);
    hide ExactStep;
    assert HeapLockOk(c.s, w, h) && HeapLockOk(c'.s, w, h);
  }

  lemma CarriesOn(g: SizeClass, c: Exact, c': Exact, u: int, h: nat, x: nat)
    requires ExactInv(g, c) && ExactInv(g, c') && ExactStep(g, c, c', u) && HoldsHeap(c.s, u, h) && h != GLOBAL
    requires At(c.s, u) == Fetched(h, x) || At(c.s, u) == Placing(h, x)
    ensures InTransit(c', h, x)
  {
    assert HeapLockOk(c'.s, u, h);
    hide Inv;
  }

  lemma MallocsOn(g: SizeClass, c: Exact, c': Exact, u: int, h: nat, x: nat)
    requires ExactInv(g, c) && ExactStep(g, c, c', u) && At(c.s, u) == Allocating(h) && IsCached(c, h, x)
    ensures Progresses(c, c', h, x)
  {
    CachedHas(g, c, h, x);
    hide ExactInv, ExactStep, Emptiest;
    MallocCases(g, c, c', u, h);
    if z :| Served(g, c, c', u, h, z) {
      assert Allocates(c.s, c'.s, u, h, z);
    }
  }

  lemma TransitStep(g: SizeClass, c: Exact, c': Exact, u: int, h: nat, x: nat)
    requires ExactInv(g, c) && ExactInv(g, c') && ExactStep(g, c, c', u) && InTransit(c, h, x) && h != GLOBAL
    ensures Progresses(c, c', h, x)
  {
    hide ExactInv, ExactStep;
    if !HoldsHeap(c.s, u, h) {
      OtherTransit(g, c, c', u, h, x);
    } else if At(c.s, u).Allocating? {
      MallocsOn(g, c, c', u, h, x);
    } else {
      CarriesOn(g, c, c', u, h, x);
    }
  }

  lemma StoppedStep(g: SizeClass, c: Exact, c': Exact, u: int, t: int, h: nat, x: nat)
    requires ExactInv(g, c) && ExactInv(g, c') && ExactStep(g, c, c', u) && InLoop(c.s, t, x) && Stopped(c, h, x)
    requires InLoop(c'.s, t, x) && h != GLOBAL
    ensures Stopped(c', h, x)
  {
    LoopHolds(g, c, t, x);
    hide ExactInv, Loose;
    if u != t {
      StuckStep(g, c, c', u, t, h, x);
    } else {
      BinUntouched(g, c, c', u, h);
      SameBinHas(c, c', h, x);
    }
  }

  lemma SameOwnerStep(g: SizeClass, c: Exact, c': Exact, u: int, t: int, x: nat)
    requires ExactInv(g, c) && ExactInv(g, c') && ExactStep(g, c, c', u) && InLoop(c.s, t, x) && InLoop(c'.s, t, x)
    requires x in c.s.owner && x in c'.s.owner && c'.s.owner[x] == c.s.owner[x] && Free(c'.s, x) <= Free(c.s, x)
    ensures Left(c', x) <= Left(c, x)
  {
    hide ExactInv, ExactStep, InTransit, Stopped;
    var h := c.s.owner[x];
    if h != GLOBAL {
      if InTransit(c, h, x) {
        TransitStep(g, c, c', u, h, x);
      } else if Stopped(c, h, x) {
        StoppedStep(g, c, c', u, t, h, x);
      }
      if Stopped(c', h, x) {
        NotBoth(g, c', h, x);
      }
    }
  }

  /** Every change of owner uses one up, and no step adds one. */
  lemma LeftStep(g: SizeClass, c: Exact, c': Exact, u: int, t: int, x: nat)
    requires ExactInv(g, c) && ExactInv(g, c') && ExactStep(g, c, c', u) && InLoop(c.s, t, x) && InLoop(c'.s, t, x)
    ensures x in c.s.owner && x in c'.s.owner && Changed(c, c', x) + Left(c', x) <= Left(c, x)
  {
    hide ExactInv, ExactStep, InLoop, Left;
    LoopHolds(g, c, t, x);
    LoopHolds(g, c', t, x);
    LoopFree(g, c, c', u, t, x);
    if c'.s.owner[x] == c.s.owner[x] {
      SameOwnerStep(g, c, c', u, t, x);
    } else {
      ChangeStep(g, c, c', u, x);
    }
  }

  lemma LoopFree(g: SizeClass, c: Exact, c': Exact, u: int, t: int, x: nat)
    requires ExactInv(g, c) && ExactStep(g, c, c', u) && InLoop(c.s, t, x) && x in c.s.owner
    requires u != t ==> x !in BlocksHeld(At(c.s, u))
    ensures Free(c'.s, x) <= Free(c.s, x)
  {
    hide ExactInv, ExactStep;
    if u == t {
      PlainSame(g, c, c', u);
    } else {
      NoMoreFree(g, c, c', u, x);
    }
  }

  // ---- over a run

  /** How often the owner of `x` has changed in the first `n` steps. */
  ghost function Changes(run: seq<Exact>, x: nat, n: nat): nat
    requires n < |run| && forall i {:trigger run[i]} :: 0 <= i <= n ==> x in run[i].s.owner
  {
    if n == 0 then 0 else Changes(run, x, n - 1) + Changed(run[n - 1], run[n], x)
  }

  /** `t` finds that the owner is not the one it has read. */
  function Retried(c: Exact, c': Exact, t: int): nat {
    if At(c.s, t).Checking? && At(c'.s, t).Retrying? then 1 else 0
  }

  /** How often `t` has gone round the loop in the first `n` steps. */
  ghost function Retries(run: seq<Exact>, t: int, n: nat): nat
    requires n < |run|
  {
    if n == 0 then 0 else Retries(run, t, n - 1) + Retried(run[n - 1], run[n], t)
  }

  /** The owner that `t` has read is no longer the owner. */
  function Stale(c: Exact, t: int, x: nat): nat
    requires x in c.s.owner
  {
    var pc := At(c.s, t);
    if (pc.WantOwner? || pc.Checking?) && pc.o != c.s.owner[x] then 1 else 0
  }

  lemma OwnStep(g: SizeClass, c: Exact, c': Exact, t: int, x: nat)
    requires ExactStep(g, c, c', t) && InLoop(c.s, t, x) && InLoop(c'.s, t, x) && x in c.s.owner
    ensures c'.s.owner == c.s.owner && Retried(c, c', t) + Stale(c', t, x) <= Stale(c, t, x)
  {
  }

  /** `t` goes round again only after a change of owner. */
  lemma RetryStep(g: SizeClass, c: Exact, c': Exact, u: int, t: int, x: nat)
    requires ExactStep(g, c, c', u) && InLoop(c.s, t, x) && InLoop(c'.s, t, x) && x in c.s.owner && x in c'.s.owner
    ensures Retried(c, c', t) + Stale(c', t, x) <= Changed(c, c', x) + Stale(c, t, x)
  {
    hide ExactStep;
    if u == t {
      OwnStep(g, c, c', t, x);
    } else {
      StepOnly(g, c, c', u, t);
    }
  }

  /** `t` is in the loop at every moment up to `n`. */
  ghost predicate Loops(run: seq<Exact>, t: int, x: nat, n: nat) {
    n < |run| && forall i {:trigger run[i]} :: 0 <= i <= n ==> InLoop(run[i].s, t, x) && x in run[i].s.owner
  }

  lemma {:induction false} LeftAfter(g: SizeClass, run: seq<Exact>, who: seq<int>, t: int, x: nat, n: nat)
    requires IsPath(g, run, who, {}) && ExactInv(g, run[0]) && Loops(run, t, x, n)
    ensures Changes(run, x, n) + Left(run[n], x) <= Left(run[0], x)
    ensures Retries(run, t, n) + Stale(run[n], t, x) <= Changes(run, x, n) + Stale(run[0], t, x)
  {
    hide ExactInv, ExactStep, InLoop, Left, Stale, Changed, Retried;
    if n > 0 {
      LeftAfter(g, run, who, t, x, n - 1);
      PathInv(g, run, who, {}, n - 1, x);
      PathInv(g, run, who, {}, n, x);
      assert who[n - 1] == who[n - 1];
      LeftStep(g, run[n - 1], run[n], who[n - 1], t, x);
      RetryStep(g, run[n - 1], run[n], who[n - 1], t, x);
    }
  }

  /** Whatever the threads do while `t` is in the loop of `free`, the superblock changes its owner at most twice for
      every free object and twice more, and `t` goes round no more often than that. */
  lemma LoopEnds(g: SizeClass, run: seq<Exact>, who: seq<int>, t: int, x: nat)
    requires IsPath(g, run, who, {}) && Reachable(g, run[0]) && At(run[0].s, t) == Reading(x)
    requires forall i {:trigger run[i]} :: 0 <= i < |run| ==> InLoop(run[i].s, t, x)
    ensures forall i {:trigger run[i]} :: 0 <= i < |run| ==> x in run[i].s.owner
    ensures Retries(run, t, |who|) <= Changes(run, x, |who|) <= 2 * Free(run[0].s, x) + 2 <= 2 * g.total
  {
    hide ExactInv, ExactStep, Reachable;
    ReachableInv(g, run[0]);
    forall i {:trigger run[i]} | 0 <= i < |run| ensures x in run[i].s.owner {
      PathInv(g, run, who, {}, i, x);
      LoopHolds(g, run[i], t, x);
    }
    LoopHolds(g, run[0], t, x);
    LeftAfter(g, run, who, t, x, |who|);
  }
}
