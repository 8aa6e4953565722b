/** Hoard's locking protocol, over every interleaving of threads.

    Each heap has a lock and each superblock has a lock.  Heap 0 is the global heap; the others serve
    threads.  A state says where every thread is in `malloc` or `free`, who holds which lock, which
    heap every superblock names as its owner, where it is kept, and how many of its objects are free. */
module HoardProtocol {

  datatype Place = Listed(heap: nat) | Carried(thread: int)

  /** Where a thread is.  `h` is the heap it allocates from, `b` the superblock of the object it frees, `o`
      the owner it read, `x` a superblock on its way from one heap to another. */
  datatype PC =
    | Idle
    | WantHeap(h: nat)                    // malloc: about to lock its heap
    | Allocating(h: nat)                  // in the bins of its heap
    | WantGlobal(h: nat)                  // no object there: about to lock the global heap
    | Fetching(h: nat)                    // in the bins of the global heap
    | Fetched(h: nat, x: nat)             // a superblock taken over: about to unlock the global heap
    | Missed(h: nat)                      // nothing there: about to unlock the global heap
    | Asking(h: nat)                      // about to ask the source for a new superblock
    | Placing(h: nat, x: nat)             // about to put the superblock into its heap
    | Leaving(h: nat)                     // about to unlock its heap
    | WantBlock(b: nat)                   // free: about to lock the superblock
    | Reading(b: nat)                     // about to read its owner
    | WantOwner(b: nat, o: nat)           // about to lock that heap
    | Checking(b: nat, o: nat)            // about to read the owner again
    | Retrying(b: nat, o: nat)            // the owner has changed: about to unlock
    | Freeing(b: nat, o: nat)             // about to return the object
    | Freed(b: nat, o: nat)               // about to finish, or first to give up a superblock
    | Giving(b: nat, o: nat, x: nat)      // a superblock taken out: about to lock the global heap
    | Handing(b: nat, o: nat, x: nat)     // about to make it the global heap's
    | Handed(b: nat, o: nat)              // about to unlock the global heap
    | Finishing(b: nat, o: nat)           // about to unlock the owner
    | Releasing(b: nat)                   // about to unlock the superblock

  datatype State = State(
    pcs: map<int, PC>,
    heapLock: map<nat, int>,              // the holder of each lock that is held
    blockLock: map<nat, int>,
    owner: map<nat, nat>,
    place: map<nat, Place>,
    free: map<nat, nat>)

  const GLOBAL: nat := 0

  function At(s: State, t: int): PC { if t in s.pcs then s.pcs[t] else Idle }

  function HeapsHeld(pc: PC): set<nat> {
    match pc
    case Allocating(h) => {h}
    case WantGlobal(h) => {h}
    case Fetching(h) => {h, GLOBAL}
    case Fetched(h, x) => {h, GLOBAL}
    case Missed(h) => {h, GLOBAL}
    case Asking(h) => {h}
    case Placing(h, x) => {h}
    case Leaving(h) => {h}
    case Checking(b, o) => {o}
    case Retrying(b, o) => {o}
    case Freeing(b, o) => {o}
    case Freed(b, o) => {o}
    case Giving(b, o, x) => {o}
    case Handing(b, o, x) => {o, GLOBAL}
    case Handed(b, o) => {o, GLOBAL}
    case Finishing(b, o) => {o}
    case _ => {}
  }

  function BlocksHeld(pc: PC): set<nat> {
    match pc
    case Reading(b) => {b}
    case WantOwner(b, o) => {b}
    case Checking(b, o) => {b}
    case Retrying(b, o) => {b}
    case Freeing(b, o) => {b}
    case Freed(b, o) => {b}
    case Giving(b, o, x) => {b}
    case Handing(b, o, x) => {b}
    case Handed(b, o) => {b}
    case Finishing(b, o) => {b}
    case Releasing(b) => {b}
    case _ => {}
  }

  /** The superblock a thread carries. */
  function Hand(pc: PC): set<nat> {
    match pc
    case Fetched(h, x) => {x}
    case Placing(h, x) => {x}
    case Giving(b, o, x) => {x}
    case Handing(b, o, x) => {x}
    case _ => {}
  }

  // ---- steps

  function Goto(s: State, t: int, pc: PC): State { s.(pcs := s.pcs[t := pc]) }

  /** Taking a lock that is free. */
  ghost predicate TakesHeap(s: State, s': State, t: int, h: nat, pc: PC) {
    h !in s.heapLock && s' == Goto(s, t, pc).(heapLock := s.heapLock[h := t])
  }

  ghost predicate DropsHeap(s: State, s': State, t: int, h: nat, pc: PC) {
    s' == Goto(s, t, pc).(heapLock := s.heapLock - {h})
  }

  ghost predicate TakesBlock(s: State, s': State, t: int, b: nat, pc: PC) {
    b !in s.blockLock && s' == Goto(s, t, pc).(blockLock := s.blockLock[b := t])
  }

  ghost predicate DropsBlock(s: State, s': State, t: int, b: nat, pc: PC) {
    s' == Goto(s, t, pc).(blockLock := s.blockLock - {b})
  }

  /** An object taken from a superblock in the bins of the heap. */
  ghost predicate Allocates(s: State, s': State, t: int, h: nat, x: nat) {
    && x in s.place && s.place[x] == Listed(h) && x in s.free && s.free[x] > 0
    && s' == Goto(s, t, Leaving(h)).(free := s.free[x := s.free[x] - 1])
  }

  /** `get` on the global heap: the superblock leaves its bins and names the new owner. */
  ghost predicate TakesOver(s: State, s': State, t: int, h: nat, x: nat) {
    && x in s.place && s.place[x] == Listed(GLOBAL)
    && s' == Goto(s, t, Fetched(h, x)).(owner := s.owner[x := h], place := s.place[x := Carried(t)])
  }

  /** A superblock from the source: nobody else knows it. */
  ghost predicate Creates(s: State, s': State, t: int, h: nat, x: nat, objects: nat) {
    && x !in s.owner
    && s' == Goto(s, t, Placing(h, x)).(owner := s.owner[x := h], place := s.place[x := Carried(t)],
                                           free := s.free[x := objects])
  }

  /** `unlocked_put`: the superblock names the heap as its owner and goes into its bins. */
  ghost predicate Puts(s: State, s': State, t: int, h: nat, x: nat, pc: PC) {
    s' == Goto(s, t, pc).(owner := s.owner[x := h], place := s.place[x := Listed(h)])
  }

  /** The object goes back to its superblock. */
  ghost predicate Returns(s: State, s': State, t: int, b: nat, o: nat) {
    b in s.free && s' == Goto(s, t, Freed(b, o)).(free := s.free[b := s.free[b] + 1])
  }

  /** A superblock of the heap that has become too empty is taken out of its bins. */
  ghost predicate TakesOut(s: State, s': State, t: int, b: nat, o: nat, x: nat) {
    && o != GLOBAL && x in s.place && s.place[x] == Listed(o)
    && s' == Goto(s, t, Giving(b, o, x)).(place := s.place[x := Carried(t)])
  }

  /** One step of thread `t`. */
  ghost predicate Step(s: State, s': State, t: int) {
    match At(s, t)
    case Idle =>
      || (exists h :: h != GLOBAL && s' == Goto(s, t, WantHeap(h)))
      || (exists b :: b in s.owner && s' == Goto(s, t, WantBlock(b)))
    case WantHeap(h) => TakesHeap(s, s', t, h, Allocating(h))
    case Allocating(h) => (exists x :: Allocates(s, s', t, h, x)) || s' == Goto(s, t, WantGlobal(h))
    case WantGlobal(h) => TakesHeap(s, s', t, GLOBAL, Fetching(h))
    case Fetching(h) => (exists x :: TakesOver(s, s', t, h, x)) || s' == Goto(s, t, Missed(h))
    case Fetched(h, x) => DropsHeap(s, s', t, GLOBAL, Placing(h, x))
    case Missed(h) => DropsHeap(s, s', t, GLOBAL, Asking(h))
    case Asking(h) => (exists x, n :: Creates(s, s', t, h, x, n)) || s' == Goto(s, t, Leaving(h))
    case Placing(h, x) => Puts(s, s', t, h, x, Allocating(h))
    case Leaving(h) => DropsHeap(s, s', t, h, Idle)
    case WantBlock(b) => TakesBlock(s, s', t, b, Reading(b))
    case Reading(b) => b in s.owner && s' == Goto(s, t, WantOwner(b, s.owner[b]))
    case WantOwner(b, o) => TakesHeap(s, s', t, o, Checking(b, o))
    case Checking(b, o) => b in s.owner && s' == Goto(s, t, if s.owner[b] == o then Freeing(b, o) else Retrying(b, o))
    case Retrying(b, o) => DropsHeap(s, s', t, o, Reading(b))
    case Freeing(b, o) => Returns(s, s', t, b, o)
    case Freed(b, o) => s' == Goto(s, t, Finishing(b, o)) || (exists x :: TakesOut(s, s', t, b, o, x))
    case Giving(b, o, x) => TakesHeap(s, s', t, GLOBAL, Handing(b, o, x))
    case Handing(b, o, x) => Puts(s, s', t, GLOBAL, x, Handed(b, o))
    case Handed(b, o) => DropsHeap(s, s', t, GLOBAL, Finishing(b, o))
    case Finishing(b, o) => DropsHeap(s, s', t, o, Releasing(b))
    case Releasing(b) => DropsBlock(s, s', t, b, Idle)
  }

  // ---- the invariant

  /** A lock is held by `t` just when `t` is where it holds that lock. */
  ghost predicate HeapLockOk(s: State, t: int, h: nat) {
    h in HeapsHeld(At(s, t)) <==> h in s.heapLock && s.heapLock[h] == t
  }

  ghost predicate BlockLockOk(s: State, t: int, b: nat) {
    b in BlocksHeld(At(s, t)) <==> b in s.blockLock && s.blockLock[b] == t
  }

  /** A superblock is in the bins of its owner, or carried by a thread that holds its owner's lock. */
  ghost predicate BlockOk(s: State, x: nat) {
    && (x in s.owner <==> x in s.place) && (x in s.owner <==> x in s.free)
    && (x in s.place && s.place[x].Listed? ==> s.owner[x] == s.place[x].heap)
    && (x in s.place && s.place[x].Carried? ==> x in Hand(At(s, s.place[x].thread)))
  }

  /** What a thread knows about its heap and the owners of superblocks. */
  ghost predicate Knows(owner: map<nat, nat>, pc: PC) {
    match pc
    case WantHeap(h) => h != GLOBAL
    case Allocating(h) => h != GLOBAL
    case WantGlobal(h) => h != GLOBAL
    case Fetching(h) => h != GLOBAL
    case Fetched(h, x) => h != GLOBAL && x in owner && owner[x] == h
    case Missed(h) => h != GLOBAL
    case Asking(h) => h != GLOBAL
    case Placing(h, x) => h != GLOBAL && x in owner && owner[x] == h
    case Leaving(h) => h != GLOBAL
    case WantBlock(b) => b in owner
    case Freeing(b, o) => b in owner && owner[b] == o
    case Giving(b, o, x) => o != GLOBAL && x in owner && owner[x] == o
    case Handing(b, o, x) => o != GLOBAL && x in owner && owner[x] == o
    case Handed(b, o) => o != GLOBAL
    case _ => true
  }

  predicate Carries(s: State, t: int, x: nat) { x in s.place && s.place[x] == Carried(t) }

  ghost predicate ThreadOk(s: State, t: int) {
    && Knows(s.owner, At(s, t))
    && (forall x {:trigger Carries(s, t, x)} :: x in Hand(At(s, t)) ==> Carries(s, t, x))
    && BlocksHeld(At(s, t)) <= s.owner.Keys
  }

  ghost predicate Inv(s: State) {
    && (forall t, h {:trigger HeapLockOk(s, t, h)} :: HeapLockOk(s, t, h))
    && (forall t, b {:trigger BlockLockOk(s, t, b)} :: BlockLockOk(s, t, b))
    && (forall x {:trigger BlockOk(s, x)} :: BlockOk(s, x))
    && (forall t {:trigger ThreadOk(s, t)} :: ThreadOk(s, t))
  }

  ghost predicate Init(s: State) { s == State(map[], map[], map[], map[], map[], map[]) }

  lemma InitInv(s: State)
    requires Init(s)
    ensures Inv(s)
  {
  }

  // ---- every kind of step keeps it

  /** `t` moves on, holding the same locks and carrying the same superblock. */
  lemma MovesInv(s: State, s': State, t: int, pc: PC)
    requires Inv(s) && s' == Goto(s, t, pc) && Knows(s.owner, pc)
    requires HeapsHeld(pc) == HeapsHeld(At(s, t)) && BlocksHeld(pc) == BlocksHeld(At(s, t))
    requires Hand(pc) == Hand(At(s, t))
    ensures Inv(s')
  {
    hide HeapsHeld, BlocksHeld, Hand, Knows;
    forall u, h {:trigger HeapLockOk(s', u, h)} ensures HeapLockOk(s', u, h) {
      assert HeapLockOk(s, u, h);
    }
    forall u, b {:trigger BlockLockOk(s', u, b)} ensures BlockLockOk(s', u, b) {
      assert BlockLockOk(s, u, b);
    }
    forall x {:trigger BlockOk(s', x)} ensures BlockOk(s', x) {
      assert BlockOk(s, x);
    }
    forall u {:trigger ThreadOk(s', u)} ensures ThreadOk(s', u) {
      assert ThreadOk(s, u);
      forall x {:trigger Carries(s', u, x)} | x in Hand(At(s', u)) ensures Carries(s', u, x) {
        assert Carries(s, u, x);
      }
    }
  }

  lemma TakesHeapInv(s: State, s': State, t: int, h: nat, pc: PC)
    requires Inv(s) && TakesHeap(s, s', t, h, pc) && Knows(s.owner, pc)
    requires HeapsHeld(pc) == HeapsHeld(At(s, t)) + {h} && BlocksHeld(pc) == BlocksHeld(At(s, t))
    requires Hand(pc) == Hand(At(s, t))
    ensures Inv(s')
  {
    hide HeapsHeld, BlocksHeld, Hand, Knows;
    forall u, g {:trigger HeapLockOk(s', u, g)} ensures HeapLockOk(s', u, g) {
      assert HeapLockOk(s, u, g);
    }
    forall u, b {:trigger BlockLockOk(s', u, b)} ensures BlockLockOk(s', u, b) {
      assert BlockLockOk(s, u, b);
    }
    forall x {:trigger BlockOk(s', x)} ensures BlockOk(s', x) {
      assert BlockOk(s, x);
    }
    forall u {:trigger ThreadOk(s', u)} ensures ThreadOk(s', u) {
      assert ThreadOk(s, u);
      forall x {:trigger Carries(s', u, x)} | x in Hand(At(s', u)) ensures Carries(s', u, x) {
        assert Carries(s, u, x);
      }
    }
  }

  lemma DropsHeapInv(s: State, s': State, t: int, h: nat, pc: PC)
    requires Inv(s) && DropsHeap(s, s', t, h, pc) && Knows(s.owner, pc) && h in HeapsHeld(At(s, t))
    requires HeapsHeld(pc) == HeapsHeld(At(s, t)) - {h} && BlocksHeld(pc) == BlocksHeld(At(s, t))
    requires Hand(pc) == Hand(At(s, t))
    ensures Inv(s')
  {
    hide HeapsHeld, BlocksHeld, Hand, Knows;
    assert HeapLockOk(s, t, h);
    forall u, g {:trigger HeapLockOk(s', u, g)} ensures HeapLockOk(s', u, g) {
      assert HeapLockOk(s, u, g);
    }
    forall u, b {:trigger BlockLockOk(s', u, b)} ensures BlockLockOk(s', u, b) {
      assert BlockLockOk(s, u, b);
    }
    forall x {:trigger BlockOk(s', x)} ensures BlockOk(s', x) {
      assert BlockOk(s, x);
    }
    forall u {:trigger ThreadOk(s', u)} ensures ThreadOk(s', u) {
      assert ThreadOk(s, u);
      forall x {:trigger Carries(s', u, x)} | x in Hand(At(s', u)) ensures Carries(s', u, x) {
        assert Carries(s, u, x);
      }
    }
  }

  lemma BlockLockInv(s: State, s': State, t: int, b: nat, pc: PC)
    requires Inv(s) && b in s.owner && Knows(s.owner, pc) && HeapsHeld(pc) == HeapsHeld(At(s, t))
    requires Hand(pc) == Hand(At(s, t))
    requires (TakesBlock(s, s', t, b, pc) && BlocksHeld(pc) == BlocksHeld(At(s, t)) + {b})
             || (DropsBlock(s, s', t, b, pc) && b in BlocksHeld(At(s, t))
                     && BlocksHeld(pc) == BlocksHeld(At(s, t)) - {b})
    ensures Inv(s')
  {
    hide HeapsHeld, BlocksHeld, Hand, Knows;
    assert BlockLockOk(s, t, b);
    forall u, g {:trigger HeapLockOk(s', u, g)} ensures HeapLockOk(s', u, g) {
      assert HeapLockOk(s, u, g);
    }
    forall u, c {:trigger BlockLockOk(s', u, c)} ensures BlockLockOk(s', u, c) {
      assert BlockLockOk(s, u, c);
    }
    forall x {:trigger BlockOk(s', x)} ensures BlockOk(s', x) {
      assert BlockOk(s, x);
    }
    forall u {:trigger ThreadOk(s', u)} ensures ThreadOk(s', u) {
      assert ThreadOk(s, u);
      forall x {:trigger Carries(s', u, x)} | x in Hand(At(s', u)) ensures Carries(s', u, x) {
        assert Carries(s, u, x);
      }
    }
  }

  /** Only the number of free objects of a superblock changes. */
  lemma CountsInv(s: State, s': State, t: int, x: nat, n: nat, pc: PC)
    requires Inv(s) && s' == Goto(s, t, pc).(free := s.free[x := n]) && x in s.free && Knows(s.owner, pc)
    requires HeapsHeld(pc) == HeapsHeld(At(s, t)) && BlocksHeld(pc) == BlocksHeld(At(s, t))
    requires Hand(pc) == Hand(At(s, t))
    ensures Inv(s')
  {
    hide HeapsHeld, BlocksHeld, Hand, Knows;
    forall u, h {:trigger HeapLockOk(s', u, h)} ensures HeapLockOk(s', u, h) {
      assert HeapLockOk(s, u, h);
    }
    forall u, b {:trigger BlockLockOk(s', u, b)} ensures BlockLockOk(s', u, b) {
      assert BlockLockOk(s, u, b);
    }
    forall y {:trigger BlockOk(s', y)} ensures BlockOk(s', y) {
      assert BlockOk(s, y) && BlockOk(s, x);
    }
    forall u {:trigger ThreadOk(s', u)} ensures ThreadOk(s', u) {
      assert ThreadOk(s, u);
      forall y {:trigger Carries(s', u, y)} | y in Hand(At(s', u)) ensures Carries(s', u, y) {
        assert Carries(s, u, y);
      }
    }
  }

  /** What another thread knows survives a change of owner of `x`, when `t` holds the lock of the old owner. */
  lemma StillKnows(s: State, t: int, u: int, x: nat, h: nat)
    requires Inv(s) && u != t && x in s.owner && s.owner[x] in HeapsHeld(At(s, t)) && x !in Hand(At(s, u))
    ensures Knows(s.owner[x := h], At(s, u))
  {
    assert ThreadOk(s, u) && HeapLockOk(s, t, s.owner[x]) && HeapLockOk(s, u, s.owner[x]);
  }

  /** `t` picks up a superblock from the bins of `from` and gives it the owner `to`. */
  lemma PicksUpInv(s: State, s': State, t: int, x: nat, from: nat, to: nat, pc: PC)
    requires Inv(s) && x in s.place && s.place[x] == Listed(from) && from in HeapsHeld(At(s, t)) && Hand(At(s, t)) == {}
    requires Hand(pc) == {x}
    requires s' == Goto(s, t, pc).(owner := s.owner[x := to], place := s.place[x := Carried(t)])
    requires Knows(s.owner[x := to], pc)
    requires HeapsHeld(pc) == HeapsHeld(At(s, t)) && BlocksHeld(pc) == BlocksHeld(At(s, t))
    ensures Inv(s')
  {
    hide HeapsHeld, BlocksHeld, Hand, Knows;
    assert BlockOk(s, x);
    forall u, h {:trigger HeapLockOk(s', u, h)} ensures HeapLockOk(s', u, h) {
      assert HeapLockOk(s, u, h);
    }
    forall u, b {:trigger BlockLockOk(s', u, b)} ensures BlockLockOk(s', u, b) {
      assert BlockLockOk(s, u, b);
    }
    forall y {:trigger BlockOk(s', y)} ensures BlockOk(s', y) {
      assert BlockOk(s, y);
    }
    forall u {:trigger ThreadOk(s', u)} ensures ThreadOk(s', u) {
      assert ThreadOk(s, u);
      assert x in Hand(At(s, u)) ==> Carries(s, u, x);
      if u != t {
        StillKnows(s, t, u, x, to);
      }
      forall y {:trigger Carries(s', u, y)} | y in Hand(At(s', u)) ensures Carries(s', u, y) {
        assert u != t ==> Carries(s, u, y);
      }
    }
  }

  /** `t` puts the superblock it carries into the bins of `to`. */
  lemma PutsInv(s: State, s': State, t: int, x: nat, to: nat, pc: PC)
    requires Inv(s) && Puts(s, s', t, to, x, pc) && Hand(At(s, t)) == {x} && Hand(pc) == {}
    requires Knows(s.owner[x := to], pc)
    requires x in s.owner && s.owner[x] in HeapsHeld(At(s, t))
    requires HeapsHeld(pc) == HeapsHeld(At(s, t)) && BlocksHeld(pc) == BlocksHeld(At(s, t))
    ensures Inv(s')
  {
    hide HeapsHeld, BlocksHeld, Hand, Knows;
    assert BlockOk(s, x) && ThreadOk(s, t) && Carries(s, t, x);
    forall u, h {:trigger HeapLockOk(s', u, h)} ensures HeapLockOk(s', u, h) {
      assert HeapLockOk(s, u, h);
    }
    forall u, b {:trigger BlockLockOk(s', u, b)} ensures BlockLockOk(s', u, b) {
      assert BlockLockOk(s, u, b);
    }
    forall y {:trigger BlockOk(s', y)} ensures BlockOk(s', y) {
      assert BlockOk(s, y);
    }
    forall u {:trigger ThreadOk(s', u)} ensures ThreadOk(s', u) {
      assert ThreadOk(s, u);
      assert x in Hand(At(s, u)) ==> Carries(s, u, x);
      if u != t {
        StillKnows(s, t, u, x, to);
      }
      forall y {:trigger Carries(s', u, y)} | y in Hand(At(s', u)) ensures Carries(s', u, y) {
        assert Carries(s, u, y);
      }
    }
  }

  /** A new superblock is in the hands of its maker. */
  lemma CreatesInv(s: State, s': State, t: int, h: nat, x: nat, n: nat)
    requires Inv(s) && Creates(s, s', t, h, x, n) && At(s, t) == Asking(h)
    ensures Inv(s')
  {
    assert BlockOk(s, x) && ThreadOk(s, t);
    forall u, g {:trigger HeapLockOk(s', u, g)} ensures HeapLockOk(s', u, g) {
      assert HeapLockOk(s, u, g);
    }
    forall u, b {:trigger BlockLockOk(s', u, b)} ensures BlockLockOk(s', u, b) {
      assert BlockLockOk(s, u, b);
    }
    forall y {:trigger BlockOk(s', y)} ensures BlockOk(s', y) {
      assert BlockOk(s, y);
    }
    forall u {:trigger ThreadOk(s', u)} ensures ThreadOk(s', u) {
      assert ThreadOk(s, u);
      forall y {:trigger Carries(s', u, y)} | y in Hand(At(s', u)) ensures Carries(s', u, y) {
        assert u != t ==> Carries(s, u, y);
      }
    }
  }

  /** `malloc` in its own heap. */
  lemma AllocateStepInv(s: State, s': State, t: int)
    requires Inv(s) && Step(s, s', t)
    requires var pc := At(s, t); pc.WantHeap? || pc.Allocating? || pc.Asking? || pc.Placing? || pc.Leaving?
    ensures Inv(s')
  {
    hide Inv;
    assert Knows(s.owner, At(s, t)) by {
      KnowsOwn(s, t);
    }
    match At(s, t)
    case WantHeap(h) => TakesHeapInv(s, s', t, h, Allocating(h));
    case Allocating(h) =>
      if x :| Allocates(s, s', t, h, x) {
        CountsInv(s, s', t, x, s.free[x] - 1, Leaving(h));
      } else {
        MovesInv(s, s', t, WantGlobal(h));
      }
    case Asking(h) =>
      if x, n :| Creates(s, s', t, h, x, n) {
        CreatesInv(s, s', t, h, x, n);
      } else {
        MovesInv(s, s', t, Leaving(h));
      }
    case Placing(h, x) => PutsInv(s, s', t, x, h, Allocating(h));
    case Leaving(h) => DropsHeapInv(s, s', t, h, Idle);
  }

  lemma KnowsOwn(s: State, t: int)
    requires Inv(s)
    ensures Knows(s.owner, At(s, t)) && BlocksHeld(At(s, t)) <= s.owner.Keys
  {
    assert ThreadOk(s, t);
  }

  /** `malloc` at the global heap. */
  lemma FetchStepInv(s: State, s': State, t: int)
    requires Inv(s) && Step(s, s', t)
    requires var pc := At(s, t); pc.WantGlobal? || pc.Fetching? || pc.Fetched? || pc.Missed?
    ensures Inv(s')
  {
    hide Inv;
    KnowsOwn(s, t);
    match At(s, t)
    case WantGlobal(h) => TakesHeapInv(s, s', t, GLOBAL, Fetching(h));
    case Fetching(h) =>
      if x :| TakesOver(s, s', t, h, x) {
        PicksUpInv(s, s', t, x, GLOBAL, h, Fetched(h, x));
      } else {
        MovesInv(s, s', t, Missed(h));
      }
    case Fetched(h, x) => DropsHeapInv(s, s', t, GLOBAL, Placing(h, x));
    case Missed(h) => DropsHeapInv(s, s', t, GLOBAL, Asking(h));
  }

  /** `free` up to the return of the object. */
  lemma RouteStepInv(s: State, s': State, t: int)
    requires Inv(s) && Step(s, s', t)
    requires var pc := At(s, t);
             pc.WantBlock? || pc.Reading? || pc.WantOwner? || pc.Checking? || pc.Retrying? || pc.Freeing?
    ensures Inv(s')
  {
    hide Inv;
    KnowsOwn(s, t);
    match At(s, t)
    case WantBlock(b) => BlockLockInv(s, s', t, b, Reading(b));
    case Reading(b) => MovesInv(s, s', t, WantOwner(b, s.owner[b]));
    case WantOwner(b, o) => TakesHeapInv(s, s', t, o, Checking(b, o));
    case Checking(b, o) => MovesInv(s, s', t, if s.owner[b] == o then Freeing(b, o) else Retrying(b, o));
    case Retrying(b, o) => DropsHeapInv(s, s', t, o, Reading(b));
    case Freeing(b, o) => CountsInv(s, s', t, b, s.free[b] + 1, Freed(b, o));
  }

  /** `free` from the return of the object. */
  lemma FinishStepInv(s: State, s': State, t: int)
    requires Inv(s) && Step(s, s', t)
    requires var pc := At(s, t); pc.Freed? || pc.Giving? || pc.Handing? || pc.Handed? || pc.Finishing? || pc.Releasing?
    ensures Inv(s')
  {
    hide Inv;
    KnowsOwn(s, t);
    match At(s, t)
    case Freed(b, o) =>
      if x :| TakesOut(s, s', t, b, o, x) {
        TakesOutInv(s, s', t, b, o, x);
      } else {
        MovesInv(s, s', t, Finishing(b, o));
      }
    case Giving(b, o, x) => TakesHeapInv(s, s', t, GLOBAL, Handing(b, o, x));
    case Handing(b, o, x) => PutsInv(s, s', t, x, GLOBAL, Handed(b, o));
    case Handed(b, o) => DropsHeapInv(s, s', t, GLOBAL, Finishing(b, o));
    case Finishing(b, o) => DropsHeapInv(s, s', t, o, Releasing(b));
    case Releasing(b) => BlockLockInv(s, s', t, b, Idle);
  }

  lemma TakesOutInv(s: State, s': State, t: int, b: nat, o: nat, x: nat)
    requires Inv(s) && TakesOut(s, s', t, b, o, x) && At(s, t) == Freed(b, o)
    ensures Inv(s')
  {
    assert BlockOk(s, x) && ThreadOk(s, t);
    assert s.owner[x := o] == s.owner;
    PicksUpInv(s, s', t, x, o, o, Giving(b, o, x));
  }

  /** The invariant holds after every step of every thread. */
  lemma StepInv(s: State, s': State, t: int)
    requires Inv(s) && Step(s, s', t)
    ensures Inv(s')
  {
    hide Inv;
    var pc := At(s, t);
    if pc.Idle? {
      MovesInv(s, s', t, At(s', t));
    } else if pc.WantHeap? || pc.Allocating? || pc.Asking? || pc.Placing? || pc.Leaving? {
      AllocateStepInv(s, s', t);
    } else if pc.WantGlobal? || pc.Fetching? || pc.Fetched? || pc.Missed? {
      FetchStepInv(s, s', t);
    } else if pc.WantBlock? || pc.Reading? || pc.WantOwner? || pc.Checking? || pc.Retrying? || pc.Freeing? {
      RouteStepInv(s, s', t);
    } else {
      FinishStepInv(s, s', t);
    }
  }

  // ---- runs

  /** A run: thread `who[i]` takes step `i`. */
  ghost predicate IsRun(run: seq<State>, who: seq<int>) {
    && |run| == |who| + 1 && Init(run[0])
    && forall i {:trigger who[i]} :: 0 <= i < |who| ==> Step(run[i], run[i + 1], who[i])
  }

  lemma {:induction false} RunInv(run: seq<State>, who: seq<int>, i: nat)
    requires IsRun(run, who) && i < |run|
    ensures Inv(run[i])
  {
    if i == 0 {
      InitInv(run[0]);
    } else {
      RunInv(run, who, i - 1);
      assert who[i - 1] == who[i - 1];
      StepInv(run[i - 1], run[i], who[i - 1]);
    }
  }

  // ---- safety

  /** The owner, the place or the free objects of a superblock differ. */
  ghost predicate Touched(s: State, s': State, x: nat) {
    && x in s.owner && x in s.place && x in s.free
    && !(x in s'.owner && x in s'.place && x in s'.free && s'.owner[x] == s.owner[x] && s'.place[x] == s.place[x]
            && s'.free[x] == s.free[x])
  }

  predicate HoldsHeap(s: State, t: int, h: nat) { h in s.heapLock && s.heapLock[h] == t }

  /** Where a step may change a superblock. */
  predicate Touches(pc: PC) {
    pc.Allocating? || pc.Fetching? || pc.Asking? || pc.Placing? || pc.Freeing? || pc.Freed? || pc.Handing?
  }

  /** What a step of `t` leaves alone: the counter of `u`, and the superblocks if it only takes or drops a lock or
      looks at an owner. */
  ghost predicate Framed(s: State, s': State, t: int, u: int) {
    && (u != t ==> At(s', u) == At(s, u))
    && (!Touches(At(s, t)) ==> s'.owner == s.owner && s'.place == s.place && s'.free == s.free)
  }

  lemma IdleFrame(s: State, s': State, t: int, u: int)
    requires Step(s, s', t) && At(s, t).Idle?
    ensures Framed(s, s', t, u)
  {
  }

  lemma AllocateFrame(s: State, s': State, t: int, u: int)
    requires Step(s, s', t)
    requires var pc := At(s, t);
             pc.WantHeap? || pc.Allocating? || pc.Asking? || pc.Placing? || pc.Leaving?
    ensures Framed(s, s', t, u)
  {
  }

  lemma FetchFrame(s: State, s': State, t: int, u: int)
    requires Step(s, s', t)
    requires var pc := At(s, t);
             pc.WantGlobal? || pc.Fetching? || pc.Fetched? || pc.Missed?
    ensures Framed(s, s', t, u)
  {
  }

  lemma RouteFrame(s: State, s': State, t: int, u: int)
    requires Step(s, s', t)
    requires var pc := At(s, t);
             pc.WantBlock? || pc.Reading? || pc.WantOwner? || pc.Checking? || pc.Retrying? || pc.Freeing?
    ensures Framed(s, s', t, u)
  {
  }

  lemma FinishFrame(s: State, s': State, t: int, u: int)
    requires Step(s, s', t)
    requires var pc := At(s, t);
             pc.Freed? || pc.Giving? || pc.Handing? || pc.Handed? || pc.Finishing? || pc.Releasing?
    ensures Framed(s, s', t, u)
  {
  }

  lemma StepFrame(s: State, s': State, t: int, u: int)
    requires Step(s, s', t)
    ensures Framed(s, s', t, u)
  {
    hide Step, Framed;
    var pc := At(s, t);
    if pc.Idle? {
      IdleFrame(s, s', t, u);
    } else if pc.WantHeap? || pc.Allocating? || pc.Asking? || pc.Placing? || pc.Leaving? {
      AllocateFrame(s, s', t, u);
    } else if pc.WantGlobal? || pc.Fetching? || pc.Fetched? || pc.Missed? {
      FetchFrame(s, s', t, u);
    } else if pc.WantBlock? || pc.Reading? || pc.WantOwner? || pc.Checking? || pc.Retrying? || pc.Freeing? {
      RouteFrame(s, s', t, u);
    } else {
      FinishFrame(s, s', t, u);
    }
  }

  lemma TouchesNothing(s: State, s': State, t: int, x: nat)
    requires Step(s, s', t) && !Touches(At(s, t))
    ensures !Touched(s, s', x) && s'.owner == s.owner
  {
    hide Step;
    StepFrame(s, s', t, t);
  }

  lemma MallocTouches(s: State, s': State, t: int, x: nat)
    requires Inv(s) && Step(s, s', t) && Touched(s, s', x)
    requires At(s, t).Allocating? || At(s, t).Fetching? || At(s, t).Asking? || At(s, t).Placing?
    ensures HoldsHeap(s, t, s.owner[x])
    ensures x in s'.owner && (s'.owner[x] != s.owner[x] ==> HoldsHeap(s, t, s'.owner[x]))
  {
    var h := At(s, t).h;
    assert BlockOk(s, x) && ThreadOk(s, t) && HeapLockOk(s, t, h) && HeapLockOk(s, t, GLOBAL);
  }

  lemma FreeTouches(s: State, s': State, t: int, x: nat)
    requires Inv(s) && Step(s, s', t) && Touched(s, s', x)
    requires At(s, t).Freeing? || At(s, t).Freed? || At(s, t).Handing?
    ensures HoldsHeap(s, t, s.owner[x])
    ensures x in s'.owner && (s'.owner[x] != s.owner[x] ==> HoldsHeap(s, t, s'.owner[x]))
  {
    var o := At(s, t).o;
    assert BlockOk(s, x) && ThreadOk(s, t) && HeapLockOk(s, t, o) && HeapLockOk(s, t, GLOBAL);
  }

  /** A superblock is touched only by a thread that holds the lock of its current owner; when its owner
      changes, that thread holds the locks of the old and the new owner. */
  lemma TouchesUnderLock(s: State, s': State, t: int, x: nat)
    requires Inv(s) && Step(s, s', t) && Touched(s, s', x)
    ensures HoldsHeap(s, t, s.owner[x])
    ensures x in s'.owner && (s'.owner[x] != s.owner[x] ==> HoldsHeap(s, t, s'.owner[x]))
  {
    hide Inv, Step, Touched, HoldsHeap;
    var pc := At(s, t);
    if !Touches(pc) {
      TouchesNothing(s, s', t, x);
    } else if pc.Allocating? || pc.Fetching? || pc.Asking? || pc.Placing? {
      MallocTouches(s, s', t, x);
    } else {
      FreeTouches(s, s', t, x);
    }
  }

  /** In every run, superblocks change only under their owner's lock, and change owners only under both. */
  lemma SafeRuns(run: seq<State>, who: seq<int>, i: nat, x: nat)
    requires IsRun(run, who) && i < |who| && Touched(run[i], run[i + 1], x)
    ensures var s, t := run[i], who[i];
            HoldsHeap(s, t, s.owner[x]) && x in run[i + 1].owner
            && (run[i + 1].owner[x] != s.owner[x] ==> HoldsHeap(s, t, run[i + 1].owner[x]))
  {
    RunInv(run, who, i);
    TouchesUnderLock(run[i], run[i + 1], who[i], x);
  }

  /** As long as a thread holds the lock of the owner, no other thread touches the superblock. */
  lemma HeldIsSafe(run: seq<State>, who: seq<int>, i: nat, t: int, x: nat)
    requires IsRun(run, who) && i < |who| && x in run[i].owner && HoldsHeap(run[i], t, run[i].owner[x]) && who[i] != t
    ensures !Touched(run[i], run[i + 1], x)
  {
    if Touched(run[i], run[i + 1], x) {
      SafeRuns(run, who, i, x);
    }
  }

  /** Once the second look at the owner has agreed with the first, the object is returned under the lock of
      the true owner, and no other thread can touch the superblock before. */
  lemma FreesUnderOwner(run: seq<State>, who: seq<int>, i: nat, t: int, b: nat, o: nat)
    requires IsRun(run, who) && i < |run| && At(run[i], t) == Freeing(b, o)
    ensures b in run[i].owner && run[i].owner[b] == o && HoldsHeap(run[i], t, o)
    ensures i < |who| && who[i] != t ==> !Touched(run[i], run[i + 1], b)
  {
    RunInv(run, who, i);
    var s := run[i];
    assert ThreadOk(s, t) && HeapLockOk(s, t, o);
    if i < |who| && who[i] != t {
      HeldIsSafe(run, who, i, t, b);
    }
  }

  /** No step forgets a superblock. */
  lemma OwnersStay(s: State, s': State, t: int, x: nat)
    requires Step(s, s', t) && x in s.owner
    ensures x in s'.owner
  {
    if !Touches(At(s, t)) {
      TouchesNothing(s, s', t, x);
    }
  }

  /** No superblock is ever lost or in two places: it is in the bins of its owner, or one thread carries it
      and holds its owner's lock. */
  lemma BlocksConserved(run: seq<State>, who: seq<int>, i: nat, x: nat)
    requires IsRun(run, who) && i < |run|
    ensures x in run[i].owner <==> x in run[i].place
    ensures x in run[i].place && run[i].place[x].Listed? ==> run[i].owner[x] == run[i].place[x].heap
    ensures x in run[i].place && run[i].place[x].Carried? ==>
              var t := run[i].place[x].thread; x in Hand(At(run[i], t)) && HoldsHeap(run[i], t, run[i].owner[x])
    ensures i < |who| && x in run[i].owner ==> x in run[i + 1].owner
  {
    hide Step;
    RunInv(run, who, i);
    var s := run[i];
    assert BlockOk(s, x);
    if x in s.place && s.place[x].Carried? {
      var t := s.place[x].thread;
      assert ThreadOk(s, t) && HeapLockOk(s, t, s.owner[x]);
    }
    if i < |who| && x in s.owner {
      assert who[i] == who[i];
      OwnersStay(s, run[i + 1], who[i], x);
    }
  }

  // ---- progress

  /** The thread waits for a lock that is held. */
  predicate Blocked(s: State, t: int) {
    match At(s, t)
    case WantHeap(h) => h in s.heapLock
    case WantGlobal(h) => GLOBAL in s.heapLock
    case WantBlock(b) => b in s.blockLock
    case WantOwner(b, o) => o in s.heapLock
    case Giving(b, o, x) => GLOBAL in s.heapLock
    case _ => false
  }

  /** A thread that does not wait for a lock can step. */
  lemma Unblocked(s: State, t: int) returns (s': State)
    requires Inv(s) && !At(s, t).Idle? && !Blocked(s, t)
    ensures Step(s, s', t)
  {
    KnowsOwn(s, t);
    match At(s, t)
    case WantHeap(h) => s' := Goto(s, t, Allocating(h)).(heapLock := s.heapLock[h := t]);
    case Allocating(h) => s' := Goto(s, t, WantGlobal(h));
    case WantGlobal(h) => s' := Goto(s, t, Fetching(h)).(heapLock := s.heapLock[GLOBAL := t]);
    case Fetching(h) => s' := Goto(s, t, Missed(h));
    case Fetched(h, x) => s' := Goto(s, t, Placing(h, x)).(heapLock := s.heapLock - {GLOBAL});
    case Missed(h) => s' := Goto(s, t, Asking(h)).(heapLock := s.heapLock - {GLOBAL});
    case Asking(h) => s' := Goto(s, t, Leaving(h));
    case Placing(h, x) => s' := Goto(s, t, Allocating(h)).(owner := s.owner[x := h], place := s.place[x := Listed(h)]);
    case Leaving(h) => s' := Goto(s, t, Idle).(heapLock := s.heapLock - {h});
    case WantBlock(b) => s' := Goto(s, t, Reading(b)).(blockLock := s.blockLock[b := t]);
    case Reading(b) => s' := Goto(s, t, WantOwner(b, s.owner[b]));
    case WantOwner(b, o) => s' := Goto(s, t, Checking(b, o)).(heapLock := s.heapLock[o := t]);
    case Checking(b, o) => s' := Goto(s, t, if s.owner[b] == o then Freeing(b, o) else Retrying(b, o));
    case Retrying(b, o) => s' := Goto(s, t, Reading(b)).(heapLock := s.heapLock - {o});
    case Freeing(b, o) =>
      assert BlockOk(s, b);
      s' := Goto(s, t, Freed(b, o)).(free := s.free[b := s.free[b] + 1]);
    case Freed(b, o) => s' := Goto(s, t, Finishing(b, o));
    case Giving(b, o, x) => s' := Goto(s, t, Handing(b, o, x)).(heapLock := s.heapLock[GLOBAL := t]);
    case Handing(b, o, x) => s' := Goto(s, t, Handed(b, o)).(owner := s.owner[x := GLOBAL],
        place := s.place[x := Listed(GLOBAL)]);
    case Handed(b, o) => s' := Goto(s, t, Finishing(b, o)).(heapLock := s.heapLock - {GLOBAL});
    case Finishing(b, o) => s' := Goto(s, t, Releasing(b)).(heapLock := s.heapLock - {o});
    case Releasing(b) => s' := Goto(s, t, Idle).(blockLock := s.blockLock - {b});
  }

  /** The holder of the global lock does not wait. */
  lemma GlobalHolder(s: State) returns (u: int)
    requires Inv(s) && GLOBAL in s.heapLock
    ensures !At(s, u).Idle? && !Blocked(s, u)
  {
    u := s.heapLock[GLOBAL];
    assert HeapLockOk(s, u, GLOBAL);
    KnowsOwn(s, u);
  }

  /** The holder of a heap's lock waits for the global lock at most. */
  lemma HeapHolder(s: State, h: nat) returns (u: int)
    requires Inv(s) && h in s.heapLock
    ensures !At(s, u).Idle? && !Blocked(s, u)
  {
    u := s.heapLock[h];
    assert HeapLockOk(s, u, h);
    if Blocked(s, u) {
      u := GlobalHolder(s);
    }
  }

  /** The holder of a superblock's lock waits for the lock of a heap at most. */
  lemma BlockHolder(s: State, b: nat) returns (u: int)
    requires Inv(s) && b in s.blockLock
    ensures !At(s, u).Idle? && !Blocked(s, u)
  {
    u := s.blockLock[b];
    assert BlockLockOk(s, u, b);
    if Blocked(s, u) {
      match At(s, u)
      case WantOwner(c, o) => u := HeapHolder(s, o);
      case Giving(c, o, x) => u := GlobalHolder(s);
    }
  }

  /** No deadlock: as long as some thread has not finished its call, some thread can step. */
  lemma NeverDeadlocked(run: seq<State>, who: seq<int>, i: nat, t: int) returns (u: int, s': State)
    requires IsRun(run, who) && i < |run| && !At(run[i], t).Idle?
    ensures !At(run[i], u).Idle? && !Blocked(run[i], u) && Step(run[i], s', u)
  {
    RunInv(run, who, i);
    var s := run[i];
    u := t;
    if Blocked(s, t) {
      match At(s, t)
      case WantHeap(h) => u := HeapHolder(s, h);
      case WantGlobal(h) => u := GlobalHolder(s);
      case WantBlock(b) => u := BlockHolder(s, b);
      case WantOwner(b, o) => u := HeapHolder(s, o);
      case Giving(b, o, x) => u := GlobalHolder(s);
    }
    s' := Unblocked(s, u);
  }
}
