/** Hoard's protocol with the choices that the code makes.

    `HoardProtocol.Step` leaves open which superblock serves a request, which one a heap gives up, and when; what holds
    in all its runs holds in particular for the code.  Here these choices are the code's, for the superblocks of one
    size class, so that one can also say what the code is able to do. */
module HoardExact {
  import opened HoardProtocol
  import B = HoardBins
  import L = EmptinessLists
  import M = HoardManager

  // ---- the state

  /** How many objects a superblock holds, and their size.  An object is at most half of a superblock without its
      header. */
  datatype Setup = Setup(total: nat, size: nat)

  type SizeClass = g: Setup | 2 <= g.total && 0 < g.size && g.total * g.size <= M.SUPERBLOCK_SIZE witness Setup(2, 1)

  datatype Exact = Exact(
    s: State,
    cached: map<nat, nat>,                // the cached superblock of each heap that has one
    live: map<nat, nat>,                  // how many objects of each superblock the program holds
    since: map<nat, nat>,                 // when each superblock entered the list it is in
    now: nat)

  /** The superblock is in the bin of the heap, cached or listed. */
  predicate Has(s: State, h: nat, x: nat) { x in s.place && s.place[x] == Listed(h) }

  function Free(s: State, x: nat): nat { if x in s.free then s.free[x] else 0 }

  function Live(c: Exact, x: nat): nat { if x in c.live then c.live[x] else 0 }

  function Since(c: Exact, x: nat): nat { if x in c.since then c.since[x] else 0 }

  predicate IsCached(c: Exact, h: nat, x: nat) { h in c.cached && c.cached[h] == x }

  /** The objects that are not free. */
  function Used(g: SizeClass, s: State, x: nat): int { g.total - Free(s, x) }

  /** The bin of a heap: its superblocks and their free objects. */
  function Bin(s: State, h: nat): map<nat, nat> { map x | x in s.place && s.place[x] == Listed(h) :: Free(s, x) }

  /** The statistics of a bin: objects held, and objects in use. */
  ghost function Held(g: SizeClass, m: map<nat, nat>): int { B.Objects(g.total, m) }

  ghost function InUse(g: SizeClass, m: map<nat, nat>): int { B.Objects(g.total, m) - B.FreeObjects(m) }

  // ---- the choices

  /** The emptiness class. */
  function Class(g: SizeClass, s: State, x: nat): nat {
    if Free(s, x) <= g.total then L.Fullness(g.total, Free(s, x)) else 0
  }

  /** `x` is in the list of an emptier class than `y`, or in front of it in the same list. */
  predicate Ahead(g: SizeClass, c: Exact, x: nat, y: nat) {
    Class(g, c.s, x) < Class(g, c.s, y) || (Class(g, c.s, x) == Class(g, c.s, y) && Since(c, x) >= Since(c, y))
  }

  /** In the bin, not cached, not full. */
  predicate Offers(c: Exact, h: nat, x: nat) { Has(c.s, h, x) && !IsCached(c, h, x) && Free(c.s, x) > 0 }

  /** `EmptyClass::get`. */
  ghost predicate Emptiest(g: SizeClass, c: Exact, h: nat, x: nat) {
    Offers(c, h, x) && forall y {:trigger Offers(c, h, y)} :: Offers(c, h, y) ==> Ahead(g, c, x, y)
  }

  /** `ManageOneSuperblock::get`: the cached superblock, or else the emptiest. */
  ghost predicate Picks(g: SizeClass, c: Exact, h: nat, x: nat) {
    if h in c.cached then x == c.cached[h] else Emptiest(g, c, h, x)
  }

  /** `ManageOneSuperblock::malloc`: the cached superblock if it has an object, or else the emptiest. */
  ghost predicate Serves(g: SizeClass, c: Exact, h: nat, x: nat) {
    if h in c.cached && Free(c.s, c.cached[h]) > 0 then x == c.cached[h] else Emptiest(g, c, h, x)
  }

  /** All superblocks of the heap are full. */
  ghost predicate Exhausted(s: State, h: nat) {
    forall x {:trigger Has(s, h, x)} :: Has(s, h, x) ==> Free(s, x) == 0
  }

  /** The threshold is crossed; that of the global heap never is. */
  ghost predicate Crossed(g: SizeClass, s: State, h: nat) {
    h != GLOBAL && M.Threshold(InUse(g, Bin(s, h)), Held(g, Bin(s, h)), g.size)
  }

  // ---- steps

  /** A superblock goes to the front of a list. */
  function Enters(c: Exact, x: nat): Exact { c.(since := c.since[x := c.now], now := c.now + 1) }

  /** The cached superblock, if there is one, goes to its list. */
  function Uncache(c: Exact, h: nat): Exact {
    (if h in c.cached then Enters(c, c.cached[h]) else c).(cached := c.cached - {h})
  }

  /** `ManageOneSuperblock::put`: `x` becomes the cached superblock in place of another. */
  function Cache(c: Exact, h: nat, x: nat): Exact {
    (if h in c.cached && c.cached[h] != x then Enters(c, c.cached[h]) else c).(cached := c.cached[h := x])
  }

  ghost predicate Starts(c: Exact, c': Exact, t: int) {
    match At(c'.s, t)
    case WantBlock(b) => Live(c, b) > 0 && c' == c.(s := c'.s, live := c.live[b := Live(c, b) - 1])
    case _ => c' == c.(s := c'.s)
  }

  ghost predicate Served(g: SizeClass, c: Exact, c': Exact, t: int, h: nat, x: nat) {
    && Serves(g, c, h, x) && Allocates(c.s, c'.s, t, h, x)
    && c' == Cache(c, h, x).(s := c'.s, live := c.live[x := Live(c, x) + 1])
  }

  ghost predicate Mallocs(g: SizeClass, c: Exact, c': Exact, t: int, h: nat) {
    if At(c'.s, t).Leaving? then exists x {:trigger Serves(g, c, h, x)} :: Served(g, c, c', t, h, x)
    else Exhausted(c.s, h) && c' == Uncache(c, h).(s := c'.s)
  }

  ghost predicate Fetches(g: SizeClass, c: Exact, c': Exact, t: int) {
    match At(c'.s, t)
    case Fetched(h, x) => Picks(g, c, GLOBAL, x) && c' == c.(s := c'.s, cached := c.cached - {GLOBAL})
    case _ => GLOBAL !in c.cached && Exhausted(c.s, GLOBAL) && c' == c.(s := c'.s)
  }

  ghost predicate Obtains(g: SizeClass, c: Exact, c': Exact, t: int) {
    match At(c'.s, t)
    case Placing(h, x) => Creates(c.s, c'.s, t, h, x, g.total) && c' == c.(s := c'.s, live := c.live[x := 0])
    case _ => c' == c.(s := c'.s)
  }

  ghost predicate Frees(g: SizeClass, c: Exact, c': Exact, b: nat, o: nat) {
    c' == (if !IsCached(c, o, b) && Class(g, c'.s, b) != Class(g, c.s, b) then Enters(c, b) else c).(s := c'.s)
  }

  ghost predicate Gives(g: SizeClass, c: Exact, c': Exact, t: int, o: nat) {
    match At(c'.s, t)
    case Giving(_, _, x) => Crossed(g, c.s, o) && Picks(g, c, o, x) && c' == c.(s := c'.s, cached := c.cached - {o})
    case _ => !Crossed(g, c.s, o) && c' == c.(s := c'.s)
  }

  /** One step of thread `t` in the code. */
  ghost predicate ExactStep(g: SizeClass, c: Exact, c': Exact, t: int) {
    Step(c.s, c'.s, t) &&
    match At(c.s, t)
    case Idle => Starts(c, c', t)
    case Allocating(h) => Mallocs(g, c, c', t, h)
    case Fetching(h) => Fetches(g, c, c', t)
    case Asking(h) => Obtains(g, c, c', t)
    case Placing(h, x) => c' == Cache(c, h, x).(s := c'.s)
    case Freeing(b, o) => Frees(g, c, c', b, o)
    case Freed(b, o) => Gives(g, c, c', t, o)
    case Handing(b, o, x) => c' == Cache(c, GLOBAL, x).(s := c'.s)
    case _ => c' == c.(s := c'.s)
  }

  /** The start of a call. */
  lemma IdleCases(g: SizeClass, c: Exact, c': Exact, t: int)
    requires ExactStep(g, c, c', t) && At(c.s, t) == Idle
    ensures At(c'.s, t).WantHeap? || At(c'.s, t).WantBlock?
    ensures Starts(c, c', t) && c'.s == Goto(c.s, t, At(c'.s, t))
  {
  }

  /** What `malloc` does in the bins of its heap. */
  lemma MallocCases(g: SizeClass, c: Exact, c': Exact, t: int, h: nat)
    requires ExactStep(g, c, c', t) && At(c.s, t) == Allocating(h)
    ensures (exists x {:trigger Serves(g, c, h, x)} :: Served(g, c, c', t, h, x))
            || (Exhausted(c.s, h) && c' == Uncache(c, h).(s := Goto(c.s, t, WantGlobal(h))))
  {
    hide Serves, Exhausted;
    assert Mallocs(g, c, c', t, h);
    if At(c'.s, t).Leaving? {
      var x :| Served(g, c, c', t, h, x);
      assert Serves(g, c, h, x);
    } else {
      assert c'.s == Goto(c.s, t, WantGlobal(h));
    }
  }

  lemma FetchCases(g: SizeClass, c: Exact, c': Exact, t: int, h: nat)
    requires ExactStep(g, c, c', t) && At(c.s, t) == Fetching(h)
    ensures (exists x {:trigger Picks(g, c, GLOBAL, x)} :: Picks(g, c, GLOBAL, x) && TakesOver(c.s, c'.s, t, h, x)
                && c' == c.(s := c'.s, cached := c.cached - {GLOBAL}))
            || (GLOBAL !in c.cached && Exhausted(c.s, GLOBAL) && c' == c.(s := Goto(c.s, t, Missed(h))))
  {
  }

  lemma GiveCases(g: SizeClass, c: Exact, c': Exact, t: int, b: nat, o: nat)
    requires ExactStep(g, c, c', t) && At(c.s, t) == Freed(b, o)
    ensures (exists x {:trigger Picks(g, c, o, x)} :: Picks(g, c, o, x) && TakesOut(c.s, c'.s, t, b, o, x)
                && Crossed(g, c.s, o) && c' == c.(s := c'.s, cached := c.cached - {o}))
            || (!Crossed(g, c.s, o) && c' == c.(s := Goto(c.s, t, Finishing(b, o))))
  {
  }

  lemma ObtainCases(g: SizeClass, c: Exact, c': Exact, t: int, h: nat)
    requires ExactStep(g, c, c', t) && At(c.s, t) == Asking(h)
    ensures c' == c.(s := Goto(c.s, t, Leaving(h)))
            || (At(c'.s, t).Placing? && Creates(c.s, c'.s, t, h, At(c'.s, t).x, g.total)
                    && c' == c.(s := c'.s, live := c.live[At(c'.s, t).x := 0]))
  {
    if x, n :| Creates(c.s, c'.s, t, h, x, n) {
      assert At(c'.s, t) == Placing(h, x);
    }
  }

  lemma FreeCases(g: SizeClass, c: Exact, c': Exact, t: int, b: nat, o: nat)
    requires ExactStep(g, c, c', t) && At(c.s, t) == Freeing(b, o)
    ensures Returns(c.s, c'.s, t, b, o) && Frees(g, c, c', b, o)
  {
  }

  // ---- the invariant

  /** A thread is about to return an object of `x`. */
  predicate Pends(pc: PC, x: nat) {
    match pc
    case WantBlock(b) => b == x
    case Reading(b) => b == x
    case WantOwner(b, o) => b == x
    case Checking(b, o) => b == x
    case Retrying(b, o) => b == x
    case Freeing(b, o) => b == x
    case _ => false
  }

  function Pending(s: State, x: nat): set<int> { set u | u in s.pcs && Pends(s.pcs[u], x) }

  ghost predicate CachedOk(c: Exact, h: nat) { h in c.cached ==> Has(c.s, h, c.cached[h]) }

  /** Every object is free, or held by the program, or about to be returned by a thread. */
  ghost predicate CountOk(g: SizeClass, c: Exact, x: nat) {
    x in c.s.owner ==> Free(c.s, x) + Live(c, x) + |Pending(c.s, x)| == g.total
  }

  ghost predicate ExactInv(g: SizeClass, c: Exact) {
    && Inv(c.s)
    && (forall h {:trigger CachedOk(c, h)} :: CachedOk(c, h))
    && (forall x {:trigger CountOk(g, c, x)} :: CountOk(g, c, x))
  }

  /** Who pends after a step of `t`. */
  lemma PendingMoves(s: State, s': State, t: int, x: nat)
    requires Step(s, s', t)
    ensures t in Pending(s, x) <==> Pends(At(s, t), x)
    ensures Pending(s', x) == if Pends(At(s', t), x) then Pending(s, x) + {t} else Pending(s, x) - {t}
  {
    hide Step;
    forall u ensures u != t ==> (u in Pending(s', x) <==> u in Pending(s, x)) {
      StepFrame(s, s', t, u);
    }
    assert t in Pending(s', x) <==> Pends(At(s', t), x);
  }

  lemma NonePends(s: State, x: nat)
    requires Inv(s) && x !in s.owner
    ensures Pending(s, x) == {}
  {
    forall u ensures u !in Pending(s, x) {
      assert ThreadOk(s, u);
    }
  }

  /** Away from where objects are taken, returned or made, a step changes no count. */
  lemma FreeSame(s: State, s': State, t: int)
    requires Inv(s) && Step(s, s', t) && !At(s, t).Allocating? && !At(s, t).Asking? && !At(s, t).Freeing?
    ensures s'.free == s.free && s'.owner.Keys == s.owner.Keys
  {
    hide Inv, Step;
    var pc := At(s, t);
    if !Touches(pc) {
      StepFrame(s, s', t, t);
    } else if pc.Placing? || pc.Handing? {
      PutSame(s, s', t);
    } else {
      PickSame(s, s', t);
    }
  }

  lemma PutSame(s: State, s': State, t: int)
    requires Inv(s) && Step(s, s', t) && (At(s, t).Placing? || At(s, t).Handing?)
    ensures s'.free == s.free && s'.owner.Keys == s.owner.Keys
  {
    hide Inv;
    KnowsOwn(s, t);
  }

  lemma PickSame(s: State, s': State, t: int)
    requires Inv(s) && Step(s, s', t) && (At(s, t).Fetching? || At(s, t).Freed?)
    ensures s'.free == s.free && s'.owner.Keys == s.owner.Keys
  {
    match At(s, t)
    case Fetching(h) =>
      if x :| TakesOver(s, s', t, h, x) {
        assert BlockOk(s, x);
      }
    case Freed(b, o) =>
  }

  // ---- where a thread goes

  ghost predicate Edge(pc: PC, pc': PC) {
    match pc
    case Idle => pc'.WantHeap? || pc'.WantBlock?
    case WantHeap(h) => pc' == Allocating(h)
    case Allocating(h) => pc' == Leaving(h) || pc' == WantGlobal(h)
    case WantGlobal(h) => pc' == Fetching(h)
    case Fetching(h) => pc' == Missed(h) || (pc'.Fetched? && pc'.h == h)
    case Fetched(h, x) => pc' == Placing(h, x)
    case Missed(h) => pc' == Asking(h)
    case Asking(h) => pc' == Leaving(h) || (pc'.Placing? && pc'.h == h)
    case Placing(h, x) => pc' == Allocating(h)
    case Leaving(h) => pc' == Idle
    case WantBlock(b) => pc' == Reading(b)
    case Reading(b) => pc'.WantOwner? && pc'.b == b
    case WantOwner(b, o) => pc' == Checking(b, o)
    case Checking(b, o) => pc' == Freeing(b, o) || pc' == Retrying(b, o)
    case Retrying(b, o) => pc' == Reading(b)
    case Freeing(b, o) => pc' == Freed(b, o)
    case Freed(b, o) => pc' == Finishing(b, o) || (pc'.Giving? && pc'.b == b && pc'.o == o)
    case Giving(b, o, x) => pc' == Handing(b, o, x)
    case Handing(b, o, x) => pc' == Handed(b, o)
    case Handed(b, o) => pc' == Finishing(b, o)
    case Finishing(b, o) => pc' == Releasing(b)
    case Releasing(b) => pc' == Idle
  }

  lemma AllocateEdge(s: State, s': State, t: int)
    requires Step(s, s', t)
    requires At(s, t).WantHeap? || At(s, t).Placing? || At(s, t).Leaving?
    ensures Edge(At(s, t), At(s', t))
  {
  }

  lemma IdleEdge(s: State, s': State, t: int)
    requires Step(s, s', t) && At(s, t).Idle?
    ensures Edge(At(s, t), At(s', t))
  {
  }

  lemma MallocEdge(s: State, s': State, t: int)
    requires Step(s, s', t) && At(s, t).Allocating?
    ensures Edge(At(s, t), At(s', t))
  {
  }

  lemma AskEdge(s: State, s': State, t: int)
    requires Step(s, s', t) && At(s, t).Asking?
    ensures Edge(At(s, t), At(s', t))
  {
  }

  lemma FetchEdge(s: State, s': State, t: int)
    requires Step(s, s', t)
    requires var pc := At(s, t); pc.WantGlobal? || pc.Fetching? || pc.Fetched? || pc.Missed?
    ensures Edge(At(s, t), At(s', t))
  {
  }

  lemma RouteEdge(s: State, s': State, t: int)
    requires Step(s, s', t)
    requires var pc := At(s, t);
             pc.WantBlock? || pc.Reading? || pc.WantOwner? || pc.Checking? || pc.Retrying? || pc.Freeing?
    ensures Edge(At(s, t), At(s', t))
  {
  }

  lemma FinishEdge(s: State, s': State, t: int)
    requires Step(s, s', t)
    requires var pc := At(s, t); pc.Freed? || pc.Giving? || pc.Handing? || pc.Handed? || pc.Finishing? || pc.Releasing?
    ensures Edge(At(s, t), At(s', t))
  {
  }

  lemma StepEdge(s: State, s': State, t: int)
    requires Step(s, s', t)
    ensures Edge(At(s, t), At(s', t))
  {
    hide Step, Edge;
    var pc := At(s, t);
    if pc.Idle? {
      IdleEdge(s, s', t);
    } else if pc.WantHeap? || pc.Placing? || pc.Leaving? {
      AllocateEdge(s, s', t);
    } else if pc.Allocating? {
      MallocEdge(s, s', t);
    } else if pc.Asking? {
      AskEdge(s, s', t);
    } else if pc.WantGlobal? || pc.Fetching? || pc.Fetched? || pc.Missed? {
      FetchEdge(s, s', t);
    } else if pc.WantBlock? || pc.Reading? || pc.WantOwner? || pc.Checking? || pc.Retrying? || pc.Freeing? {
      RouteEdge(s, s', t);
    } else {
      FinishEdge(s, s', t);
    }
  }

  /** From the call to the return of the object, and nowhere else, a thread pends. */
  lemma PendsSame(s: State, s': State, t: int, x: nat)
    requires Step(s, s', t) && !At(s, t).Idle? && !At(s, t).Freeing?
    ensures Pends(At(s', t), x) == Pends(At(s, t), x)
  {
    hide Step;
    StepEdge(s, s', t);
  }

  lemma CountSame(g: SizeClass, c: Exact, c': Exact, t: int, x: nat)
    requires ExactInv(g, c) && Step(c.s, c'.s, t) && x in c.s.owner
    requires Free(c'.s, x) + Live(c', x) == Free(c.s, x) + Live(c, x)
    requires Pends(At(c'.s, t), x) == Pends(At(c.s, t), x)
    ensures CountOk(g, c', x)
  {
    hide Inv, Step;
    assert CountOk(g, c, x);
    PendingMoves(c.s, c'.s, t, x);
    assert Pending(c'.s, x) == Pending(c.s, x);
  }

  lemma IdleCount(g: SizeClass, c: Exact, c': Exact, t: int, x: nat)
    requires ExactInv(g, c) && Step(c.s, c'.s, t) && ExactStep(g, c, c', t) && At(c.s, t).Idle?
    ensures CountOk(g, c', x)
  {
    hide Inv, Step, ExactStep;
    IdleCases(g, c, c', t);
    if Pends(At(c'.s, t), x) {
      PendingMoves(c.s, c'.s, t, x);
      assert CountOk(g, c, x);
    } else if x in c.s.owner {
      CountSame(g, c, c', t, x);
    }
  }

  lemma MallocCount(g: SizeClass, c: Exact, c': Exact, t: int, x: nat)
    requires ExactInv(g, c) && Step(c.s, c'.s, t) && ExactStep(g, c, c', t) && At(c.s, t).Allocating?
    ensures CountOk(g, c', x)
  {
    hide Inv, Step, ExactStep, Serves, Exhausted;
    var h := At(c.s, t).h;
    MallocCases(g, c, c', t, h);
    PendsSame(c.s, c'.s, t, x);
    if y :| Served(g, c, c', t, h, y) {
      assert Free(c'.s, x) + Live(c', x) == Free(c.s, x) + Live(c, x);
    }
    if x in c'.s.owner {
      CountSame(g, c, c', t, x);
    }
  }

  lemma ObtainCount(g: SizeClass, c: Exact, c': Exact, t: int, x: nat)
    requires ExactInv(g, c) && Step(c.s, c'.s, t) && ExactStep(g, c, c', t) && At(c.s, t).Asking?
    ensures CountOk(g, c', x)
  {
    hide Inv, Step, ExactStep;
    ObtainCases(g, c, c', t, At(c.s, t).h);
    PendsSame(c.s, c'.s, t, x);
    if x in c.s.owner {
      CountSame(g, c, c', t, x);
    } else {
      NonePends(c.s, x);
      PendingMoves(c.s, c'.s, t, x);
    }
  }

  lemma FreeCount(g: SizeClass, c: Exact, c': Exact, t: int, x: nat)
    requires ExactInv(g, c) && Step(c.s, c'.s, t) && ExactStep(g, c, c', t) && At(c.s, t).Freeing?
    ensures CountOk(g, c', x)
  {
    hide Inv, Step, ExactStep, Class;
    var b := At(c.s, t).b;
    FreeCases(g, c, c', t, b, At(c.s, t).o);
    if x == b {
      PendingMoves(c.s, c'.s, t, x);
      assert CountOk(g, c, x);
    } else if x in c.s.owner {
      CountSame(g, c, c', t, x);
    }
  }

  lemma StepCount(g: SizeClass, c: Exact, c': Exact, t: int, x: nat)
    requires ExactInv(g, c) && ExactStep(g, c, c', t)
    ensures CountOk(g, c', x)
  {
    hide Inv, Step;
    var pc := At(c.s, t);
    if pc.Idle? {
      IdleCount(g, c, c', t, x);
    } else if pc.Allocating? {
      MallocCount(g, c, c', t, x);
    } else if pc.Asking? {
      ObtainCount(g, c, c', t, x);
    } else if pc.Freeing? {
      FreeCount(g, c, c', t, x);
    } else if x in c'.s.owner {
      FreeSame(c.s, c'.s, t);
      PendsSame(c.s, c'.s, t, x);
      CountSame(g, c, c', t, x);
    }
  }

  lemma MallocCached(g: SizeClass, c: Exact, c': Exact, t: int, h: nat)
    requires ExactInv(g, c) && ExactStep(g, c, c', t) && At(c.s, t).Allocating?
    ensures CachedOk(c', h)
  {
    hide Step, Inv, Serves, Exhausted;
    assert CachedOk(c, h);
    var r := At(c.s, t).h;
    MallocCases(g, c, c', t, r);
    if y :| Served(g, c, c', t, r, y) {
      assert Allocates(c.s, c'.s, t, r, y);
    }
  }

  lemma ObtainCached(g: SizeClass, c: Exact, c': Exact, t: int, h: nat)
    requires ExactInv(g, c) && ExactStep(g, c, c', t) && At(c.s, t).Asking?
    ensures CachedOk(c', h)
  {
    assert CachedOk(c, h);
    if h in c.cached {
      assert BlockOk(c.s, c.cached[h]);
    }
  }

  lemma PickCached(g: SizeClass, c: Exact, c': Exact, t: int, h: nat)
    requires ExactInv(g, c) && ExactStep(g, c, c', t) && (At(c.s, t).Fetching? || At(c.s, t).Freed?)
    ensures CachedOk(c', h)
  {
    hide Step, Inv, Crossed, Exhausted;
    assert CachedOk(c, h);
    match At(c.s, t)
    case Fetching(r) => FetchCases(g, c, c', t, r);
    case Freed(b, o) => GiveCases(g, c, c', t, b, o);
  }

  lemma PutCached(g: SizeClass, c: Exact, c': Exact, t: int, h: nat)
    requires ExactInv(g, c) && ExactStep(g, c, c', t) && (At(c.s, t).Placing? || At(c.s, t).Handing?)
    ensures CachedOk(c', h)
  {
    assert CachedOk(c, h) && ThreadOk(c.s, t) && Carries(c.s, t, At(c.s, t).x);
  }

  lemma StepCached(g: SizeClass, c: Exact, c': Exact, t: int, h: nat)
    requires ExactInv(g, c) && ExactStep(g, c, c', t)
    ensures CachedOk(c', h)
  {
    var pc := At(c.s, t);
    if pc.Allocating? {
      MallocCached(g, c, c', t, h);
    } else if pc.Asking? {
      ObtainCached(g, c, c', t, h);
    } else if pc.Fetching? || pc.Freed? {
      PickCached(g, c, c', t, h);
    } else if pc.Placing? || pc.Handing? {
      PutCached(g, c, c', t, h);
    } else {
      assert CachedOk(c, h);
      if !pc.Freeing? {
        StepFrame(c.s, c'.s, t, t);
      }
    }
  }

  /** The invariant holds after every step of every thread. */
  lemma ExactStepInv(g: SizeClass, c: Exact, c': Exact, t: int)
    requires ExactInv(g, c) && ExactStep(g, c, c', t)
    ensures ExactInv(g, c')
  {
    hide Inv, CachedOk, CountOk;
    StepInv(c.s, c'.s, t) by {
      hide Inv;
    }
    forall h {:trigger CachedOk(c', h)} ensures CachedOk(c', h) {
      StepCached(g, c, c', t, h);
    }
    forall x {:trigger CountOk(g, c', x)} ensures CountOk(g, c', x) {
      StepCount(g, c, c', t, x);
    }
  }

  // ---- the choices can be made

  /** One of the superblocks is ahead of all others. */
  lemma {:induction false} First(g: SizeClass, c: Exact, a: set<nat>) returns (x: nat)
    requires a != {}
    ensures x in a && forall y {:trigger Ahead(g, c, x, y)} :: y in a ==> Ahead(g, c, x, y)
  {
    x :| x in a;
    if a != {x} {
      var z := First(g, c, a - {x});
      if !Ahead(g, c, x, z) {
        forall y {:trigger Ahead(g, c, z, y)} | y in a ensures Ahead(g, c, z, y) {
          assert y != x ==> y in a - {x};
        }
        x := z;
      } else {
        forall y {:trigger Ahead(g, c, x, y)} | y in a ensures Ahead(g, c, x, y) {
          assert y != x ==> y in a - {x} && Ahead(g, c, z, y);
        }
      }
    }
  }

  lemma EmptiestExists(g: SizeClass, c: Exact, h: nat, z: nat) returns (x: nat)
    requires Offers(c, h, z)
    ensures Emptiest(g, c, h, x)
  {
    var a := set y | y in c.s.place && Offers(c, h, y);
    assert z in a;
    x := First(g, c, a);
  }

  /** A heap with an object serves. */
  lemma ServeExists(g: SizeClass, c: Exact, h: nat) returns (x: nat)
    requires ExactInv(g, c) && !Exhausted(c.s, h)
    ensures Serves(g, c, h, x) && Has(c.s, h, x) && Free(c.s, x) > 0
  {
    assert CachedOk(c, h);
    if h in c.cached && Free(c.s, c.cached[h]) > 0 {
      x := c.cached[h];
    } else {
      var z :| Has(c.s, h, z) && Free(c.s, z) > 0;
      x := EmptiestExists(g, c, h, z);
    }
  }

  lemma PickExists(g: SizeClass, c: Exact, h: nat) returns (x: nat)
    requires ExactInv(g, c) && (h in c.cached || !Exhausted(c.s, h))
    ensures Picks(g, c, h, x) && Has(c.s, h, x)
  {
    assert CachedOk(c, h);
    if h in c.cached {
      x := c.cached[h];
    } else {
      var z :| Has(c.s, h, z) && Free(c.s, z) > 0;
      x := EmptiestExists(g, c, h, z);
    }
  }

  /** A heap that has crossed the threshold has a superblock to give up. */
  lemma CrossedPicks(g: SizeClass, c: Exact, h: nat) returns (x: nat)
    requires ExactInv(g, c) && Crossed(g, c.s, h)
    ensures Picks(g, c, h, x) && Has(c.s, h, x)
  {
    var m := Bin(c.s, h);
    assert B.FreeObjects(m) > 0;
    var z := B.SomeFree(m);
    assert Has(c.s, h, z);
    x := PickExists(g, c, h);
  }

  // ---- a heap is touched under its lock only

  /** The superblock is in the bin before and after, with the same free objects, or not in it. */
  ghost predicate SameIn(s: State, s': State, h: nat, y: nat) {
    (Has(s', h, y) <==> Has(s, h, y)) && (Has(s, h, y) ==> Free(s', y) == Free(s, y))
  }

  predicate SameCached(c: Exact, c': Exact, h: nat) {
    (h in c'.cached <==> h in c.cached) && (h in c.cached ==> c'.cached[h] == c.cached[h])
  }

  /** The bin is the same. */
  ghost predicate SameBin(c: Exact, c': Exact, h: nat) { Bin(c'.s, h) == Bin(c.s, h) && SameCached(c, c', h) }

  lemma SameBinHas(c: Exact, c': Exact, h: nat, y: nat)
    requires SameBin(c, c', h)
    ensures SameIn(c.s, c'.s, h, y)
  {
    assert y in Bin(c.s, h) <==> y in Bin(c'.s, h);
    if y in Bin(c.s, h) {
      assert Bin(c.s, h)[y] == Bin(c'.s, h)[y];
    }
  }

  /** The heap in whose bin a step is at work. */
  function WorksOn(pc: PC): set<nat> {
    match pc
    case Allocating(h) => {h}
    case Fetching(h) => {GLOBAL}
    case Placing(h, x) => {h}
    case Freeing(b, o) => {o}
    case Freed(b, o) => {o}
    case Handing(b, o, x) => {GLOBAL}
    case _ => {}
  }

  lemma PlainFrame(g: SizeClass, c: Exact, c': Exact, t: int, h: nat, y: nat)
    requires ExactStep(g, c, c', t) && !Touches(At(c.s, t))
    ensures SameIn(c.s, c'.s, h, y) && SameCached(c, c', h)
  {
    hide Step;
    StepFrame(c.s, c'.s, t, t);
  }

  lemma MallocFrame(g: SizeClass, c: Exact, c': Exact, t: int, h: nat, y: nat)
    requires ExactInv(g, c) && ExactStep(g, c, c', t) && At(c.s, t).Allocating? && At(c.s, t).h != h
    ensures SameIn(c.s, c'.s, h, y) && SameCached(c, c', h)
  {
    hide Step, Inv, ExactStep, Serves, Exhausted;
    var r := At(c.s, t).h;
    MallocCases(g, c, c', t, r);
    if x :| Served(g, c, c', t, r, x) {
      assert Allocates(c.s, c'.s, t, r, x);
    }
  }

  lemma FetchFrameOf(g: SizeClass, c: Exact, c': Exact, t: int, h: nat, y: nat)
    requires ExactInv(g, c) && ExactStep(g, c, c', t) && At(c.s, t).Fetching? && h != GLOBAL
    ensures SameIn(c.s, c'.s, h, y) && SameCached(c, c', h)
  {
    hide Step, Inv, ExactStep, Picks, Exhausted;
    FetchCases(g, c, c', t, At(c.s, t).h);
  }

  lemma ObtainFrame(g: SizeClass, c: Exact, c': Exact, t: int, h: nat, y: nat)
    requires ExactInv(g, c) && ExactStep(g, c, c', t) && At(c.s, t).Asking?
    ensures SameIn(c.s, c'.s, h, y) && SameCached(c, c', h)
  {
    hide Step, ExactStep;
    assert BlockOk(c.s, y);
    ObtainCases(g, c, c', t, At(c.s, t).h);
  }

  lemma PutFrame(g: SizeClass, c: Exact, c': Exact, t: int, h: nat, y: nat)
    requires ExactInv(g, c) && ExactStep(g, c, c', t) && h !in WorksOn(At(c.s, t))
    requires At(c.s, t).Placing? || At(c.s, t).Handing?
    ensures SameIn(c.s, c'.s, h, y) && SameCached(c, c', h)
  {
    assert ThreadOk(c.s, t) && Carries(c.s, t, At(c.s, t).x);
  }

  lemma FreeFrame(g: SizeClass, c: Exact, c': Exact, t: int, h: nat, y: nat)
    requires ExactInv(g, c) && ExactStep(g, c, c', t) && At(c.s, t).Freeing? && At(c.s, t).o != h
    ensures SameIn(c.s, c'.s, h, y) && SameCached(c, c', h)
  {
    hide Step, ExactStep, Class;
    var b, o := At(c.s, t).b, At(c.s, t).o;
    assert BlockOk(c.s, b) && ThreadOk(c.s, t);
    FreeCases(g, c, c', t, b, o);
  }

  lemma GiveFrame(g: SizeClass, c: Exact, c': Exact, t: int, h: nat, y: nat)
    requires ExactInv(g, c) && ExactStep(g, c, c', t) && At(c.s, t).Freed? && At(c.s, t).o != h
    ensures SameIn(c.s, c'.s, h, y) && SameCached(c, c', h)
  {
    hide Step, Inv, ExactStep, Picks, Crossed;
    GiveCases(g, c, c', t, At(c.s, t).b, At(c.s, t).o);
  }

  lemma FrameOf(g: SizeClass, c: Exact, c': Exact, t: int, h: nat, y: nat)
    requires ExactInv(g, c) && ExactStep(g, c, c', t) && h !in WorksOn(At(c.s, t))
    ensures SameIn(c.s, c'.s, h, y) && SameCached(c, c', h)
  {
    hide ExactInv, ExactStep, SameIn, SameCached;
    var pc := At(c.s, t);
    if !Touches(pc) {
      PlainFrame(g, c, c', t, h, y);
    } else if pc.Allocating? {
      MallocFrame(g, c, c', t, h, y);
    } else if pc.Fetching? {
      FetchFrameOf(g, c, c', t, h, y);
    } else if pc.Asking? {
      ObtainFrame(g, c, c', t, h, y);
    } else if pc.Placing? || pc.Handing? {
      PutFrame(g, c, c', t, h, y);
    } else if pc.Freeing? {
      FreeFrame(g, c, c', t, h, y);
    } else {
      GiveFrame(g, c, c', t, h, y);
    }
  }

  /** A step changes the bin of the heap that it works on, and no other. */
  lemma BinUntouched(g: SizeClass, c: Exact, c': Exact, t: int, h: nat)
    requires ExactInv(g, c) && ExactStep(g, c, c', t) && h !in WorksOn(At(c.s, t))
    ensures SameBin(c, c', h)
  {
    hide ExactInv, ExactStep;
    FrameOf(g, c, c', t, h, 0);
    forall y {:trigger SameIn(c.s, c'.s, h, y)} ensures SameIn(c.s, c'.s, h, y) {
      FrameOf(g, c, c', t, h, y);
    }
    BinsEqual(c.s, c'.s, h);
  }

  /** It holds the lock of that heap. */
  lemma WorksUnderLock(g: SizeClass, c: Exact, t: int, h: nat)
    requires ExactInv(g, c) && h in WorksOn(At(c.s, t))
    ensures HoldsHeap(c.s, t, h)
  {
    assert HeapLockOk(c.s, t, h);
  }

  lemma BinUnheld(g: SizeClass, c: Exact, c': Exact, t: int, h: nat)
    requires ExactInv(g, c) && ExactStep(g, c, c', t) && !HoldsHeap(c.s, t, h)
    ensures SameBin(c, c', h)
  {
    hide ExactInv, ExactStep;
    if h in WorksOn(At(c.s, t)) {
      WorksUnderLock(g, c, t, h);
    }
    BinUntouched(g, c, c', t, h);
  }

  lemma BinsEqual(s: State, s': State, h: nat)
    requires forall y {:trigger SameIn(s, s', h, y)} :: SameIn(s, s', h, y)
    ensures Bin(s', h) == Bin(s, h)
  {
    var m, m' := Bin(s, h), Bin(s', h);
    forall y: nat ensures (y in m <==> y in m') && (y in m ==> m'[y] == m[y]) {
      assert SameIn(s, s', h, y);
    }
  }

  // ---- nothing else is left open

  /** No two superblocks entered a list at the same time. */
  ghost predicate Stamped(since: map<nat, nat>, now: nat) {
    && (forall x {:trigger since[x]} :: x in since ==> since[x] < now)
    && (forall x, y {:trigger since[x], since[y]} :: x in since && y in since && x != y ==> since[x] != since[y])
  }

  /** A superblock in a list has entered it. */
  ghost predicate ListOk(c: Exact, h: nat, x: nat) { Has(c.s, h, x) && !IsCached(c, h, x) ==> x in c.since }

  ghost predicate Ordered(c: Exact) {
    Stamped(c.since, c.now) && forall h, x {:trigger ListOk(c, h, x)} :: ListOk(c, h, x)
  }

  lemma EntersStamped(c: Exact, x: nat)
    requires Stamped(c.since, c.now)
    ensures Stamped(Enters(c, x).since, Enters(c, x).now)
  {
    var d := Enters(c, x);
    forall y {:trigger d.since[y]} | y in d.since ensures d.since[y] < d.now && (y != x ==> d.since[y] == c.since[y]) {
    }
  }

  /** Entries in a list are never forgotten. */
  ghost predicate Later(c: Exact, c': Exact) { c.since.Keys <= c'.since.Keys && Stamped(c'.since, c'.now) }

  lemma CacheLater(c: Exact, h: nat, x: nat)
    requires Stamped(c.since, c.now)
    ensures Later(c, Cache(c, h, x)) && Later(c, Uncache(c, h))
    ensures h in c.cached ==>
              c.cached[h] in Uncache(c, h).since && (c.cached[h] != x ==> c.cached[h] in Cache(c, h, x).since)
  {
    hide Stamped;
    if h in c.cached {
      EntersStamped(c, c.cached[h]);
    }
  }

  lemma MallocOrdered(g: SizeClass, c: Exact, c': Exact, t: int, h: nat, x: nat)
    requires Ordered(c) && ExactStep(g, c, c', t) && At(c.s, t).Allocating?
    ensures Later(c, c') && (h == At(c.s, t).h ==> ListOk(c', h, x))
  {
    hide ExactStep, Step, Serves, Exhausted, Stamped;
    var r := At(c.s, t).h;
    MallocCases(g, c, c', t, r);
    assert ListOk(c, h, x);
    if z :| Served(g, c, c', t, r, z) {
      assert Allocates(c.s, c'.s, t, r, z);
      CacheLater(c, r, z);
    } else {
      CacheLater(c, r, 0);
    }
  }

  lemma PutOrdered(g: SizeClass, c: Exact, c': Exact, t: int, h: nat, x: nat)
    requires Ordered(c) && ExactStep(g, c, c', t) && (At(c.s, t).Placing? || At(c.s, t).Handing?)
    ensures Later(c, c') && (h in WorksOn(At(c.s, t)) ==> ListOk(c', h, x))
  {
    hide Stamped;
    var r := if At(c.s, t).Placing? then At(c.s, t).h else GLOBAL;
    CacheLater(c, r, At(c.s, t).x);
    assert ListOk(c, h, x);
  }

  lemma PickOrdered(g: SizeClass, c: Exact, c': Exact, t: int, h: nat, x: nat)
    requires Ordered(c) && ExactStep(g, c, c', t) && (At(c.s, t).Fetching? || At(c.s, t).Freed?)
    ensures Later(c, c') && (h in WorksOn(At(c.s, t)) ==> ListOk(c', h, x))
  {
    hide ExactStep, Step, Exhausted, Crossed, Emptiest, Stamped;
    assert ListOk(c, h, x);
    match At(c.s, t)
    case Fetching(r) => FetchCases(g, c, c', t, r);
    case Freed(b, o) => GiveCases(g, c, c', t, b, o);
  }

  lemma FreeOrdered(g: SizeClass, c: Exact, c': Exact, t: int, h: nat, x: nat)
    requires Ordered(c) && ExactStep(g, c, c', t) && At(c.s, t).Freeing?
    ensures Later(c, c') && (h in WorksOn(At(c.s, t)) ==> ListOk(c', h, x))
  {
    hide ExactStep, Step, Class, Stamped;
    var b := At(c.s, t).b;
    FreeCases(g, c, c', t, b, At(c.s, t).o);
    EntersStamped(c, b);
    assert ListOk(c, h, x);
  }

  lemma PlainOrdered(g: SizeClass, c: Exact, c': Exact, t: int)
    requires Ordered(c) && ExactStep(g, c, c', t) && WorksOn(At(c.s, t)) == {}
    ensures Later(c, c')
  {
    hide Step, Stamped;
  }

  lemma ListOrdered(g: SizeClass, c: Exact, c': Exact, t: int, h: nat, x: nat)
    requires ExactInv(g, c) && Ordered(c) && ExactStep(g, c, c', t)
    ensures Later(c, c') && ListOk(c', h, x)
  {
    var pc := At(c.s, t);
    assert ListOk(c, h, x);
    hide ExactInv, ExactStep, Ordered;
    if pc.Allocating? {
      MallocOrdered(g, c, c', t, h, x);
    } else if pc.Placing? || pc.Handing? {
      PutOrdered(g, c, c', t, h, x);
    } else if pc.Fetching? || pc.Freed? {
      PickOrdered(g, c, c', t, h, x);
    } else if pc.Freeing? {
      FreeOrdered(g, c, c', t, h, x);
    } else {
      PlainOrdered(g, c, c', t);
    }
    if h !in WorksOn(pc) {
      FrameOf(g, c, c', t, h, x);
    }
  }

  lemma StepOrdered(g: SizeClass, c: Exact, c': Exact, t: int)
    requires ExactInv(g, c) && Ordered(c) && ExactStep(g, c, c', t)
    ensures Ordered(c')
  {
    hide ExactInv, ExactStep, Stamped;
    ListOrdered(g, c, c', t, 0, 0);
    forall h, x {:trigger ListOk(c', h, x)} ensures ListOk(c', h, x) {
      ListOrdered(g, c, c', t, h, x);
    }
  }

  lemma OneEmptiest(g: SizeClass, c: Exact, h: nat, x: nat, y: nat)
    requires Ordered(c) && Emptiest(g, c, h, x) && Emptiest(g, c, h, y)
    ensures x == y
  {
    assert ListOk(c, h, x) && ListOk(c, h, y) && Offers(c, h, x) && Offers(c, h, y);
    assert c.since[x] == c.since[y];
  }

  lemma OneChoice(g: SizeClass, c: Exact, h: nat, x: nat, y: nat)
    requires Ordered(c)
    ensures Picks(g, c, h, x) && Picks(g, c, h, y) ==> x == y
    ensures Serves(g, c, h, x) && Serves(g, c, h, y) ==> x == y
  {
    hide Emptiest;
    if Emptiest(g, c, h, x) && Emptiest(g, c, h, y) {
      OneEmptiest(g, c, h, x, y);
    }
  }

  lemma PlainOnce(s: State, s1: State, s2: State, t: int)
    requires Step(s, s1, t) && Step(s, s2, t)
    requires var pc := At(s, t); !pc.Idle? && !pc.Allocating? && !pc.Fetching? && !pc.Asking? && !pc.Freed?
    ensures s1 == s2
  {
  }

  lemma ServedHas(g: SizeClass, c: Exact, c': Exact, t: int, h: nat, x: nat)
    requires Served(g, c, c', t, h, x)
    ensures !Exhausted(c.s, h)
    ensures c'.s == Goto(c.s, t, Leaving(h)).(free := c.s.free[x := Free(c.s, x) - 1])
  {
    assert Has(c.s, h, x);
  }

  lemma MallocOnce(g: SizeClass, c: Exact, c1: Exact, c2: Exact, t: int, h: nat)
    requires Ordered(c) && ExactStep(g, c, c1, t) && ExactStep(g, c, c2, t) && At(c.s, t) == Allocating(h)
    ensures c1 == c2
  {
    hide ExactStep, Step, Ordered, Served, Exhausted;
    MallocCases(g, c, c1, t, h);
    MallocCases(g, c, c2, t, h);
    if x :| Served(g, c, c1, t, h, x) {
      ServedHas(g, c, c1, t, h, x);
      var y :| Served(g, c, c2, t, h, y);
      ServedOnce(g, c, c1, c2, t, h, x, y);
    } else if y :| Served(g, c, c2, t, h, y) {
      ServedHas(g, c, c2, t, h, y);
    }
  }

  lemma ServedOnce(g: SizeClass, c: Exact, c1: Exact, c2: Exact, t: int, h: nat, x: nat, y: nat)
    requires Ordered(c) && Served(g, c, c1, t, h, x) && Served(g, c, c2, t, h, y)
    ensures c1 == c2
  {
    ServedHas(g, c, c1, t, h, x);
    ServedHas(g, c, c2, t, h, y);
    OneChoice(g, c, h, x, y);
    hide Serves, Ordered;
  }

  lemma PickHas(g: SizeClass, c: Exact, h: nat, x: nat)
    requires Picks(g, c, h, x)
    ensures h in c.cached || !Exhausted(c.s, h)
  {
    assert h !in c.cached ==> Offers(c, h, x) && Has(c.s, h, x);
  }

  lemma FetchOnce(g: SizeClass, c: Exact, c1: Exact, c2: Exact, t: int, h: nat)
    requires Ordered(c) && ExactStep(g, c, c1, t) && ExactStep(g, c, c2, t) && At(c.s, t) == Fetching(h)
    ensures c1 == c2
  {
    hide ExactStep, Step, Ordered, Picks, Exhausted;
    FetchCases(g, c, c1, t, h);
    FetchCases(g, c, c2, t, h);
    if x :| Picks(g, c, GLOBAL, x) && TakesOver(c.s, c1.s, t, h, x) {
      PickHas(g, c, GLOBAL, x);
      var y :| Picks(g, c, GLOBAL, y) && TakesOver(c.s, c2.s, t, h, y);
      OneChoice(g, c, GLOBAL, x, y);
    } else if y :| Picks(g, c, GLOBAL, y) && TakesOver(c.s, c2.s, t, h, y) {
      PickHas(g, c, GLOBAL, y);
    }
  }

  lemma GiveOnce(g: SizeClass, c: Exact, c1: Exact, c2: Exact, t: int, b: nat, o: nat)
    requires Ordered(c) && ExactStep(g, c, c1, t) && ExactStep(g, c, c2, t) && At(c.s, t) == Freed(b, o)
    ensures c1 == c2
  {
    hide ExactStep, Step, Ordered, Crossed, Picks;
    GiveCases(g, c, c1, t, b, o);
    GiveCases(g, c, c2, t, b, o);
    if Crossed(g, c.s, o) {
      var x :| Picks(g, c, o, x) && TakesOut(c.s, c1.s, t, b, o, x);
      var y :| Picks(g, c, o, y) && TakesOut(c.s, c2.s, t, b, o, y);
      OneChoice(g, c, o, x, y);
    }
  }

  /** The step of a thread is determined, except for the call it makes and what the source answers. */
  lemma Determined(g: SizeClass, c: Exact, c1: Exact, c2: Exact, t: int)
    requires Ordered(c) && ExactStep(g, c, c1, t) && ExactStep(g, c, c2, t)
    requires !At(c.s, t).Idle? && !At(c.s, t).Asking?
    ensures c1 == c2
  {
    match At(c.s, t)
    case Allocating(h) => MallocOnce(g, c, c1, c2, t, h);
    case Fetching(h) => FetchOnce(g, c, c1, c2, t, h);
    case Freed(b, o) => GiveOnce(g, c, c1, c2, t, b, o);
    case _ =>
      PlainOnce(c.s, c1.s, c2.s, t);
      hide Step, Ordered;
  }
}
