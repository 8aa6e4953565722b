/** What other threads can bring about in Hoard while one thread stands still. */
module HoardDrive {
  import opened HoardProtocol
  import opened HoardExact
  import B = HoardBins
  import M = HoardManager

  // ---- runs in which some threads stand still

  /** A run of the code from any state, in which the threads of `still` take no step. */
  ghost predicate IsPath(g: SizeClass, run: seq<Exact>, who: seq<int>, still: set<int>) {
    && |run| == |who| + 1
    && (forall i {:trigger who[i]} :: 0 <= i < |who| ==> who[i] !in still)
    && (forall i {:trigger who[i]} :: 0 <= i < |who| ==> ExactStep(g, run[i], run[i + 1], who[i]))
  }

  ghost predicate Leads(g: SizeClass, c: Exact, c': Exact, still: set<int>) {
    exists run, who {:trigger IsPath(g, run, who, still)} ::
      IsPath(g, run, who, still) && run[0] == c && run[|who|] == c'
  }

  const START := Exact(State(map[], map[], map[], map[], map[], map[]), map[], map[], map[], 0)

  ghost predicate Reachable(g: SizeClass, c: Exact) { Leads(g, START, c, {}) }

  lemma Stay(g: SizeClass, c: Exact, still: set<int>)
    ensures Leads(g, c, c, still)
  {
    assert IsPath(g, [c], [], still);
  }

  lemma Advance(g: SizeClass, r: Exact, c: Exact, c': Exact, t: int, still: set<int>)
    requires Leads(g, r, c, still) && ExactStep(g, c, c', t) && t !in still
    ensures Leads(g, r, c', still)
  {
    hide ExactStep;
    var run, who :| IsPath(g, run, who, still) && run[0] == r && run[|who|] == c;
    var more, whose := run + [c'], who + [t];
    forall i {:trigger whose[i]} | 0 <= i < |whose| ensures whose[i] !in still {
      assert i < |who| ==> whose[i] == who[i];
    }
    forall i {:trigger whose[i]} | 0 <= i < |whose| ensures ExactStep(g, more[i], more[i + 1], whose[i]) {
      assert i < |who| ==> whose[i] == who[i];
    }
    assert IsPath(g, more, whose, still) && more[0] == r && more[|whose|] == c';
  }

  lemma {:induction false} Onward(g: SizeClass, r: Exact, run: seq<Exact>, who: seq<int>, still: set<int>, n: nat)
    requires IsPath(g, run, who, still) && n <= |who| && Leads(g, r, run[0], still)
    ensures Leads(g, r, run[n], still)
  {
    hide ExactStep, Leads;
    if n > 0 {
      Onward(g, r, run, who, still, n - 1);
      assert who[n - 1] !in still;
      Advance(g, r, run[n - 1], run[n], who[n - 1], still);
    }
  }

  lemma Then(g: SizeClass, r: Exact, c: Exact, c': Exact, still: set<int>)
    requires Leads(g, r, c, still) && Leads(g, c, c', still)
    ensures Leads(g, r, c', still)
  {
    hide ExactStep;
    var run, who :| IsPath(g, run, who, still) && run[0] == c && run[|who|] == c';
    Onward(g, r, run, who, still, |who|);
  }

  /** Every run of the code is a run of the protocol. */
  lemma ExactRuns(g: SizeClass, run: seq<Exact>, who: seq<int>)
    requires IsPath(g, run, who, {}) && run[0] == START
    ensures IsRun(seq(|run|, i requires 0 <= i < |run| => run[i].s), who)
  {
    hide Step;
    var states := seq(|run|, i requires 0 <= i < |run| => run[i].s);
    forall i {:trigger who[i]} | 0 <= i < |who| ensures Step(states[i], states[i + 1], who[i]) {
      assert ExactStep(g, run[i], run[i + 1], who[i]);
    }
  }

  lemma {:induction false} PathInv(g: SizeClass, run: seq<Exact>, who: seq<int>, still: set<int>, n: nat, x: nat)
    requires IsPath(g, run, who, still) && n <= |who| && ExactInv(g, run[0])
    ensures ExactInv(g, run[n]) && (x in run[0].s.owner ==> x in run[n].s.owner)
  {
    hide ExactInv, Step;
    if n > 0 {
      PathInv(g, run, who, still, n - 1, x);
      assert ExactStep(g, run[n - 1], run[n], who[n - 1]);
      ExactStepInv(g, run[n - 1], run[n], who[n - 1]);
      if x in run[n - 1].s.owner {
        OwnersStay(run[n - 1].s, run[n].s, who[n - 1], x);
      }
    }
  }

  lemma LeadsInv(g: SizeClass, c: Exact, c': Exact, still: set<int>, x: nat)
    requires ExactInv(g, c) && Leads(g, c, c', still)
    ensures ExactInv(g, c') && (x in c.s.owner ==> x in c'.s.owner)
  {
    hide ExactInv, ExactStep;
    var run, who :| IsPath(g, run, who, still) && run[0] == c && run[|who|] == c';
    PathInv(g, run, who, still, |who|, x);
  }

  lemma StartInv(g: SizeClass)
    ensures ExactInv(g, START)
  {
    InitInv(START.s);
  }

  lemma ReachableInv(g: SizeClass, c: Exact)
    requires Reachable(g, c)
    ensures ExactInv(g, c)
  {
    hide ExactInv, Leads;
    StartInv(g);
    LeadsInv(g, START, c, {}, 0);
  }

  lemma {:induction false} PathOrdered(g: SizeClass, run: seq<Exact>, who: seq<int>, n: nat)
    requires IsPath(g, run, who, {}) && n <= |who| && ExactInv(g, run[0]) && Ordered(run[0])
    ensures Ordered(run[n])
  {
    hide ExactInv, ExactStep, Ordered;
    if n > 0 {
      PathOrdered(g, run, who, n - 1);
      PathInv(g, run, who, {}, n - 1, 0);
      assert who[n - 1] == who[n - 1];
      StepOrdered(g, run[n - 1], run[n], who[n - 1]);
    }
  }

  /** In every reachable state the step of a thread is determined, except for the call it makes and what the source
      answers. */
  lemma Deterministic(g: SizeClass, c: Exact, c1: Exact, c2: Exact, t: int)
    requires Reachable(g, c) && !At(c.s, t).Idle? && !At(c.s, t).Asking?
    requires ExactStep(g, c, c1, t) && ExactStep(g, c, c2, t)
    ensures c1 == c2
  {
    hide ExactInv, ExactStep;
    StartInv(g);
    var run, who :| IsPath(g, run, who, {}) && run[0] == START && run[|who|] == c;
    PathOrdered(g, run, who, |who|);
    Determined(g, c, c1, c2, t);
  }

  /** While `t` stands still, the owner of `x` can become another. */
  ghost predicate Movable(g: SizeClass, c: Exact, t: int, x: nat) {
    exists c' {:trigger Leads(g, c, c', {t})} ::
      Leads(g, c, c', {t}) && x in c.s.owner && x in c'.s.owner && c'.s.owner[x] != c.s.owner[x]
  }

  /** A superblock that can be moved later can be moved now. */
  lemma MovesLater(g: SizeClass, c: Exact, c': Exact, t: int, x: nat)
    requires Leads(g, c, c', {t}) && x in c.s.owner && x in c'.s.owner
    requires c'.s.owner[x] != c.s.owner[x] || Movable(g, c', t, x)
    ensures Movable(g, c, t, x)
  {
    hide Leads;
    if c'.s.owner[x] == c.s.owner[x] {
      var z :| Leads(g, c', z, {t}) && x in z.s.owner && z.s.owner[x] != c'.s.owner[x];
      Then(g, c, c', z, {t});
      assert Leads(g, c, z, {t});
    }
  }

  lemma OneStep(g: SizeClass, c: Exact, c': Exact, u: int, t: int)
    requires ExactStep(g, c, c', u) && u != t
    ensures Leads(g, c, c', {t})
  {
    hide ExactStep;
    Stay(g, c, {t});
    Advance(g, c, c, c', u, {t});
  }

  // ---- a thread goes on until it holds no lock of a heap

  /** Steps until a thread holds no lock of a heap, if it gets no full superblock from the global heap. */
  ghost function Rank(s: State, v: int): nat {
    match At(s, v)
    case Fetched(h, x) => if Free(s, x) > 0 then 4 else 11
    case Placing(h, x) => if Free(s, x) > 0 then 3 else 10
    case Allocating(h) => if Exhausted(s, h) then 9 else 2
    case WantGlobal(h) => 8
    case Fetching(h) => 7
    case Missed(h) => 6
    case Asking(h) => 5
    case Leaving(h) => 1
    case Checking(b, o) => 7
    case Freeing(b, o) => 6
    case Freed(b, o) => 5
    case Giving(b, o, x) => 4
    case Handing(b, o, x) => 3
    case Handed(b, o) => 2
    case Finishing(b, o) => 1
    case Retrying(b, o) => 1
    case _ => 0
  }

  lemma RankZero(s: State, v: int)
    ensures Rank(s, v) == 0 <==> HeapsHeld(At(s, v)) == {}
  {
    var pc := At(s, v);
    assert pc.WantGlobal? ==> pc.h in HeapsHeld(pc);
  }

  /** `malloc` may fetch every superblock of the global heap. */
  ghost function Work(s: State, v: int): nat {
    (if BlocksHeld(At(s, v)) == {} then 11 * |Bin(s, GLOBAL)| else 0) + Rank(s, v)
  }

  /** `v` holds no new lock of a heap, but perhaps the global one, and nobody else holds any new one. */
  ghost predicate OnlyGlobal(s: State, s': State, v: int) {
    && (GLOBAL in s'.heapLock ==> s'.heapLock[GLOBAL] == v)
    && (forall h {:trigger h in s'.heapLock} :: h in s'.heapLock && s'.heapLock[h] != v ==>
            h in s.heapLock && s.heapLock[h] == s'.heapLock[h])
    && HeapsHeld(At(s', v)) <= HeapsHeld(At(s, v)) + {GLOBAL} && !At(s', v).WantOwner?
  }

  /** `v` has less to do, in the same call. */
  ghost predicate Driven(c: Exact, c': Exact, v: int) {
    && Work(c'.s, v) < Work(c.s, v) && OnlyGlobal(c.s, c'.s, v)
    && (BlocksHeld(At(c.s, v)) == {} ==> BlocksHeld(At(c'.s, v)) == {})
  }

  /** The global lock is free, or `v` holds it. */
  predicate GlobalFor(s: State, v: int) { GLOBAL in s.heapLock ==> s.heapLock[GLOBAL] == v }

  lemma GlobalSame(c: Exact, c': Exact)
    requires c'.s.place == c.s.place && c'.s.free == c.s.free
    ensures Bin(c'.s, GLOBAL) == Bin(c.s, GLOBAL)
  {
  }

  lemma ServeStep(g: SizeClass, c: Exact, u: int, h: nat, z: nat) returns (c': Exact)
    requires At(c.s, u) == Allocating(h) && Serves(g, c, h, z) && Has(c.s, h, z) && Free(c.s, z) > 0
    ensures ExactStep(g, c, c', u) && c'.cached == c.cached[h := z]
    ensures c'.s == Goto(c.s, u, Leaving(h)).(free := c.s.free[z := Free(c.s, z) - 1])
  {
    hide Serves;
    var s' := Goto(c.s, u, Leaving(h)).(free := c.s.free[z := c.s.free[z] - 1]);
    c' := Cache(c, h, z).(s := s', live := c.live[z := Live(c, z) + 1]);
    assert Allocates(c.s, s', u, h, z);
    assert Served(g, c, c', u, h, z);
  }

  lemma AllocatingOn(g: SizeClass, c: Exact, v: int, h: nat) returns (c': Exact)
    requires ExactInv(g, c) && At(c.s, v) == Allocating(h)
    ensures ExactStep(g, c, c', v) && c'.s.heapLock == c.s.heapLock
    ensures At(c'.s, v) == if Exhausted(c.s, h) then WantGlobal(h) else Leaving(h)
  {
    if Exhausted(c.s, h) {
      c' := Uncache(c, h).(s := Goto(c.s, v, WantGlobal(h)));
    } else {
      var x := ServeExists(g, c, h);
      c' := ServeStep(g, c, v, h, x);
    }
  }

  lemma {:induction false} Above(a: set<int>) returns (u: int)
    ensures 0 < u && u !in a && forall i {:trigger i in a} :: i in a ==> i < u
  {
    if i :| i in a {
      var v := Above(a - {i});
      u := if i < v then v else i + 1;
      forall j {:trigger j in a} | j in a ensures j < u {
        assert j != i ==> j in a - {i};
      }
    } else {
      u := 1;
    }
  }

  lemma NewNumber(a: set<nat>) returns (n: nat)
    ensures n !in a && 0 < n
  {
    var b: set<int> := set i | i in a;
    n := Above(b);
  }

  function Obtained(g: SizeClass, s: State, u: int, h: nat, y: nat): State {
    Goto(s, u, Placing(h, y)).(owner := s.owner[y := h], place := s.place[y := Carried(u)],
                                  free := s.free[y := g.total])
  }

  lemma ObtainStep(g: SizeClass, c: Exact, u: int, h: nat, y: nat)
    requires At(c.s, u) == Asking(h) && y !in c.s.owner
    ensures ExactStep(g, c, c.(s := Obtained(g, c.s, u, h, y), live := c.live[y := 0]), u)
  {
    assert Creates(c.s, Obtained(g, c.s, u, h, y), u, h, y, g.total);
  }

  lemma PlaceStep(g: SizeClass, c: Exact, u: int, h: nat, y: nat) returns (c': Exact)
    requires At(c.s, u) == Placing(h, y)
    ensures ExactStep(g, c, c', u) && c'.cached == c.cached[h := y]
    ensures c'.s == Goto(c.s, u, Allocating(h)).(owner := c.s.owner[y := h], place := c.s.place[y := Listed(h)])
  {
    var s' := Goto(c.s, u, Allocating(h)).(owner := c.s.owner[y := h], place := c.s.place[y := Listed(h)]);
    c' := Cache(c, h, y).(s := s');
  }

  /** The source gives a new superblock. */
  lemma ObtainsOn(g: SizeClass, c: Exact, v: int, h: nat) returns (c': Exact)
    requires At(c.s, v) == Asking(h)
    ensures ExactStep(g, c, c', v) && c'.s.heapLock == c.s.heapLock
    ensures At(c'.s, v).Placing? && At(c'.s, v).h == h && Free(c'.s, At(c'.s, v).x) > 0
  {
    var x := NewNumber(c.s.owner.Keys);
    ObtainStep(g, c, v, h, x);
    c' := c.(s := Obtained(g, c.s, v, h, x), live := c.live[x := 0]);
  }

  lemma FetchesNone(g: SizeClass, c: Exact, v: int, h: nat) returns (c': Exact)
    requires At(c.s, v) == Fetching(h) && GLOBAL !in c.cached && Exhausted(c.s, GLOBAL)
    ensures ExactStep(g, c, c', v) && c' == c.(s := Goto(c.s, v, Missed(h)))
  {
    hide Exhausted;
    c' := c.(s := Goto(c.s, v, Missed(h)));
  }

  lemma FetchesOne(g: SizeClass, c: Exact, v: int, h: nat, x: nat) returns (c': Exact)
    requires At(c.s, v) == Fetching(h) && Picks(g, c, GLOBAL, x) && Has(c.s, GLOBAL, x)
    ensures ExactStep(g, c, c', v) && c'.s.heapLock == c.s.heapLock && At(c'.s, v) == Fetched(h, x)
    ensures c'.s.owner == c.s.owner[x := h] && |Bin(c'.s, GLOBAL)| == |Bin(c.s, GLOBAL)| - 1
  {
    hide Picks;
    var s' := Goto(c.s, v, Fetched(h, x)).(owner := c.s.owner[x := h], place := c.s.place[x := Carried(v)]);
    assert TakesOver(c.s, s', v, h, x);
    c' := c.(s := s', cached := c.cached - {GLOBAL});
    TakenOut(c.s, s', GLOBAL, x, v);
  }

  lemma FetchingOn(g: SizeClass, c: Exact, v: int, h: nat) returns (c': Exact)
    requires ExactInv(g, c) && At(c.s, v) == Fetching(h)
    ensures ExactStep(g, c, c', v) && c'.s.heapLock == c.s.heapLock
    ensures GLOBAL !in c.cached && Exhausted(c.s, GLOBAL) ==>
              At(c'.s, v) == Missed(h) && Bin(c'.s, GLOBAL) == Bin(c.s, GLOBAL)
    ensures !(GLOBAL !in c.cached && Exhausted(c.s, GLOBAL)) ==>
              && At(c'.s, v).Fetched? && At(c'.s, v).h == h && Picks(g, c, GLOBAL, At(c'.s, v).x)
              && |Bin(c'.s, GLOBAL)| < |Bin(c.s, GLOBAL)| && c'.s.owner == c.s.owner[At(c'.s, v).x := h]
  {
    hide ExactInv, ExactStep, Exhausted, Picks;
    if GLOBAL !in c.cached && Exhausted(c.s, GLOBAL) {
      c' := FetchesNone(g, c, v, h);
      GlobalSame(c, c');
    } else {
      var x := PickExists(g, c, GLOBAL);
      c' := FetchesOne(g, c, v, h, x);
    }
  }

  lemma TakenOut(s: State, s': State, h: nat, x: nat, v: int)
    requires Has(s, h, x) && s'.place == s.place[x := Carried(v)] && s'.free == s.free
    ensures Bin(s', h) == Bin(s, h) - {x} && |Bin(s', h)| == |Bin(s, h)| - 1
  {
    assert x in Bin(s, h);
    assert Bin(s', h) == Bin(s, h) - {x};
    assert Bin(s, h) == Bin(s', h)[x := Bin(s, h)[x]];
  }

  /** The next step has a lower rank, in the same call. */
  ghost predicate Nearer(s: State, s': State, v: int) {
    && Rank(s', v) < Rank(s, v) && (BlocksHeld(At(s', v)) == {} <==> BlocksHeld(At(s, v)) == {})
    && OnlyGlobal(s, s', v)
  }

  lemma MallocDrops(g: SizeClass, c: Exact, v: int) returns (c': Exact)
    requires ExactInv(g, c) && GlobalFor(c.s, v) && (At(c.s, v).Fetched? || At(c.s, v).Missed? || At(c.s, v).Leaving?)
    ensures ExactStep(g, c, c', v) && Nearer(c.s, c'.s, v)
  {
    hide ExactInv;
    var s := c.s;
    match At(s, v)
    case Fetched(h, x) => c' := c.(s := Goto(s, v, Placing(h, x)).(heapLock := s.heapLock - {GLOBAL}));
    case Missed(h) => c' := c.(s := Goto(s, v, Asking(h)).(heapLock := s.heapLock - {GLOBAL}));
    case Leaving(h) => c' := c.(s := Goto(s, v, Idle).(heapLock := s.heapLock - {h}));
  }

  lemma FreeDrops(g: SizeClass, c: Exact, v: int) returns (c': Exact)
    requires ExactInv(g, c) && GlobalFor(c.s, v) && (At(c.s, v).Retrying? || At(c.s, v).Finishing?)
    ensures ExactStep(g, c, c', v) && Nearer(c.s, c'.s, v)
  {
    hide ExactInv;
    var s := c.s;
    match At(s, v)
    case Retrying(b, o) => c' := c.(s := Goto(s, v, Reading(b)).(heapLock := s.heapLock - {o}));
    case Finishing(b, o) => c' := c.(s := Goto(s, v, Releasing(b)).(heapLock := s.heapLock - {o}));
  }

  lemma HandedDrops(g: SizeClass, c: Exact, v: int) returns (c': Exact)
    requires ExactInv(g, c) && GlobalFor(c.s, v) && At(c.s, v).Handed?
    ensures ExactStep(g, c, c', v) && Nearer(c.s, c'.s, v)
  {
    hide ExactInv;
    var s := c.s;
    match At(s, v)
    case Handed(b, o) => c' := c.(s := Goto(s, v, Finishing(b, o)).(heapLock := s.heapLock - {GLOBAL}));
  }

  lemma LocksGlobal(g: SizeClass, c: Exact, v: int) returns (c': Exact)
    requires ExactInv(g, c) && GlobalFor(c.s, v) && (At(c.s, v).WantGlobal? || At(c.s, v).Giving?)
    ensures ExactStep(g, c, c', v) && Nearer(c.s, c'.s, v)
    ensures At(c.s, v).Giving? ==> var pc := At(c.s, v);
              c' == c.(s := Goto(c.s, v, Handing(pc.b, pc.o, pc.x)).(heapLock := c.s.heapLock[GLOBAL := v]))
  {
    var s := c.s;
    assert HeapLockOk(s, v, GLOBAL) && ThreadOk(s, v);
    match At(s, v)
    case WantGlobal(h) => c' := c.(s := Goto(s, v, Fetching(h)).(heapLock := s.heapLock[GLOBAL := v]));
    case Giving(b, o, x) => c' := c.(s := Goto(s, v, Handing(b, o, x)).(heapLock := s.heapLock[GLOBAL := v]));
  }

  lemma PlacesOn(g: SizeClass, c: Exact, v: int) returns (c': Exact)
    requires ExactInv(g, c) && GlobalFor(c.s, v) && At(c.s, v).Placing?
    ensures ExactStep(g, c, c', v) && Nearer(c.s, c'.s, v)
  {
    hide ExactInv, ExactStep;
    var h, x := At(c.s, v).h, At(c.s, v).x;
    c' := PlaceStep(g, c, v, h, x);
    assert Has(c'.s, h, x);
  }

  lemma HandsOn(g: SizeClass, c: Exact, v: int) returns (c': Exact)
    requires ExactInv(g, c) && GlobalFor(c.s, v) && At(c.s, v).Handing?
    ensures ExactStep(g, c, c', v) && Nearer(c.s, c'.s, v)
    ensures c'.s.owner == c.s.owner[At(c.s, v).x := GLOBAL]
  {
    hide ExactInv;
    var s, x := c.s, At(c.s, v).x;
    var s' := Goto(s, v, Handed(At(s, v).b, At(s, v).o)).(owner := s.owner[x := GLOBAL],
                                                             place := s.place[x := Listed(GLOBAL)]);
    c' := Cache(c, GLOBAL, x).(s := s');
  }

  /** The owner is read again. */
  lemma LooksOn(g: SizeClass, c: Exact, v: int) returns (c': Exact)
    requires ExactInv(g, c) && GlobalFor(c.s, v) && At(c.s, v).Checking?
    ensures ExactStep(g, c, c', v) && Nearer(c.s, c'.s, v)
  {
    KnowsBlock(g, c, v);
    hide ExactInv;
    var s, b, o := c.s, At(c.s, v).b, At(c.s, v).o;
    c' := c.(s := Goto(s, v, if s.owner[b] == o then Freeing(b, o) else Retrying(b, o)));
  }

  lemma KnowsBlock(g: SizeClass, c: Exact, v: int)
    requires ExactInv(g, c)
    ensures BlocksHeld(At(c.s, v)) <= c.s.owner.Keys && BlocksHeld(At(c.s, v)) <= c.s.free.Keys
  {
    KnowsOwn(c.s, v);
    forall b | b in BlocksHeld(At(c.s, v)) ensures b in c.s.free {
      assert BlockOk(c.s, b);
    }
  }

  /** The object is returned. */
  lemma ReturnsOn(g: SizeClass, c: Exact, v: int) returns (c': Exact)
    requires ExactInv(g, c) && GlobalFor(c.s, v) && At(c.s, v).Freeing?
    ensures ExactStep(g, c, c', v) && Nearer(c.s, c'.s, v)
    ensures var b, o := At(c.s, v).b, At(c.s, v).o;
            b in c.s.free && At(c'.s, v) == Freed(b, o) && c'.s.heapLock == c.s.heapLock
            && c'.s.owner == c.s.owner && c'.s.place == c.s.place && c'.cached == c.cached
            && c'.s.free == c.s.free[b := c.s.free[b] + 1]
  {
    hide ExactInv, Class;
    var s := c.s;
    var b, o := At(s, v).b, At(s, v).o;
    KnowsBlock(g, c, v);
    var s' := Goto(s, v, Freed(b, o)).(free := s.free[b := s.free[b] + 1]);
    c' := (if !IsCached(c, o, b) && Class(g, s', b) != Class(g, s, b) then Enters(c, b) else c).(s := s');
    assert Returns(s, s', v, b, o);
  }

  lemma FreedOn(g: SizeClass, c: Exact, v: int, b: nat, o: nat) returns (c': Exact)
    requires ExactInv(g, c) && At(c.s, v) == Freed(b, o)
    ensures ExactStep(g, c, c', v) && c'.s.heapLock == c.s.heapLock
    ensures if Crossed(g, c.s, o) then At(c'.s, v).Giving? && At(c'.s, v).b == b && At(c'.s, v).o == o
                && Picks(g, c, o, At(c'.s, v).x)
              else At(c'.s, v) == Finishing(b, o)
  {
    hide Inv, Picks;
    if Crossed(g, c.s, o) {
      var x := CrossedPicks(g, c, o);
      var s' := Goto(c.s, v, Giving(b, o, x)).(place := c.s.place[x := Carried(v)]);
      assert TakesOut(c.s, s', v, b, o, x);
      c' := c.(s := s', cached := c.cached - {o});
    } else {
      c' := c.(s := Goto(c.s, v, Finishing(b, o)));
    }
  }

  /** `malloc` leaves the bin of the global heap alone, except that it takes a superblock out of it. */
  lemma GlobalStays(g: SizeClass, c: Exact, c': Exact, v: int)
    requires ExactInv(g, c) && ExactStep(g, c, c', v) && BlocksHeld(At(c.s, v)) == {} && !At(c.s, v).Fetching?
    ensures Bin(c'.s, GLOBAL) == Bin(c.s, GLOBAL)
  {
    hide ExactInv, ExactStep;
    HoldsAt(g, c, v, GLOBAL);
    if HoldsHeap(c.s, v, GLOBAL) {
      PlainSame(g, c, c', v);
      GlobalSame(c, c');
    } else {
      BinUnheld(g, c, c', v, GLOBAL);
    }
  }

  lemma PlainSame(g: SizeClass, c: Exact, c': Exact, v: int)
    requires ExactStep(g, c, c', v) && !Touches(At(c.s, v))
    ensures c'.s.owner == c.s.owner && c'.s.place == c.s.place && c'.s.free == c.s.free
  {
    hide Step;
    StepFrame(c.s, c'.s, v, v);
  }

  lemma HoldsAt(g: SizeClass, c: Exact, t: int, h: nat)
    requires ExactInv(g, c)
    ensures HoldsHeap(c.s, t, h) <==> h in HeapsHeld(At(c.s, t))
    ensures h == GLOBAL && BlocksHeld(At(c.s, t)) == {} && HoldsHeap(c.s, t, h) ==>
              At(c.s, t).Fetching? || At(c.s, t).Fetched? || At(c.s, t).Missed?
  {
    assert HeapLockOk(c.s, t, h) && ThreadOk(c.s, t);
  }

  lemma MallocDrives(g: SizeClass, c: Exact, v: int) returns (c': Exact)
    requires ExactInv(g, c) && Rank(c.s, v) > 0 && BlocksHeld(At(c.s, v)) == {} && GlobalFor(c.s, v)
    ensures ExactStep(g, c, c', v) && Driven(c, c', v)
  {
    hide ExactInv, ExactStep, Picks;
    var pc := At(c.s, v);
    if pc.Fetching? {
      c' := FetchingOn(g, c, v, pc.h);
    } else {
      if pc.Allocating? {
        KnowsAllocating(g, c, v);
        c' := AllocatingOn(g, c, v, pc.h);
      } else if pc.Fetched? || pc.Missed? || pc.Leaving? {
        c' := MallocDrops(g, c, v);
      } else if pc.WantGlobal? {
        c' := LocksGlobal(g, c, v);
      } else if pc.Placing? {
        c' := PlacesOn(g, c, v);
      } else {
        c' := ObtainsOn(g, c, v, pc.h);
      }
      GlobalStays(g, c, c', v);
    }
  }

  lemma KnowsAllocating(g: SizeClass, c: Exact, v: int)
    requires ExactInv(g, c) && At(c.s, v).Allocating? && GlobalFor(c.s, v)
    ensures GLOBAL !in c.s.heapLock
  {
    assert HeapLockOk(c.s, v, GLOBAL) && ThreadOk(c.s, v);
  }

  lemma FreeDrives(g: SizeClass, c: Exact, v: int) returns (c': Exact)
    requires ExactInv(g, c) && Rank(c.s, v) > 0 && BlocksHeld(At(c.s, v)) != {} && GlobalFor(c.s, v)
    ensures ExactStep(g, c, c', v) && Driven(c, c', v)
  {
    hide ExactInv, ExactStep, Crossed, Picks;
    var pc := At(c.s, v);
    if pc.Checking? {
      c' := LooksOn(g, c, v);
    } else if pc.Freeing? {
      c' := ReturnsOn(g, c, v);
    } else if pc.Freed? {
      c' := FreedOn(g, c, v, pc.b, pc.o);
    } else if pc.Giving? {
      c' := LocksGlobal(g, c, v);
    } else if pc.Handing? {
      c' := HandsOn(g, c, v);
    } else if pc.Handed? {
      c' := HandedDrops(g, c, v);
    } else {
      c' := FreeDrops(g, c, v);
    }
  }

  /** A thread that holds a heap's lock, with the global lock free or its own, can go on. */
  lemma Drives(g: SizeClass, c: Exact, v: int) returns (c': Exact)
    requires ExactInv(g, c) && Rank(c.s, v) > 0 && GlobalFor(c.s, v)
    ensures ExactStep(g, c, c', v) && Driven(c, c', v)
  {
    hide ExactInv, ExactStep, Driven;
    if BlocksHeld(At(c.s, v)) == {} {
      c' := MallocDrives(g, c, v);
    } else {
      c' := FreeDrives(g, c, v);
    }
  }

  // ---- no deadlock

  /** A thread that holds no lock of a heap, and waits for none, can go on. */
  lemma OutsideGoesOn(g: SizeClass, c: Exact, u: int) returns (c': Exact)
    requires ExactInv(g, c) && Rank(c.s, u) == 0 && !At(c.s, u).Idle? && !Blocked(c.s, u)
    ensures ExactStep(g, c, c', u)
  {
    KnowsBlock(g, c, u);
    hide ExactInv;
    var s := c.s;
    match At(s, u)
    case WantHeap(h) => c' := c.(s := Goto(s, u, Allocating(h)).(heapLock := s.heapLock[h := u]));
    case WantBlock(b) => c' := c.(s := Goto(s, u, Reading(b)).(blockLock := s.blockLock[b := u]));
    case Reading(b) => c' := c.(s := Goto(s, u, WantOwner(b, s.owner[b])));
    case WantOwner(b, o) => c' := c.(s := Goto(s, u, Checking(b, o)).(heapLock := s.heapLock[o := u]));
    case Releasing(b) => c' := c.(s := Goto(s, u, Idle).(blockLock := s.blockLock - {b}));
  }

  lemma HolderWorks(g: SizeClass, c: Exact, h: nat)
    requires ExactInv(g, c) && h in c.s.heapLock
    ensures var u := c.s.heapLock[h]; Rank(c.s, u) > 0 && !At(c.s, u).Idle?
  {
    var u := c.s.heapLock[h];
    assert HeapLockOk(c.s, u, h);
    RankZero(c.s, u);
  }

  lemma BlockHolderOutside(g: SizeClass, c: Exact, b: nat)
    requires ExactInv(g, c) && c.s.heapLock == map[] && b in c.s.blockLock
    ensures var u := c.s.blockLock[b]; Rank(c.s, u) == 0 && !At(c.s, u).Idle? && !Blocked(c.s, u)
  {
    var u := c.s.blockLock[b];
    assert BlockLockOk(c.s, u, b);
    HoldsNone(g, c, u);
  }

  lemma HoldsNone(g: SizeClass, c: Exact, u: int)
    requires ExactInv(g, c) && c.s.heapLock == map[]
    ensures Rank(c.s, u) == 0
  {
    forall h ensures h !in HeapsHeld(At(c.s, u)) {
      assert HeapLockOk(c.s, u, h);
    }
    assert HeapsHeld(At(c.s, u)) == {};
    RankZero(c.s, u);
  }

  /** As long as some thread has not finished its call, the code can go on: some thread in a call can step. */
  lemma CodeGoesOn(g: SizeClass, c: Exact, t: int) returns (u: int, c': Exact)
    requires Reachable(g, c) && !At(c.s, t).Idle?
    ensures !At(c.s, u).Idle? && ExactStep(g, c, c', u)
  {
    hide ExactInv, ExactStep, Reachable;
    ReachableInv(g, c);
    if h :| h in c.s.heapLock {
      u := c.s.heapLock[if GLOBAL in c.s.heapLock then GLOBAL else h];
      HolderWorks(g, c, if GLOBAL in c.s.heapLock then GLOBAL else h);
      c' := Drives(g, c, u);
    } else {
      HoldsNone(g, c, t);
      u := t;
      if Blocked(c.s, t) {
        u := c.s.blockLock[At(c.s, t).b];
        BlockHolderOutside(g, c, At(c.s, t).b);
      }
      c' := OutsideGoesOn(g, c, u);
    }
  }

  // ---- what the others leave alone

  /** Nothing keeps the lock of the superblock from being released: its holder is not `t`, nor does it wait for a
      lock that `t` holds. */
  ghost predicate Loose(s: State, t: int, y: nat) {
    y in s.blockLock ==>
      var v := s.blockLock[y]; v != t && (At(s, v).WantOwner? ==> !HoldsHeap(s, t, At(s, v).o))
  }

  /** A step of another thread that does not read an owner. */
  lemma StaysLoose(s: State, s': State, v: int, t: int, y: nat)
    requires Inv(s) && Inv(s') && Step(s, s', v) && v != t && Loose(s, t, y) && !At(s', v).WantOwner?
    ensures Loose(s', t, y)
  {
    hide Step;
    StepFrame(s, s', v, t);
    if y in s'.blockLock {
      var w := s'.blockLock[y];
      assert BlockLockOk(s', w, y);
      StepFrame(s, s', v, w);
      if w != v {
        assert BlockLockOk(s, w, y);
        if At(s, w).WantOwner? {
          var o := At(s, w).o;
          assert HeapLockOk(s, t, o) && HeapLockOk(s', t, o);
        }
      } else {
        assert BlockLockOk(s', t, y) && BlockLockOk(s, t, y);
      }
    }
  }

  lemma FetchKeeps(g: SizeClass, c: Exact, c': Exact, v: int, x: nat)
    requires ExactInv(g, c) && ExactStep(g, c, c', v) && Has(c.s, GLOBAL, x) && At(c.s, v).Fetching?
    requires x in c'.s.owner && c'.s.owner[x] == GLOBAL
    ensures Has(c'.s, GLOBAL, x) && Free(c'.s, x) >= Free(c.s, x)
  {
    hide ExactStep, Picks, Exhausted;
    assert ThreadOk(c.s, v);
    FetchCases(g, c, c', v, At(c.s, v).h);
  }

  lemma FreeKeeps(g: SizeClass, c: Exact, c': Exact, v: int, x: nat)
    requires ExactInv(g, c) && ExactStep(g, c, c', v) && Has(c.s, GLOBAL, x)
    requires At(c.s, v).Freeing? || At(c.s, v).Freed?
    ensures At(c.s, v).o == GLOBAL ==> Has(c'.s, GLOBAL, x) && Free(c'.s, x) >= Free(c.s, x)
  {
    hide Inv, ExactStep, Class, Crossed, Picks;
    match At(c.s, v)
    case Freeing(b, o) => FreeCases(g, c, c', v, b, o);
    case Freed(b, o) => GiveCases(g, c, c', v, b, o);
  }

  lemma HandKeeps(g: SizeClass, c: Exact, c': Exact, v: int, x: nat)
    requires ExactInv(g, c) && ExactStep(g, c, c', v) && Has(c.s, GLOBAL, x) && At(c.s, v).Handing?
    ensures Has(c'.s, GLOBAL, x) && Free(c'.s, x) >= Free(c.s, x)
  {
  }

  /** As long as a superblock stays in the global heap, no object of it is taken. */
  lemma GlobalKeeps(g: SizeClass, c: Exact, c': Exact, v: int, x: nat)
    requires ExactInv(g, c) && ExactStep(g, c, c', v) && Has(c.s, GLOBAL, x)
    requires x in c'.s.owner && c'.s.owner[x] == GLOBAL
    ensures Has(c'.s, GLOBAL, x) && Free(c'.s, x) >= Free(c.s, x)
  {
    hide ExactInv, ExactStep;
    HoldsAt(g, c, v, GLOBAL);
    var pc := At(c.s, v);
    if !HoldsHeap(c.s, v, GLOBAL) {
      BinUnheld(g, c, c', v, GLOBAL);
      SameBinHas(c, c', GLOBAL, x);
    } else if !Touches(pc) {
      PlainSame(g, c, c', v);
    } else if pc.Fetching? {
      FetchKeeps(g, c, c', v, x);
    } else if pc.Handing? {
      HandKeeps(g, c, c', v, x);
    } else {
      FreeKeeps(g, c, c', v, x);
    }
  }

  /** `t` is where it was, `x` has its owner, and the heaps outside `held` are as they were. */
  ghost predicate Aside(c: Exact, c': Exact, t: int, x: nat, held: set<nat>) {
    && At(c'.s, t) == At(c.s, t) && x in c.s.owner && x in c'.s.owner && c'.s.owner[x] == c.s.owner[x]
    && (Has(c.s, GLOBAL, x) ==> Has(c'.s, GLOBAL, x) && Free(c'.s, x) >= Free(c.s, x))
    && (forall h {:trigger SameBin(c, c', h)} :: h !in held ==> SameBin(c, c', h))
    && (forall y {:trigger Loose(c'.s, t, y)} :: Loose(c.s, t, y) ==> Loose(c'.s, t, y))
  }

  lemma AsideStep(g: SizeClass, c: Exact, c': Exact, t: int, v: int, x: nat, held: set<nat>)
    requires ExactInv(g, c) && ExactStep(g, c, c', v) && v != t && !At(c'.s, v).WantOwner?
    requires HeapsHeld(At(c.s, v)) <= held && x in c.s.owner && x in c'.s.owner && c'.s.owner[x] == c.s.owner[x]
    ensures Aside(c, c', t, x, held)
  {
    hide Step;
    ExactStepInv(g, c, c', v) by {
      hide ExactInv, ExactStep;
    }
    AsideInv(g, c, c', t, v, x, held);
  }

  lemma AsideInv(g: SizeClass, c: Exact, c': Exact, t: int, v: int, x: nat, held: set<nat>)
    requires ExactInv(g, c) && ExactInv(g, c') && Inv(c.s) && Inv(c'.s)
    requires ExactStep(g, c, c', v) && Step(c.s, c'.s, v) && v != t && !At(c'.s, v).WantOwner?
    requires HeapsHeld(At(c.s, v)) <= held && x in c.s.owner && x in c'.s.owner && c'.s.owner[x] == c.s.owner[x]
    ensures Aside(c, c', t, x, held)
  {
    hide Step, ExactStep, ExactInv, Inv, Loose, SameBin;
    StepFrame(c.s, c'.s, v, t);
    if Has(c.s, GLOBAL, x) {
      InGlobal(g, c, x);
      GlobalKeeps(g, c, c', v, x);
    }
    forall h {:trigger SameBin(c, c', h)} | h !in held ensures SameBin(c, c', h) {
      HoldsAt(g, c, v, h);
      BinUnheld(g, c, c', v, h);
    }
    forall y {:trigger Loose(c'.s, t, y)} | Loose(c.s, t, y) ensures Loose(c'.s, t, y) {
      StaysLoose(c.s, c'.s, v, t, y);
    }
  }

  lemma InGlobal(g: SizeClass, c: Exact, x: nat)
    requires ExactInv(g, c) && Has(c.s, GLOBAL, x) && x in c.s.owner
    ensures c.s.owner[x] == GLOBAL
  {
    assert BlockOk(c.s, x);
  }

  lemma AsideThen(c: Exact, c1: Exact, c2: Exact, t: int, x: nat, held: set<nat>)
    requires Aside(c, c1, t, x, held) && Aside(c1, c2, t, x, held)
    ensures Aside(c, c2, t, x, held)
  {
    hide Loose;
    forall h {:trigger SameBin(c, c2, h)} | h !in held ensures SameBin(c, c2, h) {
      assert SameBin(c, c1, h) && SameBin(c1, c2, h);
    }
    forall y {:trigger Loose(c2.s, t, y)} | Loose(c.s, t, y) ensures Loose(c2.s, t, y) {
      assert Loose(c1.s, t, y);
    }
  }

  lemma AsideSame(c: Exact, t: int, x: nat, held: set<nat>)
    requires x in c.s.owner
    ensures Aside(c, c, t, x, held)
  {
  }

  // ---- letting go

  /** `v` goes on until it holds no lock of a heap: this moves `x`, or leaves it with its owner. */
  lemma {:induction false} Release(g: SizeClass, c: Exact, t: int, v: int, x: nat, held: set<nat>) returns (c': Exact)
    requires ExactInv(g, c) && v != t && GlobalFor(c.s, v) && x in c.s.owner
    requires HeapsHeld(At(c.s, v)) <= held && GLOBAL in held
    ensures Leads(g, c, c', {t}) && (if Rank(c.s, v) > 0 then Work(c'.s, v) < Work(c.s, v) else c' == c)
    ensures Movable(g, c, t, x) || Aside(c, c', t, x, held)
    ensures HeapsHeld(At(c'.s, v)) == {} && GLOBAL !in c'.s.heapLock
    ensures BlocksHeld(At(c.s, v)) == {} ==> BlocksHeld(At(c'.s, v)) == {}
    ensures forall h {:trigger h in c'.s.heapLock} :: h in c'.s.heapLock ==>
              c'.s.heapLock[h] != v && h in c.s.heapLock && c.s.heapLock[h] == c'.s.heapLock[h]
    decreases Work(c.s, v)
  {
    hide ExactInv, ExactStep, Leads, Aside, Movable;
    RankZero(c.s, v);
    if Rank(c.s, v) == 0 {
      c' := c;
      Stay(g, c, {t});
      AsideSame(c, t, x, held);
      ReleasedLocks(g, c, v);
    } else {
      var c1 := Drives(g, c, v);
      OneStep(g, c, c1, v, t);
      LeadsInv(g, c, c1, {t}, x);
      c' := Release(g, c1, t, v, x, held);
      Then(g, c, c1, c', {t});
      ReleaseOn(g, c, c1, c', t, v, x, held);
    }
  }

  lemma ReleaseOn(g: SizeClass, c: Exact, c1: Exact, c': Exact, t: int, v: int, x: nat, held: set<nat>)
    requires ExactInv(g, c) && ExactStep(g, c, c1, v) && v != t && HeapsHeld(At(c.s, v)) <= held
    requires !At(c1.s, v).WantOwner? && Leads(g, c, c1, {t}) && x in c.s.owner && x in c1.s.owner
    requires Movable(g, c1, t, x) || Aside(c1, c', t, x, held)
    ensures Movable(g, c, t, x) || Aside(c, c', t, x, held)
  {
    hide ExactInv, ExactStep, Leads, Movable;
    if c1.s.owner[x] != c.s.owner[x] || Movable(g, c1, t, x) {
      MovesLater(g, c, c1, t, x);
    } else {
      AsideStep(g, c, c1, t, v, x, held);
      AsideThen(c, c1, c', t, x, held);
    }
  }

  lemma ReleasedLocks(g: SizeClass, c: Exact, v: int)
    requires ExactInv(g, c) && HeapsHeld(At(c.s, v)) == {} && GlobalFor(c.s, v)
    ensures GLOBAL !in c.s.heapLock
    ensures forall h {:trigger h in c.s.heapLock} :: h in c.s.heapLock ==> c.s.heapLock[h] != v
  {
    assert HeapLockOk(c.s, v, GLOBAL);
    forall h {:trigger h in c.s.heapLock} | h in c.s.heapLock ensures c.s.heapLock[h] != v {
      assert HeapLockOk(c.s, v, h);
    }
  }

  /** Nobody but `t` holds the lock of a heap. */
  ghost predicate Calm(s: State, t: int) {
    forall h {:trigger h in s.heapLock} :: h in s.heapLock ==> s.heapLock[h] == t
  }

  lemma Smaller(a: set<nat>, b: set<nat>, h: nat)
    requires a <= b && h in b && h !in a
    ensures |a| < |b|
  {
    SubsetSize(a, b - {h});
  }

  lemma {:induction false} SubsetSize(a: set<nat>, b: set<nat>)
    requires a <= b
    ensures |a| <= |b|
  {
    if h :| h in a {
      SubsetSize(a - {h}, b - {h});
    }
  }

  lemma {:induction false} UnlockHeaps(g: SizeClass, c: Exact, t: int, x: nat, held: set<nat>) returns (c': Exact)
    requires ExactInv(g, c) && GLOBAL !in c.s.heapLock && x in c.s.owner && c.s.heapLock.Keys + {GLOBAL} <= held
    ensures Leads(g, c, c', {t}) && Calm(c'.s, t)
    ensures Movable(g, c, t, x) || Aside(c, c', t, x, held)
    decreases |c.s.heapLock.Keys|
  {
    hide ExactInv, Leads, Aside, Movable;
    if h :| h in c.s.heapLock && c.s.heapLock[h] != t {
      var v := c.s.heapLock[h];
      HoldsOnly(g, c, v);
      var c1 := Release(g, c, t, v, x, held);
      LeadsInv(g, c, c1, {t}, x);
      assert c1.s.heapLock.Keys <= c.s.heapLock.Keys;
      Smaller(c1.s.heapLock.Keys, c.s.heapLock.Keys, h);
      c' := UnlockHeaps(g, c1, t, x, held);
      Then(g, c, c1, c', {t});
      AsideLater(g, c, c1, c', t, x, held);
    } else {
      c' := c;
      Stay(g, c, {t});
      AsideSame(c, t, x, held);
    }
  }

  lemma HoldsOnly(g: SizeClass, c: Exact, v: int)
    requires ExactInv(g, c)
    ensures HeapsHeld(At(c.s, v)) <= c.s.heapLock.Keys
  {
    forall h | h in HeapsHeld(At(c.s, v)) ensures h in c.s.heapLock {
      assert HeapLockOk(c.s, v, h);
    }
  }

  lemma AsideLater(g: SizeClass, c: Exact, c1: Exact, c2: Exact, t: int, x: nat, held: set<nat>)
    requires Leads(g, c, c1, {t}) && x in c.s.owner && x in c1.s.owner
    requires Movable(g, c, t, x) || Aside(c, c1, t, x, held)
    requires Movable(g, c1, t, x) || Aside(c1, c2, t, x, held)
    ensures Movable(g, c, t, x) || Aside(c, c2, t, x, held)
  {
    hide Leads, Movable;
    if !Movable(g, c, t, x) {
      if Movable(g, c1, t, x) {
        MovesLater(g, c, c1, t, x);
      } else {
        AsideThen(c, c1, c2, t, x, held);
      }
    }
  }

  /** All other threads let go of the heaps: this moves `x`, or leaves it with its owner. */
  lemma Unlock(g: SizeClass, c: Exact, t: int, x: nat) returns (c': Exact)
    requires ExactInv(g, c) && !HoldsHeap(c.s, t, GLOBAL) && x in c.s.owner
    ensures Leads(g, c, c', {t}) && Calm(c'.s, t)
    ensures Movable(g, c, t, x) || Aside(c, c', t, x, c.s.heapLock.Keys + {GLOBAL})
  {
    hide ExactInv, Leads, Aside, Movable;
    var held := c.s.heapLock.Keys + {GLOBAL};
    if GLOBAL in c.s.heapLock {
      var v := c.s.heapLock[GLOBAL];
      HoldsOnly(g, c, v);
      var c1 := Release(g, c, t, v, x, held);
      LeadsInv(g, c, c1, {t}, x);
      c' := UnlockHeaps(g, c1, t, x, held);
      Then(g, c, c1, c', {t});
      AsideLater(g, c, c1, c', t, x, held);
    } else {
      c' := UnlockHeaps(g, c, t, x, held);
    }
  }

  // ---- one call of malloc by a newcomer

  /** A thread that has done nothing yet. */
  lemma Newcomer(s: State, t: int) returns (u: int)
    ensures u != t && u !in s.pcs && At(s, u) == Idle
  {
    u := Above(s.pcs.Keys + {t});
  }

  /** The same locks are held, and every thread is where it was. */
  ghost predicate SameThreads(s: State, s': State) {
    s'.heapLock == s.heapLock && s'.blockLock == s.blockLock && forall v {:trigger At(s', v)} :: At(s', v) == At(s, v)
  }

  lemma Twice<K, V>(m: map<K, V>, k: K, a: V, b: V)
    ensures m[k := a][k := b] == m[k := b] && (m - {k})[k := b] == m[k := b]
  {
  }

  lemma LockedOnce(l: map<nat, int>, h: nat, u: int)
    requires h !in l
    ensures l[h := u] - {h} == l
  {
  }

  lemma ExhaustedSame(s: State, s': State, h: nat)
    requires s'.place == s.place && s'.free == s.free
    ensures Exhausted(s', h) <==> Exhausted(s, h)
  {
    forall x ensures Has(s', h, x) <==> Has(s, h, x) {
    }
    forall x ensures Free(s', x) == Free(s, x) {
    }
  }

  lemma CallStep(g: SizeClass, c: Exact, u: int, h: nat)
    requires At(c.s, u) == Idle && h != GLOBAL
    ensures ExactStep(g, c, c.(s := Goto(c.s, u, WantHeap(h))), u)
  {
  }

  lemma LockStep(g: SizeClass, c: Exact, u: int, h: nat)
    requires At(c.s, u) == WantHeap(h) && h !in c.s.heapLock
    ensures ExactStep(g, c, c.(s := Goto(c.s, u, Allocating(h)).(heapLock := c.s.heapLock[h := u])), u)
  {
  }

  lemma Begins(g: SizeClass, c: Exact, t: int, h: nat) returns (u: int, c': Exact)
    requires h != GLOBAL && h !in c.s.heapLock
    ensures u != t && u !in c.s.pcs && Leads(g, c, c', {t})
    ensures c' == c.(s := Goto(c.s, u, Allocating(h)).(heapLock := c.s.heapLock[h := u]))
  {
    hide Leads, ExactStep;
    u := Newcomer(c.s, t);
    var c1 := c.(s := Goto(c.s, u, WantHeap(h)));
    CallStep(g, c, u, h);
    OneStep(g, c, c1, u, t);
    c' := c1.(s := Goto(c1.s, u, Allocating(h)).(heapLock := c1.s.heapLock[h := u]));
    LockStep(g, c1, u, h);
    Advance(g, c, c1, c', u, {t});
    Twice(c.s.pcs, u, WantHeap(h), Allocating(h));
  }

  lemma Leaves(g: SizeClass, c: Exact, t: int, u: int, h: nat) returns (c': Exact)
    requires At(c.s, u) == Leaving(h) && u != t
    ensures Leads(g, c, c', {t}) && c' == c.(s := Goto(c.s, u, Idle).(heapLock := c.s.heapLock - {h}))
  {
    hide Leads;
    c' := c.(s := Goto(c.s, u, Idle).(heapLock := c.s.heapLock - {h}));
    OneStep(g, c, c', u, t);
  }

  /** In its bins, with a superblock that has an object. */
  lemma Takes(g: SizeClass, c: Exact, t: int, u: int, h: nat, z: nat) returns (c': Exact)
    requires At(c.s, u) == Allocating(h) && u != t && Serves(g, c, h, z) && Has(c.s, h, z) && Free(c.s, z) > 0
    ensures Leads(g, c, c', {t})
    ensures c'.s == Goto(c.s, u, Idle).(heapLock := c.s.heapLock - {h}, free := c.s.free[z := Free(c.s, z) - 1])
    ensures c'.cached == c.cached[h := z]
  {
    hide Leads, Serves, ExactStep;
    var c1 := ServeStep(g, c, u, h, z);
    OneStep(g, c, c1, u, t);
    c' := Leaves(g, c1, t, u, h);
    Then(g, c, c1, c', {t});
    Twice(c.s.pcs, u, Leaving(h), Idle);
  }

  lemma ServesSame(g: SizeClass, c: Exact, c': Exact, h: nat, z: nat)
    requires c'.s.place == c.s.place && c'.s.free == c.s.free && c' == c.(s := c'.s)
    ensures Serves(g, c', h, z) <==> Serves(g, c, h, z)
  {
    forall x, y ensures Ahead(g, c', x, y) <==> Ahead(g, c, x, y) {
    }
    forall y ensures Offers(c', h, y) <==> Offers(c, h, y) {
    }
  }

  /** `malloc` from a heap that has an object. */
  lemma Hit(g: SizeClass, c: Exact, t: int, o: nat) returns (z: nat, c': Exact)
    requires ExactInv(g, c) && o != GLOBAL && o !in c.s.heapLock && !Exhausted(c.s, o)
    ensures Leads(g, c, c', {t}) && SameThreads(c.s, c'.s)
    ensures Serves(g, c, o, z) && Has(c.s, o, z) && Free(c.s, z) > 0
    ensures c'.s.owner == c.s.owner && c'.s.place == c.s.place && c'.cached == c.cached[o := z]
    ensures c'.s.free == c.s.free[z := Free(c.s, z) - 1]
  {
    z := ServeExists(g, c, o);
    hide ExactInv, Leads, Serves;
    var u, c1 := Begins(g, c, t, o);
    ServesSame(g, c, c1, o, z);
    c' := Takes(g, c1, t, u, o, z);
    Then(g, c, c1, c', {t});
    LockedOnce(c.s.heapLock, o, u);
  }

  /** The heap has no object: the thread turns to the global heap. */
  lemma TurnsToGlobal(g: SizeClass, c: Exact, t: int, u: int, h: nat) returns (c': Exact)
    requires At(c.s, u) == Allocating(h) && u != t && Exhausted(c.s, h) && GLOBAL !in c.s.heapLock
    ensures Leads(g, c, c', {t})
    ensures c' == Uncache(c, h).(s := Goto(c.s, u, Fetching(h)).(heapLock := c.s.heapLock[GLOBAL := u]))
  {
    hide Leads, Exhausted;
    var c1 := Uncache(c, h).(s := Goto(c.s, u, WantGlobal(h)));
    OneStep(g, c, c1, u, t);
    c' := c1.(s := Goto(c.s, u, Fetching(h)).(heapLock := c.s.heapLock[GLOBAL := u]));
    assert TakesHeap(c1.s, c'.s, u, GLOBAL, Fetching(h));
    Advance(g, c, c1, c', u, {t});
  }

  /** The global heap has nothing to give. */
  lemma FindsNothing(g: SizeClass, c: Exact, t: int, u: int, h: nat) returns (c': Exact)
    requires At(c.s, u) == Fetching(h) && u != t && GLOBAL !in c.cached && Exhausted(c.s, GLOBAL)
    ensures Leads(g, c, c', {t}) && c' == c.(s := Goto(c.s, u, Asking(h)).(heapLock := c.s.heapLock - {GLOBAL}))
  {
    hide Leads, Exhausted;
    var c1 := FetchesNone(g, c, u, h);
    OneStep(g, c, c1, u, t);
    c' := c.(s := Goto(c.s, u, Asking(h)).(heapLock := c.s.heapLock - {GLOBAL}));
    assert DropsHeap(c1.s, c'.s, u, GLOBAL, Asking(h));
    Advance(g, c, c1, c', u, {t});
  }

  /** A new superblock in its bins. */
  lemma GetsNew(g: SizeClass, c: Exact, t: int, u: int, h: nat, y: nat) returns (c': Exact)
    requires At(c.s, u) == Asking(h) && u != t && y !in c.s.owner
    ensures Leads(g, c, c', {t}) && c'.cached == c.cached[h := y]
    ensures c'.s == Goto(c.s, u, Allocating(h)).(owner := c.s.owner[y := h], place := c.s.place[y := Listed(h)],
                                                    free := c.s.free[y := g.total])
  {
    hide Leads, ExactStep;
    var c1 := c.(s := Obtained(g, c.s, u, h, y), live := c.live[y := 0]);
    ObtainStep(g, c, u, h, y);
    OneStep(g, c, c1, u, t);
    c' := PlaceStep(g, c1, u, h, y);
    Advance(g, c, c1, c', u, {t});
    Twice(c.s.pcs, u, Placing(h, y), Allocating(h));
    Twice(c.s.owner, y, h, h);
    Twice(c.s.place, y, Carried(u), Listed(h));
  }

  /** `malloc` from an exhausted heap, with nothing in the global heap, comes to the source. */
  lemma Asks(g: SizeClass, c: Exact, t: int, o: nat) returns (u: int, c': Exact)
    requires o != GLOBAL && o !in c.s.heapLock && GLOBAL !in c.s.heapLock && Exhausted(c.s, o)
    requires GLOBAL !in c.cached && Exhausted(c.s, GLOBAL)
    ensures u != t && u !in c.s.pcs && Leads(g, c, c', {t}) && c'.cached == c.cached - {o}
    ensures c'.s == Goto(c.s, u, Asking(o)).(heapLock := c.s.heapLock[o := u])
  {
    hide Leads, Exhausted;
    var c1;
    u, c1 := Begins(g, c, t, o);
    ExhaustedSame(c.s, c1.s, o);
    var c2 := TurnsToGlobal(g, c1, t, u, o);
    Then(g, c, c1, c2, {t});
    ExhaustedSame(c.s, c2.s, GLOBAL);
    c' := FindsNothing(g, c2, t, u, o);
    Then(g, c, c2, c', {t});
    LockedOnce(c1.s.heapLock, GLOBAL, u);
    Twice(c.s.pcs, u, Allocating(o), Fetching(o));
    Twice(c.s.pcs, u, Fetching(o), Asking(o));
  }

  /** It gets a new superblock. */
  lemma Miss(g: SizeClass, c: Exact, t: int, o: nat) returns (y: nat, c': Exact)
    requires o != GLOBAL && o !in c.s.heapLock && GLOBAL !in c.s.heapLock && Exhausted(c.s, o)
    requires GLOBAL !in c.cached && Exhausted(c.s, GLOBAL)
    ensures Leads(g, c, c', {t}) && SameThreads(c.s, c'.s) && y !in c.s.owner
    ensures c'.s.owner == c.s.owner[y := o] && c'.s.place == c.s.place[y := Listed(o)]
    ensures c'.s.free == c.s.free[y := g.total - 1] && c'.cached == c.cached[o := y]
  {
    hide Leads, Exhausted, Serves;
    var u, c3 := Asks(g, c, t, o);
    y := NewNumber(c.s.owner.Keys);
    var c4 := GetsNew(g, c3, t, u, o, y);
    Then(g, c, c3, c4, {t});
    JustServes(g, c4, o, y);
    c' := Takes(g, c4, t, u, o, y);
    Then(g, c, c4, c', {t});
    LockedOnce(c.s.heapLock, o, u);
    Twice(c.s.free, y, g.total, g.total - 1);
    Twice(c.cached, o, y, y);
    Twice(c3.cached, o, y, y);
    Idles(c.s, c'.s, u, Asking(o), Allocating(o));
  }

  lemma Idles(s: State, s': State, u: int, a: PC, b: PC)
    requires u !in s.pcs && s'.pcs == s.pcs[u := a][u := b][u := Idle]
    ensures forall v {:trigger At(s', v)} :: At(s', v) == At(s, v)
  {
  }

  lemma JustServes(g: SizeClass, c: Exact, h: nat, y: nat)
    requires IsCached(c, h, y) && Free(c.s, y) > 0
    ensures Serves(g, c, h, y)
  {
  }

  // ---- one object returned

  /** The heaps are as they were, and `t` is where it was. */
  ghost predicate Still(c: Exact, c': Exact, t: int) {
    && c'.s.owner == c.s.owner && c'.s.place == c.s.place && c'.s.free == c.s.free && c'.s.heapLock == c.s.heapLock
    && c'.cached == c.cached && LooseAfter(c.s, c'.s, t)
  }

  ghost predicate LooseAfter(s: State, s': State, t: int) {
    At(s', t) == At(s, t) && forall y {:trigger Loose(s', t, y)} :: Loose(s, t, y) ==> Loose(s', t, y)
  }

  lemma StillThen(c: Exact, c1: Exact, c2: Exact, t: int)
    requires LooseAfter(c.s, c1.s, t) && LooseAfter(c1.s, c2.s, t)
    ensures LooseAfter(c.s, c2.s, t)
  {
    hide Loose;
    forall y {:trigger Loose(c2.s, t, y)} | Loose(c.s, t, y) ensures Loose(c2.s, t, y) {
      assert Loose(c1.s, t, y);
    }
  }

  lemma LooseStep(g: SizeClass, c: Exact, c': Exact, v: int, t: int)
    requires ExactInv(g, c) && ExactStep(g, c, c', v) && v != t && !At(c'.s, v).WantOwner?
    ensures LooseAfter(c.s, c'.s, t) && ExactInv(g, c') && Leads(g, c, c', {t})
  {
    hide Step, Loose, Leads, Inv;
    OneStep(g, c, c', v, t);
    LeadsInv(g, c, c', {t}, 0);
    StepFrame(c.s, c'.s, v, t);
    forall y {:trigger Loose(c'.s, t, y)} | Loose(c.s, t, y) ensures Loose(c'.s, t, y) {
      StaysLoose(c.s, c'.s, v, t, y);
    }
  }

  /** A thread with an object of `y` to return comes to the lock of `y`, which is free. */
  lemma LocksBlock(g: SizeClass, c: Exact, t: int, v: int, y: nat) returns (c': Exact)
    requires ExactInv(g, c) && At(c.s, v) == WantBlock(y) && v != t && y !in c.s.blockLock
    ensures Leads(g, c, c', {t}) && ExactInv(g, c') && Still(c, c', t)
    ensures At(c'.s, v) == Reading(y)
  {
    hide ExactInv, Leads;
    c' := c.(s := Goto(c.s, v, Reading(y)).(blockLock := c.s.blockLock[y := v]));
    assert TakesBlock(c.s, c'.s, v, y, Reading(y));
    LooseStep(g, c, c', v, t);
  }

  lemma CallsFree(g: SizeClass, c: Exact, t: int, y: nat) returns (v: int, c': Exact)
    requires ExactInv(g, c) && y in c.s.owner && Live(c, y) > 0
    ensures v != t && Leads(g, c, c', {t}) && ExactInv(g, c') && Still(c, c', t)
    ensures At(c'.s, v) == WantBlock(y) && c'.s.blockLock == c.s.blockLock
  {
    hide ExactInv, Leads;
    v := Newcomer(c.s, t);
    c' := c.(s := Goto(c.s, v, WantBlock(y)), live := c.live[y := Live(c, y) - 1]);
    LooseStep(g, c, c', v, t);
  }

  lemma Unlocks(g: SizeClass, c: Exact, t: int, v: int, y: nat) returns (c': Exact)
    requires ExactInv(g, c) && At(c.s, v) == Releasing(y) && v != t
    ensures Leads(g, c, c', {t}) && ExactInv(g, c') && Still(c, c', t)
    ensures y !in c'.s.blockLock && c'.s.pcs == c.s.pcs[v := Idle] && c'.live == c.live
  {
    hide ExactInv, Leads;
    c' := c.(s := Goto(c.s, v, Idle).(blockLock := c.s.blockLock - {y}));
    LooseStep(g, c, c', v, t);
  }

  /** Someone other than `t` has an object of `y` to return. */
  lemma OtherPends(g: SizeClass, c: Exact, t: int, y: nat) returns (v: int)
    requires ExactInv(g, c) && y in c.s.owner && Live(c, y) == 0
    requires Free(c.s, y) + (if Pends(At(c.s, t), y) then 1 else 0) < g.total
    ensures v != t && Pends(At(c.s, v), y)
  {
    var p := Pending(c.s, y) - {t};
    assert CountOk(g, c, y);
    assert t in Pending(c.s, y) <==> Pends(At(c.s, t), y);
    assert t !in Pending(c.s, y) ==> p == Pending(c.s, y);
    v := SomeOf(p);
  }

  lemma SomeOf(p: set<int>) returns (v: int)
    requires p != {}
    ensures v in p
  {
    assert (forall w :: w !in p) ==> p == {};
    v :| v in p;
  }

  lemma PendsWaits(g: SizeClass, c: Exact, v: int, y: nat)
    requires ExactInv(g, c) && Pends(At(c.s, v), y) && y !in c.s.blockLock
    ensures At(c.s, v) == WantBlock(y)
  {
    assert BlockLockOk(c.s, v, y);
  }

  /** With the lock of `y` free, another thread comes to read its owner. */
  lemma Arrives(g: SizeClass, c: Exact, t: int, y: nat) returns (v: int, c': Exact)
    requires ExactInv(g, c) && y in c.s.owner && y !in c.s.blockLock
    requires Free(c.s, y) + (if Pends(At(c.s, t), y) then 1 else 0) < g.total
    ensures v != t && Leads(g, c, c', {t}) && ExactInv(g, c') && Still(c, c', t)
    ensures At(c'.s, v) == Reading(y)
  {
    hide ExactInv, Leads;
    if Live(c, y) > 0 {
      var c1;
      v, c1 := CallsFree(g, c, t, y);
      c' := LocksBlock(g, c1, t, v, y);
      Then(g, c, c1, c', {t});
      StillThen(c, c1, c', t);
    } else {
      v := OtherPends(g, c, t, y);
      PendsWaits(g, c, v, y);
      c' := LocksBlock(g, c, t, v, y);
    }
  }

  /** It looks again at an owner that has changed. */
  lemma LooksAgain(g: SizeClass, c: Exact, t: int, v: int, y: nat, o: nat) returns (c': Exact)
    requires ExactInv(g, c) && At(c.s, v) == WantOwner(y, o) && v != t && o !in c.s.heapLock
    requires y in c.s.owner && c.s.owner[y] != o
    ensures Leads(g, c, c', {t}) && ExactInv(g, c') && Still(c, c', t)
    ensures At(c'.s, v) == Reading(y)
  {
    hide ExactInv, Leads, Loose;
    var s := c.s;
    var c1 := c.(s := Goto(s, v, Checking(y, o)).(heapLock := s.heapLock[o := v]));
    assert TakesHeap(s, c1.s, v, o, Checking(y, o));
    LooseStep(g, c, c1, v, t);
    var c2 := c1.(s := Goto(c1.s, v, Retrying(y, o)));
    LooseStep(g, c1, c2, v, t);
    Then(g, c, c1, c2, {t});
    StillThen(c, c1, c2, t);
    c' := c2.(s := Goto(c2.s, v, Reading(y)).(heapLock := c2.s.heapLock - {o}));
    LooseStep(g, c2, c', v, t);
    Then(g, c, c2, c', {t});
    StillThen(c, c2, c', t);
    LockedOnce(s.heapLock, o, v);
  }

  lemma Reads(g: SizeClass, c: Exact, t: int, v: int, y: nat) returns (c': Exact)
    requires ExactInv(g, c) && At(c.s, v) == Reading(y) && v != t && y in c.s.owner && !HoldsHeap(c.s, t, c.s.owner[y])
    ensures Leads(g, c, c', {t}) && ExactInv(g, c') && Still(c, c', t)
    ensures At(c'.s, v) == WantOwner(y, c.s.owner[y])
  {
    hide ExactInv, Leads;
    c' := c.(s := Goto(c.s, v, WantOwner(y, c.s.owner[y])));
    OneStep(g, c, c', v, t);
    LeadsInv(g, c, c', {t}, 0);
    forall z {:trigger Loose(c'.s, t, z)} | Loose(c.s, t, z) ensures Loose(c'.s, t, z) {
      OwnOnly(g, c, v, z);
    }
  }

  lemma OwnOnly(g: SizeClass, c: Exact, v: int, z: nat)
    requires ExactInv(g, c)
    ensures z in c.s.blockLock && c.s.blockLock[z] == v ==> z in BlocksHeld(At(c.s, v))
  {
    assert BlockLockOk(c.s, v, z);
  }

  /** In a calm state the holder of the lock of `y` has not come to its owner's lock, or is past it. */
  lemma HolderAt(g: SizeClass, c: Exact, t: int, y: nat)
    requires ExactInv(g, c) && Calm(c.s, t) && y in c.s.blockLock && c.s.blockLock[y] != t
    ensures var pc := At(c.s, c.s.blockLock[y]);
            pc == Reading(y) || pc == Releasing(y) || (pc.WantOwner? && pc.b == y)
  {
    var v := c.s.blockLock[y];
    assert BlockLockOk(c.s, v, y);
    forall h ensures h !in HeapsHeld(At(c.s, v)) {
      assert HeapLockOk(c.s, v, h);
    }
    assert HeapsHeld(At(c.s, v)) == {};
  }

  /** Some thread other than `t` can come to read the owner of `y`. */
  lemma Approaches(g: SizeClass, c: Exact, t: int, y: nat) returns (v: int, c': Exact)
    requires ExactInv(g, c) && Calm(c.s, t) && Loose(c.s, t, y) && y in c.s.owner
    requires Free(c.s, y) + (if Pends(At(c.s, t), y) then 1 else 0) < g.total
    ensures v != t && Leads(g, c, c', {t}) && ExactInv(g, c') && Still(c, c', t)
    ensures At(c'.s, v) == Reading(y) || At(c'.s, v) == WantOwner(y, c.s.owner[y])
  {
    hide ExactInv, Leads;
    if y in c.s.blockLock {
      v := c.s.blockLock[y];
      HolderAt(g, c, t, y);
      match At(c.s, v)
      case Releasing(_) =>
        var c1 := Unlocks(g, c, t, v, y);
        v, c' := Arrives(g, c1, t, y);
        Then(g, c, c1, c', {t});
        StillThen(c, c1, c', t);
      case WantOwner(_, o) =>
        if o == c.s.owner[y] {
          c' := c;
          Stay(g, c, {t});
        } else {
          c' := LooksAgain(g, c, t, v, y, o);
        }
      case Reading(_) =>
        c' := c;
        Stay(g, c, {t});
    } else {
      v, c' := Arrives(g, c, t, y);
    }
  }

  lemma ToOwner(g: SizeClass, c: Exact, t: int, y: nat) returns (v: int, c': Exact)
    requires ExactInv(g, c) && Calm(c.s, t) && Loose(c.s, t, y) && y in c.s.owner && !HoldsHeap(c.s, t, c.s.owner[y])
    requires Free(c.s, y) + (if Pends(At(c.s, t), y) then 1 else 0) < g.total
    ensures v != t && Leads(g, c, c', {t}) && ExactInv(g, c') && Still(c, c', t)
    ensures At(c'.s, v) == WantOwner(y, c.s.owner[y])
  {
    hide ExactInv, Leads, Loose;
    v, c' := Approaches(g, c, t, y);
    if At(c'.s, v) == Reading(y) {
      var c1 := c';
      c' := Reads(g, c1, t, v, y);
      Then(g, c, c1, c', {t});
      StillThen(c, c1, c', t);
    }
  }

  /** One more object of `y` is free, and `v` holds the lock of its owner. */
  ghost predicate Returned(c: Exact, c': Exact, t: int, v: int, y: nat, o: nat) {
    && At(c'.s, v) == Freed(y, o) && c'.s.heapLock == c.s.heapLock[o := v] && LooseAfter(c.s, c'.s, t)
    && c'.s.owner == c.s.owner && c'.s.place == c.s.place && c'.cached == c.cached
    && c'.s.free == c.s.free[y := Free(c.s, y) + 1]
  }

  lemma Passes(g: SizeClass, c: Exact, t: int, v: int, y: nat, o: nat) returns (c': Exact)
    requires ExactInv(g, c) && At(c.s, v) == WantOwner(y, o) && v != t && o !in c.s.heapLock && GLOBAL !in c.s.heapLock
    requires y in c.s.owner && c.s.owner[y] == o
    ensures Leads(g, c, c', {t}) && ExactInv(g, c') && Returned(c, c', t, v, y, o)
  {
    hide ExactInv, Leads, Loose;
    var s := c.s;
    var c1 := c.(s := Goto(s, v, Checking(y, o)).(heapLock := s.heapLock[o := v]));
    assert TakesHeap(s, c1.s, v, o, Checking(y, o));
    LooseStep(g, c, c1, v, t);
    var c2 := c1.(s := Goto(c1.s, v, Freeing(y, o)));
    LooseStep(g, c1, c2, v, t);
    Then(g, c, c1, c2, {t});
    StillThen(c, c1, c2, t);
    c' := ReturnsOn(g, c2, v);
    LooseStep(g, c2, c', v, t);
    Then(g, c, c2, c', {t});
    StillThen(c, c2, c', t);
  }

  /** Some thread other than `t` can return an object of `y`. */
  lemma FreesOne(g: SizeClass, c: Exact, t: int, y: nat) returns (v: int, c': Exact)
    requires ExactInv(g, c) && Calm(c.s, t) && Loose(c.s, t, y) && y in c.s.owner
    requires !HoldsHeap(c.s, t, c.s.owner[y]) && !HoldsHeap(c.s, t, GLOBAL)
    requires Free(c.s, y) + (if Pends(At(c.s, t), y) then 1 else 0) < g.total
    ensures v != t && Leads(g, c, c', {t}) && ExactInv(g, c') && Returned(c, c', t, v, y, c.s.owner[y])
  {
    hide ExactInv, Leads, Loose;
    var c1;
    v, c1 := ToOwner(g, c, t, y);
    c' := Passes(g, c1, t, v, y, c.s.owner[y]);
    Then(g, c, c1, c', {t});
    StillThen(c, c1, c', t);
  }

  /** The heap has not crossed its threshold. */
  lemma Finishes(g: SizeClass, c: Exact, t: int, v: int, b: nat, o: nat) returns (c': Exact)
    requires ExactInv(g, c) && At(c.s, v) == Freed(b, o) && v != t && !Crossed(g, c.s, o)
    ensures Leads(g, c, c', {t}) && ExactInv(g, c') && LooseAfter(c.s, c'.s, t)
    ensures c'.s.owner == c.s.owner && c'.s.place == c.s.place && c'.s.free == c.s.free && c'.cached == c.cached
    ensures c'.s.heapLock == c.s.heapLock - {o}
  {
    hide ExactInv, Leads, Loose, Crossed;
    var c1 := c.(s := Goto(c.s, v, Finishing(b, o)));
    LooseStep(g, c, c1, v, t);
    c' := c1.(s := Goto(c1.s, v, Releasing(b)).(heapLock := c1.s.heapLock - {o}));
    LooseStep(g, c1, c', v, t);
    Then(g, c, c1, c', {t});
    StillThen(c, c1, c', t);
  }

  lemma HasOwner(g: SizeClass, c: Exact, h: nat, x: nat)
    requires ExactInv(g, c) && Has(c.s, h, x)
    ensures x in c.s.owner && c.s.owner[x] == h
  {
    assert BlockOk(c.s, x);
  }

  lemma CachedHas(g: SizeClass, c: Exact, h: nat, x: nat)
    requires ExactInv(g, c) && IsCached(c, h, x)
    ensures Has(c.s, h, x)
  {
    assert CachedOk(c, h);
  }

  /** The heap has crossed its threshold: it gives up the cached superblock. */
  lemma HandsOver(g: SizeClass, c: Exact, t: int, v: int, b: nat, o: nat, x: nat)
    requires ExactInv(g, c) && At(c.s, v) == Freed(b, o) && v != t && Crossed(g, c.s, o)
    requires IsCached(c, o, x) && GLOBAL !in c.s.heapLock
    ensures Movable(g, c, t, x)
  {
    CachedHas(g, c, o, x);
    HasOwner(g, c, o, x);
    hide ExactInv, ExactStep, Leads, Loose;
    var c1 := FreedOn(g, c, v, b, o);
    OneStep(g, c, c1, v, t);
    LeadsInv(g, c, c1, {t}, x);
    var c2 := LocksGlobal(g, c1, v);
    Advance(g, c, c1, c2, v, {t});
    LeadsInv(g, c, c2, {t}, x);
    var c3 := HandsOn(g, c2, v);
    Advance(g, c, c2, c3, v, {t});
    LeadsInv(g, c, c3, {t}, x);
    MovesLater(g, c, c3, t, x);
  }

  // ---- the statistics

  function Part(s: State, a: set<nat>): map<nat, nat> { map y | y in a :: Free(s, y) }

  lemma InUsePut(g: SizeClass, m: map<nat, nat>, y: nat, n: nat)
    requires y in m
    ensures InUse(g, m[y := n]) == InUse(g, m) + m[y] - n && Held(g, m[y := n]) == Held(g, m)
  {
    B.SumsPut(g.total, m, y, n);
    B.FreeOf(m, y);
    B.ObjectsOf(g.total, m, y);
  }

  lemma BinPut(s: State, s': State, h: nat, y: nat, n: nat)
    requires Has(s, h, y) && s'.place == s.place && s'.free == s.free[y := n]
    ensures y in Bin(s, h) && Bin(s, h)[y] == Free(s, y) && Bin(s', h) == Bin(s, h)[y := n]
  {
  }

  lemma PartPut(s: State, s': State, a: set<nat>, y: nat, n: nat)
    requires y in a && s'.free == s.free[y := n]
    ensures y in Part(s, a) && Part(s, a)[y] == Free(s, y) && Part(s', a) == Part(s, a)[y := n]
  {
  }

  /** With objects in use, some superblock is not empty. */
  lemma {:induction false} SomeUsed(g: SizeClass, m: map<nat, nat>) returns (y: nat)
    requires InUse(g, m) > 0
    ensures y in m && m[y] < g.total
    decreases |m|
  {
    var r :| r in m && B.FreeObjects(m) == m[r] + B.FreeObjects(m - {r});
    B.ObjectsOf(g.total, m, r);
    if m[r] < g.total {
      y := r;
    } else {
      y := SomeUsed(g, m - {r});
    }
  }

  // ---- ways to move a superblock

  /** All objects of `y` that are in use can be returned while `t` stands still. */
  ghost predicate Ready(s: State, t: int, o: nat, y: nat) { Has(s, o, y) && Loose(s, t, y) && !Pends(At(s, t), y) }

  /** `x` is cached, and enough objects of other superblocks can be returned for its heap to cross the threshold. */
  lemma {:induction false} FreesDown(g: SizeClass, c: Exact, t: int, o: nat, x: nat, a: set<nat>)
    requires ExactInv(g, c) && Calm(c.s, t) && o != GLOBAL && !HoldsHeap(c.s, t, o) && !HoldsHeap(c.s, t, GLOBAL)
    requires IsCached(c, o, x) && InUse(g, Part(c.s, a)) > 0
    requires forall y {:trigger Ready(c.s, t, o, y)} :: y in a ==> Ready(c.s, t, o, y)
    requires M.Threshold(InUse(g, Bin(c.s, o)) - InUse(g, Part(c.s, a)), Held(g, Bin(c.s, o)), g.size)
    ensures Movable(g, c, t, x)
    decreases InUse(g, Part(c.s, a))
  {
    hide ExactInv, Leads, Loose, Movable, InUse, Held, M.Threshold;
    var y := SomeUsed(g, Part(c.s, a));
    assert Ready(c.s, t, o, y);
    HasOwner(g, c, o, y);
    CachedHas(g, c, o, x);
    HasOwner(g, c, o, x);
    var v, c1 := FreesOne(g, c, t, y);
    LeadsInv(g, c, c1, {t}, x);
    var n := Free(c.s, y) + 1;
    BinPut(c.s, c1.s, o, y, n);
    PartPut(c.s, c1.s, a, y, n);
    InUsePut(g, Bin(c.s, o), y, n);
    InUsePut(g, Part(c.s, a), y, n);
    if Crossed(g, c1.s, o) {
      HandsOver(g, c1, t, v, y, o, x);
    } else {
      var c2 := Finishes(g, c1, t, v, y, o);
      LockedOnce(c.s.heapLock, o, v);
      SameSums(c1.s, c2.s, o, a);
      StillReady(c, c1, c2, t, o, a);
      FreesDown(g, c2, t, o, x, a);
      MovesLater(g, c1, c2, t, x);
    }
    MovesLater(g, c, c1, t, x);
  }

  lemma StillReady(c: Exact, c1: Exact, c2: Exact, t: int, o: nat, a: set<nat>)
    requires LooseAfter(c.s, c1.s, t) && LooseAfter(c1.s, c2.s, t) && c2.s.place == c1.s.place == c.s.place
    requires forall y {:trigger Ready(c.s, t, o, y)} :: y in a ==> Ready(c.s, t, o, y)
    ensures forall y {:trigger Ready(c2.s, t, o, y)} :: y in a ==> Ready(c2.s, t, o, y)
  {
    hide Loose;
    StillThen(c, c1, c2, t);
    forall y {:trigger Ready(c2.s, t, o, y)} | y in a ensures Ready(c2.s, t, o, y) {
      assert Ready(c.s, t, o, y);
    }
  }

  lemma SameSums(s: State, s': State, h: nat, a: set<nat>)
    requires s'.place == s.place && s'.free == s.free
    ensures Bin(s', h) == Bin(s, h) && Part(s', a) == Part(s, a)
  {
  }
}
