/** All arenas of a process, in one memory: whatever is done in one of them, the blocks of the others keep
    their place, their contents and the words that lead to their arena. */
module Arenas {
  import opened Allocator
  import opened Calloc
  import opened Dlfree
  import opened Dlmalloc
  import opened History
  import opened Layout
  import opened MallocState
  import opened Memalign
  import opened Memory
  import opened Mremap
  import opened Ptmalloc
  import opened Segments
  import opened Sizes
  import opened Words
  import BulkFree
  import Realloc
  import SmallBins
  import SysMalloc

  // ---- one memory, seen from an arena

  predicate Static(a: int) { SmallBins.STATE <= a < SmallBins.STATE_END }

  /** The words of `own` in the static state and those of `shared` elsewhere: every arena has a state of its
      own, and all else in common. */
  function Merged(own: Words, shared: Words): Words {
    map a | a in own.Keys + shared.Keys :: if Static(a) then At(own, a) else At(shared, a)
  }

  lemma MergedAt(own: Words, shared: Words, a: int)
    ensures At(Merged(own, shared), a) == if Static(a) then At(own, a) else At(shared, a)
  {
  }

  /** The words in the regions of an arena are those in memory. */
  ghost predicate Agrees(store: Words, mem: Words, S: Spans) {
    forall h, a {:trigger Misses(S, h, a)} :: h in S && !Misses(S, h, a) ==> At(store, a) == At(mem, a)
  }

  ghost predicate SpansOff(S: Spans, T: Spans) {
    forall h, g, a {:trigger Misses(S, h, a), Misses(T, g, a)} :: h in S && g in T ==>
        Misses(S, h, a) || Misses(T, g, a)
  }

  /** `alien` has all the words in the regions. */
  ghost predicate Covers(alien: Words, store: Words, S: Spans) {
    forall h, a {:trigger Misses(S, h, a)} :: h in S && !Misses(S, h, a) ==> a in alien && alien[a] == At(store, a)
  }

  /** The addresses in the regions. */
  ghost function Cells(S: Spans): set<int> {
    set h, a {:trigger Misses(S, h, a)} | h in S && S[h].base <= a < S[h].End() && !Misses(S, h, a) :: a
  }

  lemma EnterSteady(mem: Words, store: Words, L: Chunks, S: Spans)
    requires Tiled(L, S) && OffState(S) && Agrees(store, mem, S)
    ensures Steady(mem, Merged(mem, store), L)
  {
    var z := Merged(mem, store);
    forall q, a {:trigger InChunk(L, q, a)} | InChunk(L, q, a) ensures At(z, a) == At(mem, a) {
      ChunkAt(L, S, q);
      ClearOfState(L, S, q, a - q);
      MergedAt(mem, store, a);
      assert !Misses(S, L[q].home, a);
    }
    forall a {:trigger At(z, a)} | Static(a) ensures At(z, a) == At(mem, a) {
      MergedAt(mem, store, a);
    }
  }

  lemma EnterAgrees(mem: Words, store: Words, S: Spans)
    requires OffState(S)
    ensures Agrees(store, Merged(mem, store), S)
  {
    forall h, a {:trigger Misses(S, h, a)} | h in S && !Misses(S, h, a)
      ensures At(store, a) == At(Merged(mem, store), a)
    {
      assert SpanClear(S, h);
      MergedAt(mem, store, a);
    }
  }

  lemma LeaveOwn(store: Words, mem: Words, S: Spans)
    requires OffState(S)
    ensures Agrees(Merged(store, mem), mem, S)
  {
    forall h, a {:trigger Misses(S, h, a)} | h in S && !Misses(S, h, a)
      ensures At(Merged(store, mem), a) == At(mem, a)
    {
      assert SpanClear(S, h);
      MergedAt(store, mem, a);
    }
  }

  /** The words of another arena survive. */
  lemma LeaveOther(store: Words, mem: Words, S: Spans, alien: Words, T: Spans, mem': Words)
    requires Foreign(mem, S, alien) && Covers(alien, store, T) && Agrees(store, mem', T)
    ensures Agrees(Merged(store, mem), mem', T) && Agrees(Merged(store, mem), store, T) && SpansOff(S, T)
    ensures SpansOff(T, S)
  {
    forall h, a {:trigger Misses(T, h, a)} | h in T && !Misses(T, h, a)
      ensures At(Merged(store, mem), a) == At(mem', a) == At(store, a)
    {
      assert AlienOk(mem, alien, a);
      MergedAt(store, mem, a);
    }
    forall h, g, a {:trigger Misses(S, h, a), Misses(T, g, a)} | h in S && g in T
      ensures Misses(S, h, a) || Misses(T, g, a)
    {
    }
  }

  /** A chunk lies in one of the regions, payload and all. */
  lemma PayloadInSpan(L: Chunks, S: Spans, p: int, a: int)
    requires Tiled(L, S) && Holding(L, p) && p <= a < p + PayloadEnd(L[p])
    ensures L[p].home in S && !Misses(S, L[p].home, a)
  {
    ChunkAt(L, S, p);
    if Next(L, p) <= a {
      NextAt(L, S, p);
    }
  }

  lemma NotInBoth(L: Chunks, S: Spans, M: Chunks, T: Spans, p: int)
    requires Tiled(L, S) && Tiled(M, T) && SpansOff(S, T) && Holding(L, p)
    ensures !Holding(M, p)
  {
    ChunkAt(L, S, p);
    if Holding(M, p) {
      ChunkAt(M, T, p);
      PayloadInSpan(L, S, p, p);
      PayloadInSpan(M, T, p, p);
    }
  }

  /** A labelled block is intact in memory, if it is in the arena. */
  lemma IntactInStore(store: Words, mem: Words, store': Words, mem': Words, s: Snapshot, t: Snapshot, p: int,
                      bytes: nat)
    requires Tiled(s.L, s.S) && Tiled(t.L, t.S) && Holding(s.L, p) && Holding(t.L, p)
    requires bytes <= Usable(s.L[p]) && bytes <= Usable(t.L[p])
    requires Agrees(store, mem, s.S) && Agrees(store', mem', t.S) && Intact(mem, mem', p, bytes)
    ensures Intact(store, store', p, bytes)
  {
    forall a {:trigger At(store', a)} | p + FD <= a < p + FD + bytes ensures At(store', a) == At(store, a) {
      PayloadInSpan(s.L, s.S, p, a);
      PayloadInSpan(t.L, t.S, p, a);
      assert At(mem', a) == At(mem, a);
    }
  }

  /** The words that lead to the arena are in its regions. */
  lemma RoutedInStore(store: Words, h: Heap, id: int, p: int, bytes: nat)
    requires h.Valid() && Labelled(h.Now(), id, p, bytes) && Agrees(store, h.m.mem, h.m.S)
    ensures ArenaFor(store, p + FD) == id
  {
    hide MState.Stored, MState.Booked, MState.Indexed, IsRun, Roles, ChunkSize;
    LabelRoutes(h, id, p, bytes);
    LabelWords(h, id, p, bytes);
    SoundNow(h);
    ChunkFacts(h.m, p);
    PayloadInSpan(h.m.L, h.m.S, p, p + HEAD);
    if id != MAIN {
      TagFits(h.m.L, h.m.S, p, bytes);
      PayloadInSpan(h.m.L, h.m.S, p, TagAt(h.m.L[p], p));
    }
  }

  lemma LabelWords(h: Heap, id: int, p: int, bytes: nat)
    requires h.Valid() && Labelled(h.Now(), id, p, bytes)
    ensures var w := At(h.m.mem, p + HEAD);
            && (Flagged(w) <==> id != MAIN)
            && p + ChunkSize(w) - (if PInUse(w) || CInUse(w) then 0 else WORD) == TagAt(h.m.L[p], p)
  {
    OwnedWords(h.m, p);
    HeadBits(h.m.L, h.m.S, p);
    assert HeadOk(h.m.mem, h.m.L, p);
  }

  /** A block in the hands of the client: its arena, and the bytes it may use. */
  datatype Grant = Grant(arena: int, bytes: nat)

  class Process {
    var arenas: map<int, Heap>            // by address; `MAIN` stands for the main arena
    var store: Words                      // memory
    ghost var granted: map<int, Grant>    // the chunks in the hands of the client

    ghost function Objects(): set<object>
      reads `arenas
    {
      (set i | i in arenas :: arenas[i] as object) + (set i | i in arenas :: arenas[i].m as object)
    }

    ghost predicate Distinct()
      reads `arenas
    {
      forall i, j {:trigger arenas[i], arenas[j]} :: i in arenas && j in arenas && i != j ==>
        arenas[i] != arenas[j] && arenas[i].m != arenas[j].m
    }

    /** The blocks of arena `k` are labelled. */
    ghost predicate Blocks(k: int, s: Snapshot)
      reads `granted
    {
      forall p {:trigger p in granted} :: p in granted && granted[p].arena == k ==> Labelled(s, k, p, granted[p].bytes)
    }

    ghost predicate ArenaOk(i: int)
      requires i in arenas
      reads this, arenas[i], arenas[i].m
    {
      arenas[i].Valid() && Agrees(store, arenas[i].m.mem, arenas[i].m.S) && Blocks(i, arenas[i].Now())
    }

    ghost predicate Known()
      reads `arenas, `granted
    {
      && MAIN in arenas && Distinct()
      && (forall p {:trigger p in granted} :: p in granted ==> granted[p].arena in arenas)
    }

    ghost predicate Valid()
      reads this, Objects()
    {
      && Known()
      && (forall i {:trigger ArenaOk(i)} :: i in arenas ==> ArenaOk(i))
      && (forall i, j {:trigger arenas[i], arenas[j]} :: i in arenas && j in arenas && i != j ==>
            SpansOff(arenas[i].m.S, arenas[j].m.S))
    }

    /** The words in the regions of the other arenas. */
    ghost function Theirs(k: int): Words
      reads this, Objects()
    {
      map a | a in Territory(k) :: At(store, a)
    }

    ghost function Territory(k: int): set<int>
      reads this, Objects()
    {
      set i, a | i in arenas && i != k && a in Cells(arenas[i].m.S) :: a
    }

    lemma TheirsCovers(k: int, i: int)
      requires i in arenas && i != k
      ensures Covers(Theirs(k), store, arenas[i].m.S)
    {
      var S := arenas[i].m.S;
      forall h, a {:trigger Misses(S, h, a)} | h in S && !Misses(S, h, a) ensures a in Theirs(k) {
        assert a in Cells(S) && a in Territory(k);
      }
    }

    /** The words of the others are outside the regions of the arena. */
    lemma TheirsForeign(k: int, z: Words)
      requires Valid() && k in arenas && forall a {:trigger At(z, a)} :: !Static(a) ==> At(z, a) == At(store, a)
      ensures Foreign(z, arenas[k].m.S, Theirs(k))
    {
      var S, alien := arenas[k].m.S, Theirs(k);
      forall a {:trigger AlienOk(z, alien, a)} | a in alien ensures AlienOk(z, alien, a) {
        var i :| i in arenas && i != k && a in Cells(arenas[i].m.S);
        var h :| h in arenas[i].m.S && !Misses(arenas[i].m.S, h, a);
        assert ArenaOk(i) && SpanClear(arenas[i].m.S, h);
      }
      forall a, g {:trigger Misses(S, g, a)} | a in alien && g in S ensures Misses(S, g, a) {
        var i :| i in arenas && i != k && a in Cells(arenas[i].m.S);
        var h :| h in arenas[i].m.S && !Misses(arenas[i].m.S, h, a);
        assert arenas[i] == arenas[i] && arenas[k] == arenas[k];
        assert !Misses(arenas[i].m.S, h, a);
      }
    }

    constructor ()
      ensures Valid() && granted == map[] && arenas.Keys == {MAIN} && fresh(Objects())
    {
      hide MState.Stored, MState.Booked, MState.Indexed, Roles, IsRun;
      var h := new Heap();
      arenas, store, granted := map[MAIN := h], map[], map[];
      new;
      assert ArenaOk(MAIN);
    }

    /** Arena `k` is at work; `alien` are the words of the others. */
    ghost predicate Open(k: int, alien: Words)
      requires k in arenas
      reads this, Objects()
    {
      && Known() && arenas[k].Valid() && arenas[k].m.alien == alien
      && (forall i {:trigger ArenaOk(i)} :: i in arenas && i != k ==> ArenaOk(i))
      && (forall i {:trigger arenas[i]} :: i in arenas && i != k ==> Covers(alien, store, arenas[i].m.S))
      && (forall i, j {:trigger arenas[i], arenas[j]} :: i in arenas && j in arenas && i != j && i != k && j != k ==>
            SpansOff(arenas[i].m.S, arenas[j].m.S))
    }

    /** The arena sees memory as it is. */
    method Enter(k: int) returns (ghost alien: Words)
      requires Valid() && k in arenas
      modifies arenas[k], arenas[k].m`mem, arenas[k].m`alien
      ensures Open(k, alien) && alien == old(Theirs(k)) && Blocks(k, old(arenas[k].Now())) && Blocks(k, arenas[k].Now())
      ensures Spares(old(arenas[k].Now()), arenas[k].Now(), k, {})
      ensures arenas[k].m.S == old(arenas[k].m.S) && arenas[k].m.L == old(arenas[k].m.L)
      ensures Agrees(store, old(arenas[k].m.mem), arenas[k].m.S) && Tiled(arenas[k].m.L, arenas[k].m.S)
      ensures Agrees(store, arenas[k].m.mem, arenas[k].m.S)
    {
      hide MState.Stored, MState.Booked, MState.Indexed, Step, IsRun, Steady, Foreign, Agrees, SpansOff, Covers;
      hide Labelled, Spares;
      var h := arenas[k];
      alien := Theirs(k);
      ghost var s := h.Now();
      assert ArenaOk(k);
      AllCovered(k);
      HeapParts(h);
      EnterSteady(h.m.mem, store, h.m.L, h.m.S);
      EnterForeign(k, h.m.mem);
      EnterAgrees(h.m.mem, store, h.m.S);
      h.Refresh(Merged(h.m.mem, store), alien);
      StepSpares(s, h.Now(), Nothing, k);
      BlocksStay(s, h.Now(), k);
    }

    lemma AllCovered(k: int)
      ensures forall i {:trigger arenas[i]} :: i in arenas && i != k ==> Covers(Theirs(k), store, arenas[i].m.S)
    {
      forall i {:trigger arenas[i]} | i in arenas && i != k ensures Covers(Theirs(k), store, arenas[i].m.S) {
        TheirsCovers(k, i);
      }
    }

    lemma BlocksStay(s: Snapshot, t: Snapshot, k: int)
      requires Blocks(k, s) && Spares(s, t, k, {})
      ensures Blocks(k, t)
    {
      forall p {:trigger p in granted} | p in granted && granted[p].arena == k
        ensures Labelled(t, k, p, granted[p].bytes)
      {
        assert Labelled(s, k, p, granted[p].bytes);
      }
    }

    lemma EnterForeign(k: int, mem: Words)
      requires Valid() && k in arenas
      ensures Foreign(Merged(mem, store), arenas[k].m.S, Theirs(k))
    {
      var z := Merged(mem, store);
      forall a {:trigger At(z, a)} | !Static(a) ensures At(z, a) == At(store, a) {
        MergedAt(mem, store, a);
      }
      TheirsForeign(k, z);
    }

    /** What the arena wrote is in memory. */
    method Leave(k: int, ghost alien: Words)
      requires k in arenas && Open(k, alien) && Blocks(k, arenas[k].Now())
      modifies this`store
      ensures Valid()
      ensures forall i {:trigger arenas[i]} :: i in arenas && i != k ==> Agrees(store, old(store), arenas[i].m.S)
    {
      hide MState.Stored, MState.Booked, MState.Indexed, IsRun, Agrees, SpansOff, Covers, Foreign, Labelled;
      var h := arenas[k];
      HeapParts(h);
      LeaveOwn(store, h.m.mem, h.m.S);
      ghost var z := Merged(store, h.m.mem);
      forall i {:trigger arenas[i]} | i in arenas && i != k
        ensures Agrees(z, arenas[i].m.mem, arenas[i].m.S) && Agrees(z, store, arenas[i].m.S)
        ensures SpansOff(h.m.S, arenas[i].m.S) && SpansOff(arenas[i].m.S, h.m.S)
      {
        assert ArenaOk(i);
        LeaveOther(store, h.m.mem, h.m.S, alien, arenas[i].m.S, arenas[i].m.mem);
      }
      assert forall i, j {:trigger arenas[i], arenas[j]} :: i in arenas && j in arenas && i != j ==>
        SpansOff(arenas[i].m.S, arenas[j].m.S) by {
        assert forall i {:trigger arenas[i]} :: i in arenas && i != k ==> ArenaOk(i);
      }
      store := Merged(store, h.m.mem);
      forall i {:trigger ArenaOk(i)} | i in arenas ensures ArenaOk(i) {
        assert i != k ==> old(ArenaOk(i));
      }
    }

    /** The blocks of the others, and the spared ones of arena `k`, are the same in memory. */
    lemma Preserved(k: int, store0: Words, s: Snapshot, g: map<int, Grant>, x: set<int>)
      requires Valid() && k in arenas && Tiled(s.L, s.S) && Agrees(store0, s.mem, s.S)
      requires Spares(s, arenas[k].Now(), k, x)
      requires forall i {:trigger arenas[i]} :: i in arenas && i != k ==> Agrees(store, store0, arenas[i].m.S)
      requires forall p {:trigger p in g} :: p in g && p !in x ==>
                 if g[p].arena == k then Labelled(s, k, p, g[p].bytes) else p in granted && granted[p] == g[p]
      ensures Untouched(store0, store, g, x)
    {
      forall p {:trigger p in g} | p in g && p !in x ensures Intact(store0, store, p, g[p].bytes) {
        if g[p].arena == k {
          OwnUntouched(k, store0, s, p, g[p].bytes, x);
        } else {
          OtherUntouched(g[p].arena, store0, p, g[p].bytes);
        }
      }
    }

    lemma OwnUntouched(k: int, store0: Words, s: Snapshot, p: int, bytes: nat, x: set<int>)
      requires Valid() && k in arenas && Tiled(s.L, s.S) && Agrees(store0, s.mem, s.S)
      requires Spares(s, arenas[k].Now(), k, x)
      requires p !in x && Labelled(s, k, p, bytes)
      ensures Intact(store0, store, p, bytes)
    {
      var t := arenas[k].Now();
      assert ArenaOk(k) && Labelled(t, k, p, bytes);
      SoundNow(arenas[k]);
      IntactInStore(store0, s.mem, store, t.mem, s, t, p, bytes);
    }

    lemma OtherUntouched(i: int, store0: Words, p: int, bytes: nat)
      requires Valid() && i in arenas && Agrees(store, store0, arenas[i].m.S) && p in granted
      requires granted[p] == Grant(i, bytes)
      ensures Intact(store0, store, p, bytes)
    {
      var h := arenas[i];
      assert ArenaOk(i);
      SoundNow(h);
      forall a {:trigger At(store, a)} | p + FD <= a < p + FD + bytes ensures At(store, a) == At(store0, a) {
        PayloadInSpan(h.m.L, h.m.S, p, a);
      }
    }

    /** A chunk of arena `k` is no block of another arena. */
    lemma NotElsewhere(k: int, alien: Words, p: int)
      requires k in arenas && Open(k, alien) && Holding(arenas[k].m.L, p) && p in granted
      ensures granted[p].arena == k
    {
      var i := granted[p].arena;
      if i != k {
        assert ArenaOk(i);
        HeapParts(arenas[k]);
        HeapParts(arenas[i]);
        LeaveOther(store, arenas[k].m.mem, arenas[k].m.S, alien, arenas[i].m.S, arenas[i].m.mem);
        NotInBoth(arenas[k].m.L, arenas[k].m.S, arenas[i].m.L, arenas[i].m.S, p);
      }
    }

    /** A labelled chunk is given to the client. */
    ghost method Give(k: int, alien: Words, p: int, bytes: nat)
      requires k in arenas && Open(k, alien) && Blocks(k, arenas[k].Now()) && Labelled(arenas[k].Now(), k, p, bytes)
      modifies this`granted
      ensures Open(k, alien) && Blocks(k, arenas[k].Now()) && granted == old(granted)[p := Grant(k, bytes)]
    {
      hide Labelled, Agrees, Covers, SpansOff, Heap.Valid;
      if p in granted {
        LabelHolds(arenas[k].Now(), k, p, bytes);
        NotElsewhere(k, alien, p);
      }
      granted := granted[p := Grant(k, bytes)];
      forall i {:trigger ArenaOk(i)} | i in arenas && i != k ensures ArenaOk(i) {
        assert old(ArenaOk(i));
      }
    }

    /** A block of arena `k` is taken from the client. */
    ghost method Take(k: int, alien: Words, p: int)
      requires k in arenas && Open(k, alien) && p in granted && granted[p].arena == k
      modifies this`granted
      ensures Open(k, alien) && granted == old(granted) - {p}
    {
      hide Labelled, Agrees, Covers, SpansOff, Heap.Valid;
      granted := granted - {p};
      forall i {:trigger ArenaOk(i)} | i in arenas && i != k ensures ArenaOk(i) {
        assert old(ArenaOk(i));
      }
    }

    /** `malloc`, in the arena that the thread has got */
    method Malloc(ar: int, bytes: nat, direct: Offer, offer: Offer) returns (mem: int)
      requires Valid() && ar in arenas && bytes < SPACE
      requires OffersFit(arenas[ar].m.S, Theirs(ar), Request(ar == MAIN, bytes), direct, offer)
      modifies this`store, this`granted, arenas[ar], arenas[ar].m
      ensures Valid() && Untouched(old(store), store, old(granted), {})
      ensures mem != 0 <==> old(CanServe(arenas[ar].m, Request(ar == MAIN, bytes), direct, offer))
      ensures mem == 0 ==> granted == old(granted)
      ensures mem != 0 ==> && mem - FD !in old(granted)
                           && granted == old(granted)[mem - FD := Grant(ar, Promised(ar == MAIN, bytes))]
    {
      hide MState.Stored, MState.Booked, MState.Indexed, IsRun, Agrees, SpansOff, Covers, Labelled, Spares, OffersFit;
      hide Request, Promised, Heap.Valid, HeapServes, SysMalloc.DirectServes, SysMalloc.SegmentServes;
      var h := arenas[ar];
      ghost var s, g, store0 := h.Now(), granted, store;
      ghost var alien := Enter(ar);
      ghost var t := h.Now();
      mem := ArenaMalloc(h, ar, bytes, direct, offer);
      ghost var u := h.Now();
      SparesOn(s, t, u, ar, {}, {});
      BlocksStay(t, u, ar);
      assert Open(ar, alien);
      if mem != 0 {
        FreshGrant(ar, alien, t, mem - FD, Promised(ar == MAIN, bytes));
        Give(ar, alien, mem - FD, Promised(ar == MAIN, bytes));
      }
      Leave(ar, alien);
      Preserved(ar, store0, s, g, {});
    }

    lemma FreshGrant(k: int, alien: Words, t: Snapshot, p: int, bytes: nat)
      requires k in arenas && Open(k, alien) && Blocks(k, t) && !Holding(t.L, p)
      requires Labelled(arenas[k].Now(), k, p, bytes)
      ensures p !in granted
    {
      assert p in granted && granted[p].arena == k ==> Labelled(t, k, p, granted[p].bytes);
      if p in granted {
        NotElsewhere(k, alien, p);
      }
    }

    /** Every block leads to its arena, through memory alone. */
    lemma Routed(p: int)
      requires Valid() && p in granted
      ensures ArenaFor(store, p + FD) == granted[p].arena && granted[p].arena in arenas
    {
      var id := granted[p].arena;
      assert ArenaOk(id);
      RoutedInStore(store, arenas[id], id, p, granted[p].bytes);
    }

    /** `memalign`, in the arena that the thread has got */
    method Memalign(ar: int, alignment: nat, bytes: nat, direct: Offer, offer: Offer) returns (mem: int)
      requires Valid() && ar in arenas && bytes < SPACE && alignment <= HALF
      requires var r := Request(ar == MAIN, bytes);
               if alignment <= WORD then OffersFit(arenas[ar].m.S, Theirs(ar), r, direct, offer)
               else r + Rounded(alignment) < MAX_REQUEST ==>
                      OffersFit(arenas[ar].m.S, Theirs(ar), AlignRequest(Rounded(alignment), r), direct, offer)
      modifies this`store, this`granted, arenas[ar], arenas[ar].m
      ensures Valid() && Untouched(old(store), store, old(granted), {})
      ensures mem == 0 ==> granted == old(granted)
      ensures mem != 0 ==> && mem - FD !in old(granted)
                           && granted == old(granted)[mem - FD := Grant(ar, Promised(ar == MAIN, bytes))]
      ensures mem != 0 <==>
                if alignment <= WORD then old(CanServe(arenas[ar].m, Request(ar == MAIN, bytes), direct, offer))
                else old(CanAlign(arenas[ar].m, alignment, Request(ar == MAIN, bytes), direct, offer))
      ensures alignment > WORD ==>
                var al := Rounded(alignment); 0 < al && alignment <= al && (mem != 0 ==> AlignedTo(mem, al))
    {
      hide MState.Stored, MState.Booked, MState.Indexed, IsRun, Agrees, SpansOff, Covers, Labelled, Spares, OffersFit;
      hide Request, Promised, Rounded, AlignRequest, AlignedTo, Heap.Valid, HeapServes, SysMalloc.DirectServes;
      hide SysMalloc.SegmentServes, Theirs;
      if alignment <= WORD {
        mem := Malloc(ar, bytes, direct, offer);
        return;
      }
      var h := arenas[ar];
      ghost var s, g, store0 := h.Now(), granted, store;
      ghost var alien := Enter(ar);
      ghost var t := h.Now();
      AtLeastMinimum(alignment);
      mem := ArenaMemalign(h, ar, if alignment < MIN_CHUNK then MIN_CHUNK else alignment, bytes, direct, offer);
      ghost var u := h.Now();
      SparesOn(s, t, u, ar, {}, {});
      BlocksStay(t, u, ar);
      assert Open(ar, alien);
      if mem != 0 {
        FreshGrant(ar, alien, t, mem - FD, Promised(ar == MAIN, bytes));
        Give(ar, alien, mem - FD, Promised(ar == MAIN, bytes));
      }
      Leave(ar, alien);
      Preserved(ar, store0, s, g, {});
    }

    /** `free`: the arena is found from the block */
    method Free(mem: int, a: Answers) returns (ar: int)
      requires Valid() && (mem != 0 ==> mem - FD in granted)
      modifies this`store, this`granted, Objects()
      ensures Valid() && arenas == old(arenas)
      ensures mem == 0 ==> granted == old(granted) && store == old(store)
      ensures mem != 0 ==> ar == old(granted)[mem - FD].arena && granted == old(granted) - {mem - FD}
      ensures Untouched(old(store), store, old(granted), if mem == 0 then {} else {mem - FD})
    {
      hide MState.Stored, MState.Booked, MState.Indexed, IsRun, Agrees, SpansOff, Covers, Labelled, Spares;
      ar := MAIN;
      if mem != 0 {
        Routed(mem - FD);
        ar := ArenaFor(store, mem);
        assert arenas[ar] in arenas.Values;
        FreeIn(ar, mem, a);
      }
    }

    method FreeIn(ar: int, mem: int, a: Answers)
      requires Valid() && mem != 0 && mem - FD in granted && granted[mem - FD].arena == ar && ar in arenas
      modifies this`store, this`granted, arenas[ar], arenas[ar].m
      ensures Valid() && granted == old(granted) - {mem - FD} && Untouched(old(store), store, old(granted), {mem - FD})
    {
      hide MState.Stored, MState.Booked, MState.Indexed, IsRun, Agrees, SpansOff, Covers, Labelled, Spares;
      var h := arenas[ar];
      ghost var s, g, store0, p := h.Now(), granted, store, mem - FD;
      ghost var alien := Enter(ar);
      ghost var t := h.Now();
      LabelHolds(t, ar, p, granted[p].bytes);
      ArenaFree(h, ar, mem, a);
      ghost var u := h.Now();
      SparesOn(s, t, u, ar, {}, {p});
      assert Open(ar, alien);
      Take(ar, alien, p);
      BlocksLeft(t, u, ar, p);
      Leave(ar, alien);
      assert {} + {p} == {p};
      Preserved(ar, store0, s, g, {p});
    }

    lemma BlocksLeft(t: Snapshot, u: Snapshot, k: int, p: int)
      requires Spares(t, u, k, {p}) && p !in granted
      requires forall q {:trigger q in granted} :: q in granted && granted[q].arena == k ==>
                Labelled(t, k, q, granted[q].bytes)
      ensures Blocks(k, u)
    {
      forall q {:trigger q in granted} | q in granted && granted[q].arena == k
        ensures Labelled(u, k, q, granted[q].bytes)
      {
        assert Labelled(t, k, q, granted[q].bytes);
      }
    }

    /** `realloc`: the arena is found from the block, and from the new block; null is served as `malloc` in the arena
        that the thread has got.  Nothing is promised when the offset of the block overruns the region that the
        system resizes. */
    method ReallocBlock(mem: int, bytes: nat, mine: int, direct: Offer, offer: Offer, remap: Offer, a: Answers)
      returns (moved: int, ar: int, spoiled: bool)
      requires Valid() && bytes < SPACE && (mem != 0 ==> mem - FD in granted)
      requires mem == 0 ==>
                 mine in arenas
                 && OffersFit(arenas[mine].m.S, Theirs(mine), Request(mine == MAIN, bytes), direct, offer)
      requires mem != 0 ==>
                 var k := granted[mem - FD].arena;
                 k in arenas && var m := arenas[k].m;
                 Realloc.ReallocOffers(m.L, m.S, Theirs(k), mem - FD, Request(k == MAIN, bytes), direct, offer, remap)
      modifies this`store, this`granted, Objects()
      ensures arenas == old(arenas) && ar == if mem == 0 then mine else old(granted)[mem - FD].arena
      ensures ar in arenas && (mem == 0 ==> !spoiled)
      ensures moved != 0 <==>
                if mem == 0 then old(CanServe(arenas[mine].m, Request(mine == MAIN, bytes), direct, offer))
                else old(CanResize(granted[mem - FD].arena, mem - FD, bytes, direct, offer, remap))
      ensures mem != 0 ==> (spoiled <==> moved != 0 && old(MaySpoil(granted[mem - FD].arena, mem - FD, bytes, remap)))
      ensures !spoiled ==> Valid() && Untouched(old(store), store, old(granted), if moved == 0 then {} else {mem - FD})
      ensures moved == 0 ==> !spoiled && granted == old(granted)
      ensures !spoiled && moved != 0 ==>
                && (moved != mem ==> moved - FD !in old(granted))
                && granted == (old(granted) - {mem - FD})[moved - FD := Grant(ar, Promised(ar == MAIN, bytes))]
      ensures !spoiled && moved != 0 && mem != 0 ==>
                Moved(old(store), store, mem - FD, moved - FD,
                      Min(old(granted)[mem - FD].bytes, Promised(ar == MAIN, bytes)))
      ensures !spoiled && moved != 0 && mem != 0 && old(StaysPut(granted[mem - FD].arena, mem - FD, bytes, remap)) ==>
                moved == mem
      ensures !spoiled && moved != 0 && mem != 0 && !old(Resizes(granted[mem - FD].arena, mem - FD, bytes, remap)) ==>
                moved - FD !in old(granted)
    {
      hide MState.Stored, MState.Booked, MState.Indexed, IsRun, Agrees, SpansOff, Covers, Labelled, Spares, Request;
      hide Promised, Realloc.ReallocOffers, Realloc.Spoils, Realloc.CanRealloc, CanServe, OffersFit, Realloc.InPlace;
      if mem == 0 {
        NothingAtNull();
        ar, spoiled := mine, false;
        assert arenas[ar] in arenas.Values;
        moved := Malloc(mine, bytes, direct, offer);
      } else {
        Routed(mem - FD);
        ar := ArenaFor(store, mem);
        assert arenas[ar] in arenas.Values;
        moved, spoiled := ReallocIn(ar, mem, bytes, direct, offer, remap, a);
      }
    }

    ghost predicate CanResize(k: int, p: int, bytes: nat, direct: Offer, offer: Offer, remap: Offer)
      requires bytes < SPACE
      reads this, Objects()
    {
      && k in arenas && p in arenas[k].m.L
      && Realloc.CanRealloc(arenas[k].m, p, Request(k == MAIN, bytes), direct, offer, remap)
    }

    /** The block can be resized without a new one. */
    ghost predicate Resizes(k: int, p: int, bytes: nat, remap: Offer)
      requires bytes < SPACE
      reads this, Objects()
    {
      k in arenas && Realloc.InPlace(arenas[k].m.L, p, Request(k == MAIN, bytes), remap)
    }

    /** It lies in a segment of its arena and can be resized where it is. */
    ghost predicate StaysPut(k: int, p: int, bytes: nat, remap: Offer)
      requires bytes < SPACE
      reads this, Objects()
    {
      Resizes(k, p, bytes, remap) && p in arenas[k].m.L && arenas[k].m.L[p].kind.Live?
    }

    ghost predicate MaySpoil(k: int, p: int, bytes: nat, remap: Offer)
      requires bytes < SPACE
      reads this, Objects()
    {
      k in arenas && Realloc.Spoils(arenas[k].m.L, p, Request(k == MAIN, bytes), remap)
    }

    lemma InItsArena(p: int)
      requires Valid() && p in granted
      ensures var k := granted[p].arena; k in arenas && arenas[k].m.Valid() && Holding(arenas[k].m.L, p)
    {
      assert ArenaOk(granted[p].arena);
    }

    /** There is no block at null. */
    lemma NothingAtNull()
      requires Valid()
      ensures -FD !in granted
    {
      if -FD in granted {
        InItsArena(-FD);
        BulkFree.PositiveChunks(arenas[granted[-FD].arena].m);
      }
    }

    /** The client has the labelled chunk `q` in place of its block `p`. */
    ghost method Exchange(k: int, alien: Words, t: Snapshot, p: int, q: int, bytes: nat)
      requires k in arenas && Open(k, alien) && p in granted && granted[p].arena == k && Blocks(k, t)
      requires Spares(t, arenas[k].Now(), k, {p}) && Labelled(arenas[k].Now(), k, q, bytes)
      requires q != p ==> !Holding(t.L, q)
      modifies this`granted
      ensures Open(k, alien) && Blocks(k, arenas[k].Now()) && (q != p ==> q !in old(granted))
      ensures granted == (old(granted) - {p})[q := Grant(k, bytes)]
    {
      hide Labelled, Agrees, Covers, SpansOff, Heap.Valid, Spares;
      if q != p {
        FreshGrant(k, alien, t, q, bytes);
      }
      Take(k, alien, p);
      BlocksLeft(t, arenas[k].Now(), k, p);
      Give(k, alien, q, bytes);
    }

    method ReallocIn(ar: int, mem: int, bytes: nat, direct: Offer, offer: Offer, remap: Offer, a: Answers)
      returns (moved: int, spoiled: bool)
      requires Valid() && bytes < SPACE && mem != 0 && mem - FD in granted && granted[mem - FD].arena == ar
      requires ar in arenas
      requires var m := arenas[ar].m;
               Realloc.ReallocOffers(m.L, m.S, Theirs(ar), mem - FD, Request(ar == MAIN, bytes), direct, offer, remap)
      modifies this`store, this`granted, arenas[ar], arenas[ar].m
      ensures moved != 0 <==> old(CanResize(ar, mem - FD, bytes, direct, offer, remap))
      ensures spoiled <==> moved != 0 && old(MaySpoil(ar, mem - FD, bytes, remap))
      ensures !spoiled ==> Valid() && Untouched(old(store), store, old(granted), if moved == 0 then {} else {mem - FD})
      ensures moved == 0 ==> !spoiled && granted == old(granted)
      ensures !spoiled && moved != 0 ==>
                && (moved != mem ==> moved - FD !in old(granted))
                && granted == (old(granted) - {mem - FD})[moved - FD := Grant(ar, Promised(ar == MAIN, bytes))]
                && Moved(old(store), store, mem - FD, moved - FD,
                         Min(old(granted)[mem - FD].bytes, Promised(ar == MAIN, bytes)))
                && (old(StaysPut(ar, mem - FD, bytes, remap)) ==> moved == mem)
                && (!old(Resizes(ar, mem - FD, bytes, remap)) ==> moved != mem)
    {
      hide MState.Stored, MState.Booked, MState.Indexed, IsRun, Agrees, SpansOff, Covers, Spares, Request, Promised;
      hide Realloc.ReallocOffers, Realloc.Spoils, Heap.Valid, Untouched, Realloc.InPlace, Theirs, Min, Merged, Tiled;
      var h := arenas[ar];
      ghost var s, p := h.Now(), mem - FD;
      ghost var alien := Enter(ar);
      ghost var t := h.Now();
      LabelHolds(t, ar, p, granted[p].bytes);
      moved, spoiled := ArenaRealloc(h, ar, mem, bytes, direct, offer, remap, a);
      if spoiled {
        store := Merged(store, h.m.mem);
      } else if moved == 0 {
        assert Open(ar, alien);
        LeaveSame(ar, alien, s, t);
      } else {
        assert Open(ar, alien);
        LeaveMoved(ar, alien, s, t, p, moved - FD, Promised(ar == MAIN, bytes));
      }
    }

    /** The arena has spared every block. */
    method LeaveSame(k: int, ghost alien: Words, ghost s: Snapshot, ghost t: Snapshot)
      requires k in arenas && Open(k, alien) && Blocks(k, s) && Blocks(k, t)
      requires Tiled(s.L, s.S) && Agrees(store, s.mem, s.S)
      requires Spares(s, t, k, {}) && Spares(t, arenas[k].Now(), k, {})
      modifies this`store
      ensures Valid() && Untouched(old(store), store, granted, {})
    {
      hide Labelled, Agrees, Covers, SpansOff, Heap.Valid, Spares, Untouched;
      ghost var u, store0 := arenas[k].Now(), store;
      SparesOn(s, t, u, k, {}, {});
      BlocksStay(t, u, k);
      Leave(k, alien);
      Preserved(k, store0, s, granted, {});
    }

    /** The arena has spared every block but `p`, which is now at `q`. */
    method LeaveMoved(k: int, ghost alien: Words, ghost s: Snapshot, ghost t: Snapshot, ghost p: int, ghost q: int,
                      ghost bytes: nat)
      requires k in arenas && Open(k, alien) && Blocks(k, s) && Blocks(k, t) && p in granted && granted[p].arena == k
      requires Tiled(s.L, s.S) && Tiled(t.L, t.S) && Agrees(store, s.mem, s.S) && Agrees(store, t.mem, t.S)
      requires Spares(s, t, k, {}) && Spares(t, arenas[k].Now(), k, {p}) && Labelled(arenas[k].Now(), k, q, bytes)
      requires Labelled(t, k, p, granted[p].bytes)
      requires Moved(t.mem, arenas[k].Now().mem, p, q, Min(Usable(t.L[p]), bytes)) && (q != p ==> !Holding(t.L, q))
      modifies this`store, this`granted
      ensures Valid() && Untouched(old(store), store, old(granted), {p}) && (q != p ==> q !in old(granted))
      ensures granted == (old(granted) - {p})[q := Grant(k, bytes)]
      ensures Moved(old(store), store, p, q, Min(old(granted)[p].bytes, bytes))
    {
      hide Labelled, Agrees, Covers, SpansOff, Heap.Valid, Spares, Untouched;
      ghost var u, store0, g := arenas[k].Now(), store, granted;
      SparesOn(s, t, u, k, {}, {p});
      assert {} + {p} == {p};
      Exchange(k, alien, t, p, q, bytes);
      Leave(k, alien);
      Preserved(k, store0, s, g, {p});
      assert ArenaOk(k);
      SoundNow(arenas[k]);
      MovedInStore(store0, store, t, u, k, p, q, g[p].bytes, bytes);
    }

    /** A new arena, with nothing in it yet. */
    method NewArena(id: int)
      requires Valid() && id !in arenas
      modifies this`arenas
      ensures Valid() && arenas.Keys == old(arenas.Keys) + {id} && granted == old(granted) && store == old(store)
      ensures forall i {:trigger arenas[i]} :: i in old(arenas) ==> arenas[i] == old(arenas[i])
    {
      hide MState.Stored, MState.Booked, MState.Indexed, IsRun, Labelled;
      var h := new Heap();
      arenas := arenas[id := h];
      forall i {:trigger ArenaOk(i)} | i in arenas ensures ArenaOk(i) {
        assert i != id ==> old(ArenaOk(i));
      }
    }

    /** The client stores into one of its blocks. */
    method Write(mem: int, a: int, v: int)
      requires Valid() && mem - FD in granted && mem <= a < mem + granted[mem - FD].bytes
      modifies this`store, Objects()
      ensures Valid() && arenas == old(arenas) && granted == old(granted)
      ensures At(store, a) == v && Untouched(old(store), store, granted, {mem - FD})
    {
      hide MState.Stored, MState.Booked, MState.Indexed, IsRun, Agrees, SpansOff, Covers, Labelled, Spares;
      Routed(mem - FD);
      var ar := ArenaFor(store, mem);
      assert arenas[ar] in arenas.Values;
      WriteIn(ar, mem, a, v);
    }

    method WriteIn(ar: int, mem: int, a: int, v: int)
      requires Valid() && mem - FD in granted && granted[mem - FD].arena == ar && ar in arenas
      requires mem <= a < mem + granted[mem - FD].bytes
      modifies this`store, arenas[ar], arenas[ar].m
      ensures Valid() && At(store, a) == v && Untouched(old(store), store, granted, {mem - FD})
    {
      hide MState.Stored, MState.Booked, MState.Indexed, IsRun, SpansOff, Covers, Spares, Step, Untouched, MState.Clean;
      hide Roles;
      var h := arenas[ar];
      ghost var s, store0, p := h.Now(), store, mem - FD;
      ghost var alien := Enter(ar);
      ghost var t := h.Now();
      assert Labelled(t, ar, p, granted[p].bytes);
      OneWord(h.m.mem, h.m.L, p, a, v);
      var words := h.m.mem[a := v];
      h.Write(mem, words);
      ghost var u := h.Now();
      StepSpares(t, u, Wrote(p), ar);
      SparesOn(s, t, u, ar, {}, {p});
      assert {} + {p} == {p};
      StillLabelled(t, u, ar, p, granted[p].bytes, a, v);
      BlocksWritten(t, u, ar, p);
      assert Open(ar, alien);
      Leave(ar, alien);
      Preserved(ar, store0, s, granted, {p});
      assert ArenaOk(ar);
      SoundNow(h);
      PayloadInSpan(h.m.L, h.m.S, p, a);
    }

    lemma BlocksWritten(t: Snapshot, u: Snapshot, k: int, p: int)
      requires Blocks(k, t) && Spares(t, u, k, {p}) && p in granted && granted[p].arena == k
      requires Labelled(u, k, p, granted[p].bytes)
      ensures Blocks(k, u)
    {
      forall q {:trigger q in granted} | q in granted && granted[q].arena == k
        ensures Labelled(u, k, q, granted[q].bytes)
      {
        assert Labelled(t, k, q, granted[q].bytes);
      }
    }
  }

  /** A store into the bytes of a block leaves its tag alone. */
  lemma StillLabelled(t: Snapshot, u: Snapshot, id: int, p: int, bytes: nat, a: int, v: int)
    requires Labelled(t, id, p, bytes) && u.L == t.L && u.mem == t.mem[a := v] && Tiled(t.L, t.S)
    requires p + FD <= a < p + FD + bytes
    ensures Labelled(u, id, p, bytes)
  {
    if id != MAIN {
      TagFits(t.L, t.S, p, bytes);
    }
  }

  lemma MovedInStore(store: Words, store': Words, t: Snapshot, u: Snapshot, id: int, p: int, q: int, old': nat,
                     bytes: nat)
    requires Tiled(t.L, t.S) && Tiled(u.L, u.S) && Labelled(t, id, p, old') && Labelled(u, id, q, bytes)
    requires Agrees(store, t.mem, t.S) && Agrees(store', u.mem, u.S)
    requires Moved(t.mem, u.mem, p, q, Min(Usable(t.L[p]), bytes))
    ensures Moved(store, store', p, q, Min(old', bytes))
  {
    forall i {:trigger SameCell(store, store', p, q, i)} | 0 <= i < Min(old', bytes)
      ensures SameCell(store, store', p, q, i)
    {
      assert SameCell(t.mem, u.mem, p, q, i);
      PayloadInSpan(t.L, t.S, p, p + FD + i);
      PayloadInSpan(u.L, u.S, q, q + FD + i);
    }
  }

  /** Alignments below a minimum chunk are raised to it in any case. */
  lemma AtLeastMinimum(alignment: nat)
    ensures alignment < MIN_CHUNK ==> Rounded(alignment) == Rounded(MIN_CHUNK)
  {
  }

  lemma LabelHolds(s: Snapshot, id: int, p: int, bytes: nat)
    requires Labelled(s, id, p, bytes)
    ensures Holding(s.L, p)
  {
  }

  /** Blocks outside `x` have the same contents in memory. */
  ghost predicate Untouched(store: Words, store': Words, g: map<int, Grant>, x: set<int>) {
    forall p {:trigger p in g} :: p in g && p !in x ==> Intact(store, store', p, g[p].bytes)
  }

  lemma HeapParts(h: Heap)
    requires h.Valid()
    ensures Tiled(h.m.L, h.m.S) && OffState(h.m.S) && Foreign(h.m.mem, h.m.S, h.m.alien)
  {
  }
}
