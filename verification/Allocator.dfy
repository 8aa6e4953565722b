/** The allocator as an object.  Its ghost history makes every sequence of calls a run. */
module Allocator {
  import opened Bits
  import opened Calloc
  import opened Client
  import opened Dlfree
  import opened Dlmalloc
  import opened Free
  import opened History
  import opened Layout
  import opened Malloc
  import opened MallocState
  import opened Memalign
  import opened Memory
  import opened Mremap
  import opened Segments
  import opened Sizes
  import opened SysMalloc
  import opened Words
  import BulkFree
  import Flags
  import Realloc
  import Trim

  /** The offers of the system fit a request of `bytes`. */
  ghost predicate OffersFit(S: Spans, alien: Words, bytes: nat, direct: Offer, offer: Offer) {
    OfferOk(S, alien, direct, RegionSize(PaddedSize(bytes))) && OfferOk(S, alien, offer, SegmentSize(PaddedSize(bytes)))
  }

  /** The block at `mem` is the client's, with room for `bytes`. */
  ghost predicate Room(L: Chunks, mem: int, bytes: int) {
    Holding(L, mem - FD) && bytes <= Usable(L[mem - FD])
  }

  /** The product that `calloc` is asked for. */
  function Product(n: nat, elem: nat): nat { n * elem }

  lemma PositiveChunk(m: MState, p: int)
    requires m.Valid() && p in m.L
    ensures 0 < p
  {
    ChunkAt(m.L, m.S, p);
  }

  lemma ServedRoom(L: Chunks, m: MState, p: int, bytes: int)
    requires m.Valid() && Served(L, m.L, p, bytes)
    ensures Added(L, m.L, p) && Room(m.L, p + FD, bytes) && 0 < p
  {
    PositiveChunk(m, p);
  }

  /** `chunk2mem`, null for null */
  function ToMem(p: int): int { if p == 0 then 0 else p + FD }

  /** `mem2chunk`, null for null */
  function ToChunk(mem: int): int { if mem == 0 then 0 else mem - FD }

  // ---- the contracts of the calls as steps of a run

  lemma StepGiven(s: Snapshot, t: Snapshot, p: int)
    requires Added(s.L, t.L, p) && Quiet(s.mem, t.mem, s.L)
    ensures Step(s, t, Given(p))
  {
  }

  lemma StepTaken(s: Snapshot, t: Snapshot, p: int)
    requires Removed(s.L, t.L, p) && Quiet(s.mem, t.mem, t.L) && Holding(s.L, p) && 0 !in t.L
    ensures Step(s, t, Taken({p}))
  {
    forall b {:trigger Holding(s.L, b)} | Holding(s.L, b) && b != p ensures Same(s, t, b) {
      SameQuiet(s, t, b);
    }
  }

  lemma SameQuiet(s: Snapshot, t: Snapshot, b: int)
    requires Holding(s.L, b) && b in t.L && t.L[b].kind == s.L[b].kind && t.L[b].size == s.L[b].size
    requires t.L[b].flag == s.L[b].flag
    requires Quiet(s.mem, t.mem, t.L)
    ensures Same(s, t, b)
  {
    forall a {:trigger InPayload(s.L, b, a)} | InPayload(s.L, b, a) ensures At(t.mem, a) == At(s.mem, a) {
      assert InPayload(t.L, b, a);
    }
  }

  lemma StepNothing(s: Snapshot, t: Snapshot)
    requires Beside(s.L, 0, t.L, 0) && Quiet(s.mem, t.mem, t.L) && 0 !in s.L && 0 !in t.L
    ensures Step(s, t, Nothing)
  {
    forall b {:trigger Holding(s.L, b)} | Holding(s.L, b) ensures Same(s, t, b) {
      SameQuiet(s, t, b);
    }
  }

  lemma StepSame(s: Snapshot)
    ensures Step(s, s, Nothing)
  {
  }

  lemma StepWrote(s: Snapshot, t: Snapshot, p: int)
    requires t.L == s.L && Holding(s.L, p) && OthersKept(s.mem, t.mem, s.L, p)
    ensures Step(s, t, Wrote(p))
  {
  }

  lemma StepRead(s: Snapshot, t: Snapshot)
    requires t.L == s.L && Quiet(s.mem, t.mem, s.L)
    ensures Step(s, t, Nothing)
  {
  }

  lemma StepFlagged(s: Snapshot, t: Snapshot, p: int)
    requires Holding(s.L, p) && t.L == Flags.Flag(s.L, p) && Quiet(s.mem, t.mem, t.L)
    ensures Step(s, t, Wrote(p))
  {
    forall b {:trigger Holding(s.L, b)} | Holding(s.L, b) && b != p ensures Same(s, t, b) {
      SameQuiet(s, t, b);
    }
  }

  lemma StepChanged(s: Snapshot, t: Snapshot, p: int, q: int, n: int)
    requires Beside(s.L, p, t.L, q) && OthersKept(s.mem, t.mem, s.L, p) && Moved(s.mem, t.mem, p, q, n)
    requires Holding(s.L, p) && Holding(t.L, q) && n <= Usable(t.L[q]) && (t.L[q].flag ==> s.L[p].flag)
    ensures Step(s, t, Changed(p, q, n))
  {
  }

  /** The chunks of the blocks in an array that were freed. */
  ghost function Gone(L: Chunks, M: Chunks): set<int> { set b | b in L && Holding(L, b) && !Holding(M, b) }

  lemma StepBulk(s: Snapshot, t: Snapshot, all: seq<int>)
    requires BulkFree.Freeing(s.L, all, t.L, []) && BulkFree.Spared(s.mem, t.mem, t.L, [])
    ensures Step(s, t, Taken(Gone(s.L, t.L)))
  {
    forall b {:trigger Holding(t.L, b)} | Holding(t.L, b) ensures Holding(s.L, b) && Same(s, t, b) {
      assert BulkFree.Staying(t.L, [], b);
      BulkFree.StayingSame(s.L, all, t.L, [], b);
      forall a {:trigger InPayload(s.L, b, a)} | InPayload(s.L, b, a) ensures At(t.mem, a) == At(s.mem, a) {
        assert InPayload(t.L, b, a);
      }
    }
  }

  /** The old chunk was copied, but the system did not take it back. */
  lemma StepCopied(s: Snapshot, t: Snapshot, q: int)
    requires Beside(s.L, 0, t.L, q) && Holding(t.L, q) && 0 !in s.L && Quiet(s.mem, t.mem, s.L) && !t.L[q].flag
    ensures Step(s, t, Given(q))
  {
  }

  method CallocProduct(m: MState, n: nat, elem: nat, direct: Offer, offer: Offer) returns (p: int)
    requires m.Valid() && m.Booked() && n < SPACE && elem < SPACE
    requires OffersFit(m.S, m.alien, CallocRequest(n, elem), direct, offer)
    modifies m
    ensures m.alien == old(m.alien)
    ensures m.Valid() && m.Booked() && Quiet(old(m.mem), m.mem, old(m.L))
    ensures p == 0 ==> unchanged(m)
    ensures p != 0 ==> Served(old(m.L), m.L, p, Product(n, elem)) && Zeros(m.mem, p, Product(n, elem))
    ensures Product(n, elem) >= MAX_REQUEST ==> p == 0
    ensures p != 0 <==> old(CanServe(m, CallocRequest(n, elem), direct, offer))
  {
    hide MState.Valid, MState.Booked, OfferOk, RegionSize, SegmentSize, PaddedSize, Served, Quiet, Zeros, CallocRequest;
    p := DlCalloc(m, n, elem, direct, offer);
  }

  /** A block resized or moved; or copied, the system having refused to take the old one back. */
  ghost predicate Relocation(s: Snapshot, t: Snapshot, p: int, q: int, n: int, refused: bool) {
    Step(s, t, Changed(p, q, n)) || (refused && Step(s, t, Given(q)) && Moved(s.mem, t.mem, p, q, n))
  }

  class Heap {
    const m: MState
    ghost var trace: seq<Snapshot>
    ghost var events: seq<Event>

    ghost function Now(): Snapshot
      reads this, m
    {
      Snapshot(m.mem, m.L, m.S)
    }

    /** The heap is well-formed, and where a run has led to. */
    ghost predicate Valid()
      reads this, m
    {
      m.Valid() && m.Booked() && IsRun(trace, events) && trace[|events|] == Now()
    }

    constructor ()
      ensures Valid() && fresh(m) && events == [] && m.alien == map[] && m.S == map[]
    {
      m := new MState();
      new;
      trace := [Snapshot(m.mem, m.L, m.S)];
      events := [];
      assert Sound(trace[0]);
    }

    /** One more event. */
    ghost method Record(e: Event)
      requires m.Valid() && m.Booked() && IsRun(trace, events) && Step(trace[|events|], Now(), e)
      modifies this
      ensures Valid() && events == old(events) + [e] && trace == old(trace) + [Now()]
    {
      hide Step;
      var trace0, events0 := trace, events;
      assert Sound(Now()) by {
        assert m.Stored();
      }
      trace := trace + [Now()];
      events := events + [e];
      forall i {:trigger Sound(trace[i])} | 0 <= i < |trace| ensures Sound(trace[i]) {
        assert i < |trace0| ==> Sound(trace0[i]);
      }
      forall i {:trigger events[i]} | 0 <= i < |events| ensures Step(trace[i], trace[i + 1], events[i]) {
        if i < |events0| {
          assert Step(trace0[i], trace0[i + 1], events0[i]);
        }
      }
    }

    /** `malloc` */
    method Malloc(bytes: nat, direct: Offer, offer: Offer) returns (mem: int)
      requires Valid() && bytes < SPACE && OffersFit(m.S, m.alien, bytes, direct, offer)
      modifies this, m
      ensures m.alien == old(m.alien)
      ensures Valid() && trace == old(trace) + [Now()]
      ensures mem != 0 <==> old(CanServe(m, bytes, direct, offer))
      ensures mem == 0 ==> events == old(events) + [Nothing] && Now() == old(Now())
      ensures mem != 0 ==>
                events == old(events) + [Given(mem - FD)] && Room(m.L, mem, bytes)
                    && Step(old(Now()), Now(), Given(mem - FD))
    {
      hide MState.Valid, MState.Booked, Step, IsRun, OfferOk, RegionSize, SegmentSize, PaddedSize, Added, Quiet;
      hide ZeroPayload, Served, CanServe;
      ghost var s := Now();
      var p := Allocate(m, bytes, direct, offer);
      if p == 0 {
        StepSame(s);
        Record(Nothing);
      } else {
        ServedRoom(s.L, m, p, bytes);
        StepGiven(s, Now(), p);
        Record(Given(p));
      }
      mem := ToMem(p);
    }

    /** `calloc` */
    method Calloc(n: nat, elem: nat, direct: Offer, offer: Offer) returns (mem: int)
      requires Valid() && n < SPACE && elem < SPACE && OffersFit(m.S, m.alien, CallocRequest(n, elem), direct, offer)
      modifies this, m
      ensures m.alien == old(m.alien)
      ensures Valid() && trace == old(trace) + [Now()]
      ensures mem != 0 <==> old(CanServe(m, CallocRequest(n, elem), direct, offer))
      ensures mem == 0 ==> events == old(events) + [Nothing] && Now() == old(Now())
      ensures mem != 0 ==>
                events == old(events) + [Given(mem - FD)] && Room(m.L, mem, Product(n, elem))
                    && Zeros(m.mem, mem - FD, Product(n, elem)) && Step(old(Now()), Now(), Given(mem - FD))
      ensures Product(n, elem) >= MAX_REQUEST ==> mem == 0
    {
      hide MState.Valid, MState.Booked, Step, IsRun, OfferOk, RegionSize, SegmentSize, PaddedSize, Added, Quiet, Zeros;
      hide Product, Served, CallocRequest, CanServe;
      ghost var s := Now();
      var p := CallocProduct(m, n, elem, direct, offer);
      if p == 0 {
        StepSame(s);
        Record(Nothing);
      } else {
        ServedRoom(s.L, m, p, Product(n, elem));
        StepGiven(s, Now(), p);
        Record(Given(p));
      }
      mem := ToMem(p);
    }

    /** `free` */
    method Free(mem: int, a: Answers)
      requires Valid() && (mem != 0 ==> Holding(m.L, mem - FD))
      modifies this, m
      ensures m.alien == old(m.alien)
      ensures Valid() && trace == old(trace) + [Now()]
      ensures if mem == 0 || (old(m.L)[mem - FD].kind.Mapped? && !a.unmapped) then
                events == old(events) + [Nothing] && Now() == old(Now())
              else events == old(events) + [Taken({mem - FD})] && Step(old(Now()), Now(), Taken({mem - FD}))
      ensures mem != 0 ==> FreedBlock(old(m.L), mem - FD, old(Books(m)), a, m)
    {
      hide MState.Stored, MState.Indexed, MState.Booked, Step, IsRun, Beside, Quiet, Roles, FreedLive;
      ghost var s := Now();
      var p := if mem == 0 then 0 else mem - FD;
      NullIsFree(m);
      DlFree(m, p, a);
      NullIsFree(m);
      if mem == 0 || (s.L[p].kind.Mapped? && !a.unmapped) {
        StepSame(s);
        Record(Nothing);
      } else {
        StepTaken(s, Now(), p);
        Record(Taken({p}));
      }
    }

    /** `realloc` */
    method ReallocBlock(mem: int, bytes: nat, direct: Offer, offer: Offer, remap: Offer, a: Answers)
      returns (moved: int)
      requires Valid() && bytes < SPACE && (mem != 0 ==> Holding(m.L, mem - FD))
      requires Realloc.ReallocOffers(m.L, m.S, m.alien, ToChunk(mem), bytes, direct, offer, remap)
      modifies this, m
      ensures m.alien == old(m.alien)
      ensures moved != 0 <==> old(Realloc.CanRealloc(m, ToChunk(mem), bytes, direct, offer, remap))
      ensures moved == 0 ==> Valid() && events == old(events) + [Nothing] && Now() == old(Now())
      ensures moved == 0 ==> trace == old(trace) + [Now()]
      ensures !Realloc.Spoils(old(m.L), ToChunk(mem), bytes, remap) ==>
                && Valid() && trace == old(trace) + [Now()] && (moved != 0 ==> Room(m.L, moved, bytes))
                && |events| == |old(events)| + 1 && events[..|old(events)|] == old(events)
      ensures !Realloc.Spoils(old(m.L), ToChunk(mem), bytes, remap) && moved != 0 && mem == 0 ==>
                events == old(events) + [Given(moved - FD)] && Step(old(Now()), Now(), Given(moved - FD))
      ensures !Realloc.Spoils(old(m.L), ToChunk(mem), bytes, remap) && moved != 0 && mem != 0 ==>
                Relocation(old(Now()), Now(), mem - FD, moved - FD, Min(Usable(old(m.L)[mem - FD]), bytes),
                           Realloc.Refusing(old(m.L), mem - FD, a))
      ensures !Realloc.Spoils(old(m.L), ToChunk(mem), bytes, remap) && moved != 0 && mem != 0 ==>
                || events == old(events) + [Changed(mem - FD, moved - FD, Min(Usable(old(m.L)[mem - FD]), bytes))]
                || (Realloc.Refusing(old(m.L), mem - FD, a) && events == old(events) + [Given(moved - FD)])
      ensures !Realloc.Spoils(old(m.L), ToChunk(mem), bytes, remap) && moved != 0 ==>
                Realloc.Settled(old(m.mem), m.mem, old(m.L), m.L, ToChunk(mem), moved - FD, bytes, remap)
    {
      hide MState.Stored, MState.Indexed, MState.Booked, Step, IsRun, Beside, Quiet, Roles, OfferOk, RegionSize;
      hide SegmentSize, PaddedSize;
      hide OthersKept, Moved, Realloc.CanRealloc, Realloc.ReallocOffers, Realloc.Overrunning, Realloc.Settled;
      ghost var s := Now();
      var p := ToChunk(mem);
      NullIsFree(m);
      UsableNat(m, p);
      var q := Realloc.DlRealloc(m, p, bytes, direct, offer, remap, a);
      moved := ToMem(q);
      if q == 0 {
        StepSame(s);
        Record(Nothing);
      } else if !Realloc.Spoils(s.L, p, bytes, remap) {
        NullIsFree(m);
        PositiveChunk(m, q);
        ghost var t := Now();
        if mem == 0 {
          StepFromNull(s, t, q);
          Record(Given(q));
        } else if Beside(s.L, p, t.L, q) {
          StepChanged(s, t, p, q, Min(Usable(s.L[p]), bytes));
          Record(Changed(p, q, Min(Usable(s.L[p]), bytes)));
        } else {
          StepCopied(s, t, q);
          Record(Given(q));
        }
      }
    }

    /** `memalign` */
    method AlignedBlock(alignment: nat, bytes: nat, direct: Offer, offer: Offer) returns (mem: int)
      requires Valid() && alignment <= HALF && bytes < SPACE
      requires bytes + Rounded(alignment) < MAX_REQUEST ==>
                 OffersFit(m.S, m.alien, AlignRequest(Rounded(alignment), bytes), direct, offer)
      modifies this, m
      ensures m.alien == old(m.alien)
      ensures Valid() && trace == old(trace) + [Now()]
      ensures mem != 0 <==>
                bytes + Rounded(alignment) < MAX_REQUEST
                    && old(CanServe(m, AlignRequest(Rounded(alignment), bytes), direct, offer))
      ensures mem == 0 ==> events == old(events) + [Nothing] && Now() == old(Now())
      ensures mem != 0 ==>
                events == old(events) + [Given(mem - FD)] && Room(m.L, mem, bytes)
                    && Step(old(Now()), Now(), Given(mem - FD))
      ensures var al := Rounded(alignment);
              IsPower(al) && 32 <= al && alignment <= al && (mem != 0 ==> AlignedTo(mem, al))
    {
      hide MState.Valid, MState.Booked, Step, IsRun, OfferOk, RegionSize, SegmentSize, PaddedSize, Added, Quiet, Served;
      hide AlignedTo, IsPower, Rounded, CanServe;
      ghost var s := Now();
      var p := Memalign.Memalign(m, alignment, bytes, direct, offer);
      if p == 0 {
        StepSame(s);
        Record(Nothing);
      } else {
        ServedRoom(s.L, m, p, bytes);
        StepGiven(s, Now(), p);
        Record(Given(p));
      }
      mem := ToMem(p);
    }

    /** Memory outside the regions of the heap read anew; the words of others there are `alien`. */
    method Refresh(z: Words, ghost alien: Words)
      requires Valid() && Steady(m.mem, z, m.L) && Foreign(z, m.S, alien)
      modifies this, m`mem, m`alien
      ensures Valid() && m.mem == z && m.alien == alien && m.L == old(m.L) && m.S == old(m.S)
      ensures events == old(events) + [Nothing] && trace == old(trace) + [Now()]
      ensures Step(old(Now()), Now(), Nothing)
    {
      hide MState.Stored, MState.Indexed, Step, IsRun, Quiet, Steady, Foreign, Roles, SegsOk, DirectOk, Total;
      hide MState.Listed;
      ghost var s := Now();
      Reread(m, z, alien);
      StepRead(s, Now());
      Record(Nothing);
    }

    /** The flag of a block is set. */
    method SetFlag(mem: int)
      requires Valid() && Holding(m.L, mem - FD)
      modifies this, m
      ensures m.alien == old(m.alien)
      ensures Valid() && m.L == Flags.Flag(old(m.L), mem - FD) && m.S == old(m.S)
      ensures events == old(events) + [Wrote(mem - FD)] && trace == old(trace) + [Now()]
      ensures Step(old(Now()), Now(), Wrote(mem - FD))
      ensures forall a {:trigger At(m.mem, a)} :: a != mem - FD + HEAD ==> At(m.mem, a) == At(old(m.mem), a)
    {
      hide MState.Valid, MState.Booked, Step, IsRun, Quiet;
      ghost var s := Now();
      Flags.SetFlag(m, mem - FD);
      StepFlagged(s, Now(), mem - FD);
      Record(Wrote(mem - FD));
    }

    /** The client stores into one of its blocks. */
    method Write(mem: int, words: Words)
      requires Valid() && Holding(m.L, mem - FD) && Inside(m.mem, words, m.L, mem - FD)
      modifies this, m
      ensures m.alien == old(m.alien)
      ensures Valid() && m.mem == words && m.L == old(m.L) && m.S == old(m.S)
      ensures events == old(events) + [Wrote(mem - FD)] && trace == old(trace) + [Now()]
      ensures Step(old(Now()), Now(), Wrote(mem - FD))
    {
      hide MState.Stored, MState.Indexed, Step, IsRun, Roles, SegsOk, DirectOk, Total, TopEnds, Inside, MState.Listed;
      ghost var s := Now();
      Store(m, mem - FD, words);
      StepWrote(s, Now(), mem - FD);
      Record(Wrote(mem - FD));
    }

    /** `malloc_trim` */
    method TrimHeap(pad: nat, shrunk: bool, answers: seq<bool>) returns (released: int)
      requires Valid()
      modifies this, m
      ensures m.alien == old(m.alien)
      ensures Valid() && 0 <= released == old(m.footprint) - m.footprint
      ensures if pad < MAX_REQUEST && old(m.top) != 0 then
                Trim.TrimmedAll(old(m.L), old(m.segs), old(m.topsize), old(m.trimCheck), pad, shrunk, answers, m,
                                released)
              else released == 0
      ensures events == old(events) + [Nothing] && trace == old(trace) + [Now()] && Step(old(Now()), Now(), Nothing)
    {
      hide MState.Stored, MState.Indexed, MState.Booked, Step, IsRun, Beside, Quiet, Roles, Trim.TrimmedAll;
      ghost var s := Now();
      NullIsFree(m);
      released := Trim.SysTrim(m, pad, shrunk, answers);
      NullIsFree(m);
      StepNothing(s, Now());
      Record(Nothing);
    }

    /** `bulk_free` */
    method FreeAll(a: array<int>, unmaps: seq<bool>, answers: Answers)
      requires Valid() && BulkFree.OwnedBlocks(m.L, a[..])
      modifies this, m, a
      ensures m.alien == old(m.alien)
      ensures Valid() && (forall i :: 0 <= i < a.Length ==> a[i] == 0)
      ensures events == old(events) + [Taken(Gone(old(m.L), m.L))] && trace == old(trace) + [Now()]
      ensures Step(old(Now()), Now(), Taken(Gone(old(m.L), m.L)))
      ensures forall b {:trigger Holding(old(m.L), b)} :: Holding(old(m.L), b) ==>
                (Holding(m.L, b) <==> !Goes(old(m.L), old(a[..]), unmaps, b))
    {
      hide MState.Valid, MState.Booked, Step, IsRun, BulkFree.Freeing, BulkFree.Spared, BulkFree.OwnedBlocks;
      hide BulkFree.MappedFreed, BulkFree.EndOfBulk, Goes;
      ghost var s, all := Now(), a[..];
      BulkFree.PositiveChunks(m);
      ghost var between, books := BulkFree.BulkFree(m, a, unmaps, answers);
      StepBulk(s, Now(), all);
      FreedListed(s.L, all, unmaps, m.L);
      Record(Taken(Gone(s.L, m.L)));
    }

    /** A block that the client leaves alone from moment `i` of the run on is still the client's, with the same size and
        contents. */
    lemma LeftAsItWas(i: nat, b: int)
      requires Valid() && i <= |events| && Holding(trace[i].L, b) && LeftAlone(events, i, |events|, b)
      ensures Same(trace[i], Now(), b)
    {
      ContentsPersist(trace, events, i, |events|, b);
    }
  }

  /** Of the live chunks of segments, exactly the listed ones are gone; of the mapped ones, none that is not listed. */
  /** A listed block is freed: always in a segment, and if the system takes its region when it has one. */
  ghost predicate Goes(L: Chunks, all: seq<int>, unmaps: seq<bool>, b: int)
    requires b in L
  {
    if L[b].kind.Live? then BulkFree.Listed(all, b)
    else exists i {:trigger all[i]} :: 0 <= i < |all| && all[i] == b + FD && BulkFree.Takes(unmaps, i)
  }

  lemma FreedListed(L: Chunks, all: seq<int>, unmaps: seq<bool>, M: Chunks)
    requires BulkFree.Freeing(L, all, M, []) && BulkFree.MappedFreed(L, all, unmaps, M) && -FD !in L
    ensures forall b {:trigger Holding(L, b)} :: Holding(L, b) ==> (Holding(M, b) <==> !Goes(L, all, unmaps, b))
  {
    forall b {:trigger Holding(L, b)} | Holding(L, b) ensures Holding(M, b) <==> !Goes(L, all, unmaps, b) {
      assert !BulkFree.Listed([], b);
      if BulkFree.Listed(all, b) {
        var i :| 0 <= i < |all| && all[i] == b + FD;
        assert L[b].kind.Mapped? ==> BulkFree.MappedEntry(L, all[i]);
      }
    }
  }

  lemma StepFromNull(s: Snapshot, t: Snapshot, q: int)
    requires Beside(s.L, 0, t.L, q) && OthersKept(s.mem, t.mem, s.L, 0) && 0 !in s.L && Holding(t.L, q) && !t.L[q].flag
    ensures Step(s, t, Given(q))
  {
  }

  lemma UsableNat(m: MState, p: int)
    requires m.Valid()
    ensures Holding(m.L, p) ==> Usable(m.L[p]) >= 0
  {
    if Holding(m.L, p) {
      ChunkAt(m.L, m.S, p);
    }
  }
}
