/** Runs of the allocator, as the client sees them: which blocks it owns and what is in them. */
module History {
  import opened Client
  import opened Layout
  import opened Memory
  import opened Mremap
  import opened Words
  import SmallBins

  datatype Snapshot = Snapshot(mem: Words, L: Chunks, S: Spans)

  /** What one call did to the client's chunks. */
  datatype Event =
    | Given(p: int)                          // a chunk handed out
    | Taken(gone: set<int>)                  // chunks taken back
    | Changed(p: int, q: int, n: int)       // a chunk resized or moved, the first `n` bytes kept
    | Wrote(p: int)                         // stores by the client into its chunk
    | Nothing

  ghost predicate Holding(L: Chunks, b: int) { b in L && Owned(L[b].kind) }

  /** The chunk at `b` is the client's before and after, and unchanged. */
  ghost predicate Same(s: Snapshot, t: Snapshot, b: int) {
    && Holding(s.L, b) && Holding(t.L, b) && t.L[b].kind == s.L[b].kind && t.L[b].size == s.L[b].size
    && t.L[b].flag == s.L[b].flag
    && forall a {:trigger InPayload(s.L, b, a)} :: InPayload(s.L, b, a) ==> At(t.mem, a) == At(s.mem, a)
  }

  /** The chunks that an event is about, before and after. */
  function Before(e: Event): set<int> {
    match e
    case Given(p) => {}
    case Taken(gone) => gone
    case Changed(p, q, n) => {p}
    case Wrote(p) => {p}
    case Nothing => {}
  }

  function After(e: Event): set<int> {
    match e
    case Given(p) => {p}
    case Taken(gone) => {}
    case Changed(p, q, n) => {q}
    case Wrote(p) => {p}
    case Nothing => {}
  }

  /** The client's chunks change as the event says; the others keep size and contents. */
  ghost predicate Step(s: Snapshot, t: Snapshot, e: Event) {
    && (forall b {:trigger Holding(s.L, b)} :: b in Before(e) ==> Holding(s.L, b))
    && (forall b {:trigger Holding(t.L, b)} :: b in After(e) ==> Holding(t.L, b))
    && (forall b {:trigger Holding(s.L, b)} :: Holding(s.L, b) && b !in Before(e) ==> Same(s, t, b) && b !in After(e))
    && (forall b {:trigger Holding(t.L, b)} :: Holding(t.L, b) && b !in After(e) ==> Holding(s.L, b) && b !in Before(e))
    && (e.Given? ==> Holding(t.L, e.p) && !t.L[e.p].flag)
    && (e.Changed? ==> Holding(s.L, e.p) && Holding(t.L, e.q) && (t.L[e.q].flag ==> s.L[e.p].flag))
    && (e.Changed? ==> Holding(t.L, e.q) && e.n <= PayloadEnd(t.L[e.q]) - FD && Moved(s.mem, t.mem, e.p, e.q, e.n))
  }

  ghost predicate Sound(s: Snapshot) { Tiled(s.L, s.S) && OffState(s.S) }

  /** A run: it begins with nothing handed out, every state is sound and every step is one of the above. */
  ghost predicate IsRun(trace: seq<Snapshot>, events: seq<Event>) {
    && |trace| == |events| + 1 && trace[0].L == map[]
    && (forall i {:trigger Sound(trace[i])} :: 0 <= i < |trace| ==> Sound(trace[i]))
    && (forall i {:trigger events[i]} :: 0 <= i < |events| ==> Step(trace[i], trace[i + 1], events[i]))
  }

  // ---- what holds in every run

  /** The chunks handed out and not yet taken back, counted from the events alone. */
  function Ledger(events: seq<Event>): set<int> {
    if events == [] then {} else
      var e := events[|events| - 1];
      Ledger(events[..|events| - 1]) - Before(e) + After(e)
  }

  /** The heap's record of what the client owns agrees with the calls made. */
  lemma {:induction false} LedgerIsExact(trace: seq<Snapshot>, events: seq<Event>, j: nat, b: int)
    requires IsRun(trace, events) && j < |trace|
    ensures Holding(trace[j].L, b) <==> b in Ledger(events[..j])
    decreases j
  {
    if j > 0 {
      LedgerIsExact(trace, events, j - 1, b);
      var e := events[j - 1];
      assert events[..j][..j - 1] == events[..j - 1];
      assert Step(trace[j - 1], trace[j], e);
      assert Holding(trace[j - 1].L, b) || !Holding(trace[j - 1].L, b);
      assert Holding(trace[j].L, b) || !Holding(trace[j].L, b);
    }
  }

  /** Blocks are aligned, lie in one region off the allocator's static state, and never overlap. */
  lemma BlocksAreApart(trace: seq<Snapshot>, events: seq<Event>, j: nat, b: int, c: int)
    requires IsRun(trace, events) && j < |trace| && Holding(trace[j].L, b) && Holding(trace[j].L, c)
    ensures var L, S := trace[j].L, trace[j].S;
            && (b + FD) % 8 == 0 && L[b].home in S && S[L[b].home].base <= b
            && b + PayloadEnd(L[b]) <= S[L[b].home].End()
            && (forall a {:trigger InPayload(L, b, a)} :: InPayload(L, b, a) && InPayload(L, c, a) ==> b == c)
            && (forall a {:trigger InPayload(L, b, a)} :: InPayload(L, b, a) ==>
                    a < SmallBins.STATE || SmallBins.STATE_END <= a)
  {
    assert Sound(trace[j]);
    var L, S := trace[j].L, trace[j].S;
    ChunkAt(L, S, b);
    if !L[b].kind.Mapped? {
      NextAt(L, S, b);
    }
    forall a {:trigger InPayload(L, b, a)} | InPayload(L, b, a) && InPayload(L, c, a) ensures b == c {
      PayloadsApart(L, S, b, c, a);
    }
    forall a {:trigger InPayload(L, b, a)} | InPayload(L, b, a)
      ensures a < SmallBins.STATE || SmallBins.STATE_END <= a
    {
      OffPayload(L, S, b, a);
    }
  }

  /** The chunk is not freed, resized or written between two moments of a run. */
  ghost predicate LeftAlone(events: seq<Event>, i: nat, j: nat, b: int) {
    forall k {:trigger events[k]} :: i <= k < j <= |events| ==> b !in Before(events[k])
  }

  /** A block that the client leaves alone stays the client's, with the same size and contents, whatever
      happens to the others. */
  lemma {:induction false} ContentsPersist(trace: seq<Snapshot>, events: seq<Event>, i: nat, j: nat, b: int)
    requires IsRun(trace, events) && i <= j < |trace| && Holding(trace[i].L, b) && LeftAlone(events, i, j, b)
    ensures Same(trace[i], trace[j], b)
    decreases j - i
  {
    if i < j {
      ContentsPersist(trace, events, i, j - 1, b);
      var s, t := trace[j - 1], trace[j];
      assert Step(s, t, events[j - 1]) && Holding(s.L, b);
      assert Same(s, t, b);
      forall a {:trigger InPayload(trace[i].L, b, a)} | InPayload(trace[i].L, b, a)
        ensures At(t.mem, a) == At(trace[i].mem, a)
      {
        assert InPayload(s.L, b, a);
      }
    }
  }

  /** Between a resize and the next call on the block, the bytes it kept are those from before. */
  lemma ResizeKeeps(trace: seq<Snapshot>, events: seq<Event>, i: nat, j: nat, k: nat)
    requires IsRun(trace, events) && i < j < |trace| && events[i].Changed? && LeftAlone(events, i + 1, j, events[i].q)
    requires k < events[i].n
    ensures At(trace[j].mem, events[i].q + FD + k) == At(trace[i].mem, events[i].p + FD + k)
  {
    var e := events[i];
    assert Step(trace[i], trace[i + 1], e);
    assert Holding(trace[i + 1].L, e.q);
    ContentsPersist(trace, events, i + 1, j, e.q);
    assert SameCell(trace[i].mem, trace[i + 1].mem, e.p, e.q, k);
    assert InPayload(trace[i + 1].L, e.q, e.q + FD + k);
  }
}
