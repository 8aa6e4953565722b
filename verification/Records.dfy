/** The list of segments: every segment but the newest has its record in a chunk at its end, and the list is read and
    changed through memory. */
module Records {
  import opened Layout
  import opened MallocState
  import opened Memory
  import opened Segments
  import opened Sizes
  import opened Words

  // ---- reading

  /** The record at `sp`. */
  function ReadSeg(seg: Seg, mem: Words, sp: int): Seg {
    if sp == SEG then seg else Seg(At(mem, sp), At(mem, sp + WORD), At(mem, sp + 2 * WORD))
  }

  /** Memory leads from record to record. */
  lemma RecordReads(m: MState, k: nat)
    requires m.Stored() && m.staleTails == {} && m.Listed() && k < |m.segs|
    ensures var sp := RecordAt(m.links, k);
            && ReadSeg(m.seg, m.mem, sp) == Seg(m.segs[k].base, m.segs[k].size, NextRecord(m.links, k))
            && sp != 0 && (k > 0 ==> RecordChunk(m, k))
    ensures k + 1 < |m.segs| ==> NextRecord(m.links, k) == RecordAt(m.links, k + 1)
  {
    if k > 0 {
      Noted(m, k);
    }
  }

  /** The chunk of the record of segment `k`. */
  ghost predicate RecordChunk(m: MState, k: nat)
    requires k < |m.links| == |m.ids|
    reads m
  {
    var r := m.links[k];
    && r in m.L && m.L[r].kind.Record? && m.L[r].home == m.ids[k] && TOP_FOOT <= m.L[r].size && r % 8 == 0 && 0 < r
    && RecordAt(m.links, k) != SEG
  }

  lemma Noted(m: MState, k: nat)
    requires m.Stored() && m.staleTails == {} && m.Listed() && 0 < k < |m.segs|
    ensures RecordChunk(m, k) && m.links[k] in m.notes && NoteAt(m.mem, m.links[k], m.notes[m.links[k]])
    ensures m.notes[m.links[k]] == Note(m.segs[k].base, m.segs[k].size, NextRecord(m.links, k), m.ids[k])
  {
    var r := m.links[k];
    assert LinkAt(m.segs, m.ids, m.links, m.notes, k);
    assert TailOk(m.mem, m.L, r, m.notes);
    ChunkAt(m.L, m.S, r);
    ClearOfState(m.L, m.S, r, FD);
  }

  // ---- walking

  ghost predicate Found(m: MState, sp: int, k: nat)
    reads m
  {
    k <= |m.segs| == |m.links| && sp == if k < |m.segs| then RecordAt(m.links, k) else 0
  }

  /** `segment_holding`: the record of the first segment of the list that holds `a`, or null. */
  method SegmentHolding(m: MState, a: int) returns (sp: int, ghost k: nat)
    requires m.Stored() && m.staleTails == {} && m.Listed() && m.segs != []
    ensures Found(m, sp, k) && (k < |m.segs| ==> m.segs[k].base <= a < m.segs[k].End())
    ensures forall j {:trigger m.segs[j]} :: 0 <= j < k ==> !(m.segs[j].base <= a < m.segs[j].End())
  {
    hide MState.Stored, MState.Listed;
    ListedLengths(m);
    sp, k := SEG, 0;
    while sp != 0
      invariant Found(m, sp, k) && (sp == 0 <==> k == |m.segs|)
      invariant forall j {:trigger m.segs[j]} :: 0 <= j < k ==> !(m.segs[j].base <= a < m.segs[j].End())
      decreases |m.segs| - k
    {
      RecordReads(m, k);
      var s := ReadSeg(m.seg, m.mem, sp);
      if s.base <= a < s.base + s.size {
        return;
      }
      sp := s.next;
      k := k + 1;
      Onward(m, k);
    }
  }

  lemma ListedLengths(m: MState)
    requires m.Listed()
    ensures |m.segs| == |m.links| == |m.ids|
  {
  }

  lemma Onward(m: MState, k: nat)
    requires m.Stored() && m.staleTails == {} && m.Listed() && 0 < k <= |m.segs|
    ensures |m.links| == |m.segs|
    ensures if k < |m.segs| then NextRecord(m.links, k - 1) == RecordAt(m.links, k) != 0
            else NextRecord(m.links, k - 1) == 0
  {
    if k < |m.segs| {
      RecordReads(m, k);
    }
  }

  /** The first segment that ends at `a`, by its record, or null. */
  method SegmentEnding(m: MState, a: int) returns (sp: int, ghost k: nat)
    requires m.Stored() && m.staleTails == {} && m.Listed() && m.segs != []
    ensures Found(m, sp, k) && (k < |m.segs| ==> m.segs[k].End() == a)
    ensures forall j {:trigger m.segs[j]} :: 0 <= j < k ==> m.segs[j].End() != a
  {
    hide MState.Stored, MState.Listed;
    ListedLengths(m);
    sp, k := SEG, 0;
    RecordReads(m, 0);
    var s := ReadSeg(m.seg, m.mem, sp);
    while sp != 0 && a != s.base + s.size
      invariant Found(m, sp, k) && (sp == 0 <==> k == |m.segs|)
      invariant sp != 0 ==> s.base == m.segs[k].base && s.size == m.segs[k].size && s.next == NextRecord(m.links, k)
      invariant forall j {:trigger m.segs[j]} :: 0 <= j < k ==> m.segs[j].End() != a
      decreases |m.segs| - k
    {
      sp := s.next;
      k := k + 1;
      Onward(m, k);
      if sp != 0 {
        RecordReads(m, k);
        s := ReadSeg(m.seg, m.mem, sp);
      }
    }
  }

  /** The first segment that begins at `a`, by its record, or null. */
  method SegmentStarting(m: MState, a: int) returns (sp: int, ghost k: nat)
    requires m.Stored() && m.staleTails == {} && m.Listed() && m.segs != []
    ensures Found(m, sp, k) && (k < |m.segs| ==> m.segs[k].base == a)
    ensures forall j {:trigger m.segs[j]} :: 0 <= j < k ==> m.segs[j].base != a
  {
    hide MState.Stored, MState.Listed;
    ListedLengths(m);
    sp, k := SEG, 0;
    RecordReads(m, 0);
    var s := ReadSeg(m.seg, m.mem, sp);
    while sp != 0 && s.base != a
      invariant Found(m, sp, k) && (sp == 0 <==> k == |m.segs|)
      invariant sp != 0 ==> s.base == m.segs[k].base && s.next == NextRecord(m.links, k)
      invariant forall j {:trigger m.segs[j]} :: 0 <= j < k ==> m.segs[j].base != a
      decreases |m.segs| - k
    {
      sp := s.next;
      k := k + 1;
      Onward(m, k);
      if sp != 0 {
        RecordReads(m, k);
        s := ReadSeg(m.seg, m.mem, sp);
      }
    }
  }

  /** `has_segment_link`: whether some record lies in the segment `x` */
  method HasSegmentLink(m: MState, x: Seg) returns (linked: bool)
    requires m.Stored() && m.staleTails == {} && m.Listed() && m.segs != []
    ensures |m.links| == |m.segs|
    ensures linked <==>
              exists k {:trigger RecordAt(m.links, k)} ::
                0 <= k < |m.links| && x.base <= RecordAt(m.links, k) < x.base + x.size
  {
    hide MState.Stored, MState.Listed;
    ListedLengths(m);
    var sp := SEG;
    ghost var k: nat := 0;
    while sp != 0
      invariant Found(m, sp, k) && (sp == 0 <==> k == |m.segs|)
      invariant forall j {:trigger RecordAt(m.links, j)} :: 0 <= j < k ==>
                  !(x.base <= RecordAt(m.links, j) < x.base + x.size)
      decreases |m.segs| - k
    {
      if x.base <= sp < x.base + x.size {
        return true;
      }
      RecordReads(m, k);
      sp := ReadSeg(m.seg, m.mem, sp).next;
      k := k + 1;
      Onward(m, k);
    }
    linked := false;
  }

  // ---- writing

  /** A record that is being written: what it is to say is `n` now. */
  ghost method Renote(m: MState, r: int, n: Note)
    requires m.Stored() && r in m.L && m.L[r].kind.Record? && r in m.staleTails
    modifies m`notes
    ensures m.Stored() && m.notes == old(m.notes)[r := n]
  {
    var notes := m.notes[r := n];
    forall p {:trigger TailOk(m.mem, m.L, p, notes)} | p in m.L && p !in m.staleTails
      ensures TailOk(m.mem, m.L, p, notes)
    {
      assert TailOk(m.mem, m.L, p, m.notes);
    }
    m.notes := notes;
  }

  /** The fences behind a record. */
  ghost predicate Fenced(mem: Words, p: int, end: int) {
    forall a {:trigger FenceAt(mem, a)} :: p + RECORD + HEAD <= a < end && a % 8 == 0 ==> FenceAt(mem, a)
  }

  /** The four fields of a record in a chunk. */
  method PutFields(m: MState, r: int, base: int, size: int, next: int)
    requires m.Stored() && r in m.L && m.L[r].kind.Record? && RECORD + HEAD <= m.L[r].size
    modifies m`mem, m`staleTails
    ensures m.Stored() && m.staleTails == old(m.staleTails) + {r} && Quiet(old(m.mem), m.mem, m.L)
    ensures At(m.mem, r + FD) == base && At(m.mem, r + FD + WORD) == size && At(m.mem, r + FD + 2 * WORD) == next
    ensures At(m.mem, r + FD + 3 * WORD) == USE_MMAP
    ensures Fenced(old(m.mem), r, r + m.L[r].size) ==> Fenced(m.mem, r, r + m.L[r].size)
  {
    hide MState.Stored, Quiet;
    ghost var mem0 := m.mem;
    PutInside(m, r, FD, base);
    ghost var mem1 := m.mem;
    PutInside(m, r, FD + WORD, size);
    ghost var mem2 := m.mem;
    PutInside(m, r, FD + 2 * WORD, next);
    ghost var mem3 := m.mem;
    PutInside(m, r, FD + 3 * WORD, USE_MMAP);
    QuietOn(mem0, mem1, mem2, m.L);
    QuietOn(mem0, mem2, mem3, m.L);
    QuietOn(mem0, mem3, m.mem, m.L);
    ghost var end := r + m.L[r].size;
    forall a {:trigger FenceAt(m.mem, a)} | Fenced(mem0, r, end) && r + RECORD + HEAD <= a < end && a % 8 == 0
      ensures FenceAt(m.mem, a)
    {
      assert FenceAt(mem0, a);
    }
  }

  lemma QuietOn(mem: Words, mem1: Words, mem2: Words, L: Chunks)
    requires Quiet(mem, mem1, L) && Quiet(mem1, mem2, L)
    ensures Quiet(mem, mem2, L)
  {
  }

  /** What the record at `r` says is changed, in memory and in the notes. */
  method Rewrite(m: MState, r: int, ghost n: Note, base: int, size: int, next: int)
    requires m.Stored() && m.staleTails == {} && r in m.L && m.L[r].kind.Record?
    requires n == Note(base, size, next, m.L[r].home)
    modifies m`mem, m`staleTails, m`notes
    ensures m.Stored() && m.staleTails == {} && Quiet(old(m.mem), m.mem, m.L) && m.notes == old(m.notes)[r := n]
  {
    hide Tiled, Tagged, Bins, RingsStored, TriesStored, OffState, LeastOk, Foreign, Quiet;
    ChunkAt(m.L, m.S, r);
    assert TailOk(m.mem, m.L, r, m.notes);
    assert Fenced(m.mem, r, r + m.L[r].size);
    PutFields(m, r, base, size, next);
    Renote(m, r, n);
    FixTail(m, r);
    assert {} + {r} - {r} == {};
  }

  /** `sp->base = base; sp->size = size` */
  method SetSpan(m: MState, sp: int, base: int, size: nat, ghost k: nat)
    requires m.Stored() && m.staleTails == {} && m.Listed() && k < |m.segs| && Found(m, sp, k)
    modifies m`mem, m`seg, m`segs, m`notes, m`staleTails
    ensures m.Stored() && m.staleTails == {} && m.Listed() && Quiet(old(m.mem), m.mem, m.L)
    ensures m.segs == old(m.segs)[k := Span(base, size)]
  {
    hide MState.Stored, Quiet;
    QuietSelf(m.mem, m.L);
    RecordReads(m, k);
    ghost var segs, notes := m.segs, m.notes;
    if sp == SEG {
      m.seg := m.seg.(base := base, size := size);
    } else {
      var next := At(m.mem, sp + 2 * WORD);
      Rewrite(m, sp - FD, Note(base, size, next, m.ids[k]), base, size, next);
    }
    m.segs := m.segs[k := Span(base, size)];
    RespannedLinks(segs, m.ids, m.links, notes, k, Span(base, size), m.notes);
  }

  lemma QuietSelf(mem: Words, L: Chunks)
    ensures Quiet(mem, mem, L)
  {
  }

  lemma RespannedLinks(segs: seq<Span>, ids: seq<nat>, links: seq<int>, notes: Notes, k: nat, x: Span, notes': Notes)
    requires |segs| == |ids| == |links| && k < |segs|
    requires forall j {:trigger LinkAt(segs, ids, links, notes, j)} :: 0 < j < |segs| ==>
               LinkAt(segs, ids, links, notes, j)
    requires forall i, j {:trigger ids[i], ids[j]} :: 0 <= i < j < |ids| ==> ids[i] != ids[j]
    requires notes' == if k == 0 then notes else notes[links[k] := Note(x.base, x.size, NextRecord(links, k), ids[k])]
    ensures forall j {:trigger LinkAt(segs[k := x], ids, links, notes', j)} :: 0 < j < |segs| ==>
              LinkAt(segs[k := x], ids, links, notes', j)
  {
    forall j {:trigger LinkAt(segs[k := x], ids, links, notes', j)} | 0 < j < |segs|
      ensures LinkAt(segs[k := x], ids, links, notes', j)
    {
      assert LinkAt(segs, ids, links, notes, j);
      assert k > 0 ==> LinkAt(segs, ids, links, notes, k);
      assert j < k ==> ids[j] != ids[k];
      assert k < j ==> ids[k] != ids[j];
    }
  }

  /** `pred->next = next`: the record of segment `k` leaves the list. */
  method Unlink(m: MState, pred: int, next: int, ghost k: nat)
    requires m.Stored() && m.staleTails == {} && m.Listed() && 0 < k < |m.segs| == |m.links|
    requires pred == RecordAt(m.links, k - 1) && next == NextRecord(m.links, k)
    modifies m`mem, m`seg, m`segs, m`ids, m`links, m`notes, m`staleTails
    ensures m.Stored() && m.staleTails == {} && m.Listed() && Quiet(old(m.mem), m.mem, m.L)
    ensures m.segs == Without(old(m.segs), k) && |old(m.ids)| == |old(m.segs)| && m.ids == Without(old(m.ids), k)
    ensures m.links == Without(old(m.links), k)
  {
    hide MState.Stored, Quiet;
    QuietSelf(m.mem, m.L);
    RecordReads(m, k - 1);
    ghost var segs, ids, links, notes := m.segs, m.ids, m.links, m.notes;
    if pred == SEG {
      m.seg := m.seg.(next := next);
    } else {
      var base, size := At(m.mem, pred), At(m.mem, pred + WORD);
      Rewrite(m, pred - FD, Note(base, size, next, m.ids[k - 1]), base, size, next);
    }
    m.segs, m.ids, m.links := Without(m.segs, k), Without(m.ids, k), Without(m.links, k);
    UnlinkedLinks(segs, ids, links, notes, k, m.notes);
  }

  lemma UnlinkedLinks(segs: seq<Span>, ids: seq<nat>, links: seq<int>, notes: Notes, k: nat, notes': Notes)
    requires |segs| == |ids| == |links| && 0 < k < |segs|
    requires forall j {:trigger LinkAt(segs, ids, links, notes, j)} :: 0 < j < |segs| ==>
               LinkAt(segs, ids, links, notes, j)
    requires forall i, j {:trigger ids[i], ids[j]} :: 0 <= i < j < |ids| ==> ids[i] != ids[j]
    requires var i := k - 1;
             notes' == if i == 0 then notes
                       else notes[links[i] := Note(segs[i].base, segs[i].size, NextRecord(links, k), ids[i])]
    ensures var s, d, l := Without(segs, k), Without(ids, k), Without(links, k);
            && NextRecord(l, 0) == (if k == 1 then NextRecord(links, 1) else NextRecord(links, 0))
            && (forall j {:trigger LinkAt(s, d, l, notes', j)} :: 0 < j < |s| ==> LinkAt(s, d, l, notes', j))
            && (forall i, j {:trigger d[i], d[j]} :: 0 <= i < j < |d| ==> d[i] != d[j])
  {
    var s, d, l := Without(segs, k), Without(ids, k), Without(links, k);
    forall j {:trigger LinkAt(s, d, l, notes', j)} | 0 < j < |s| ensures LinkAt(s, d, l, notes', j) {
      var i := if j < k then j else j + 1;
      assert LinkAt(segs, ids, links, notes, i);
      assert k > 1 ==> LinkAt(segs, ids, links, notes, k - 1);
      assert i < k - 1 ==> ids[i] != ids[k - 1];
      assert k - 1 < i ==> ids[k - 1] != ids[i];
    }
    forall i, j {:trigger d[i], d[j]} | 0 <= i < j < |d| ensures d[i] != d[j] {
      assert ids[if i < k then i else i + 1] != ids[if j < k then j else j + 1];
    }
  }

  /** No record of the list is in a region that is not on it. */
  lemma ListedOff(seg: Seg, segs: seq<Span>, ids: seq<nat>, links: seq<int>, notes: Notes, h: nat)
    requires Chained(seg, segs, ids, links, notes) && h !in ids
    ensures Chained(seg, segs, ids, links, NotesOff(notes, h))
  {
    var off := NotesOff(notes, h);
    forall k {:trigger LinkAt(segs, ids, links, off, k)} | 0 < k < |segs| ensures LinkAt(segs, ids, links, off, k) {
      assert LinkAt(segs, ids, links, notes, k);
    }
  }
}
