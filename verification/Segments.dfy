/** Memory obtained from the system: segments, and the top chunk at the end of the newest one. */
module Segments {
  import opened Blocks
  import opened Layout
  import opened MallocState
  import opened Memory
  import opened Regions
  import opened Sizes
  import opened Words
  import SmallBins
  import TreeBins

  // ---- the system's side

  /** What a call of `mmap` answers. */
  datatype Offer = Refused | Granted(base: int)

  /** A region the system may hand out: it overlaps nothing in use. */
  ghost predicate Fresh(S: Spans, alien: Words, base: int, size: nat) {
    && FreeRegion(S, base, size) && (base + size <= SmallBins.STATE || SmallBins.STATE_END <= base)
    && OffAliens(alien, base, size)
  }

  ghost predicate OffAliens(alien: Words, base: int, size: nat) {
    forall a {:trigger a in alien} :: a in alien ==> a < base || base + size <= a
  }

  ghost predicate OfferOk(S: Spans, alien: Words, o: Offer, size: nat) { o.Granted? ==> Fresh(S, alien, o.base, size) }

  /** A fresh mapping reads as zero. */
  function Zeroed(mem: Words, base: int, size: nat): Words {
    map a | a in mem && !(base <= a < base + size) :: mem[a]
  }

  lemma ZeroedAt(mem: Words, base: int, size: nat, a: int)
    ensures At(Zeroed(mem, base, size), a) == if base <= a < base + size then 0 else At(mem, a)
  {
  }

  // ---- other contents outside the chunks

  /** Word `a` lies in the chunk at `q`. */
  predicate InChunk(L: Chunks, q: int, a: int) { q in L && q <= a < q + L[q].size }

  /** No word of a chunk and none of the static state differs. */
  ghost predicate Steady(mem: Words, z: Words, L: Chunks) {
    && (forall q, a {:trigger InChunk(L, q, a)} :: InChunk(L, q, a) ==> At(z, a) == At(mem, a))
    && (forall a {:trigger At(z, a)} :: SmallBins.STATE <= a < SmallBins.STATE_END ==> At(z, a) == At(mem, a))
  }

  lemma SteadyTagged(mem: Words, z: Words, L: Chunks, S: Spans, H: set<int>, F: set<int>)
    requires Tiled(L, S) && Steady(mem, z, L) && Tagged(mem, L, H, F)
    ensures Tagged(z, L, H, F)
  {
    forall q {:trigger HeadOk(z, L, q)} | q in L && q !in H ensures HeadOk(z, L, q) {
      ChunkAt(L, S, q);
      assert InChunk(L, q, q + HEAD) && HeadOk(mem, L, q);
    }
    forall q {:trigger FootOk(z, L, q)} | q in L && q !in F ensures FootOk(z, L, q) {
      ChunkAt(L, S, q);
      assert InChunk(L, q, q) && FootOk(mem, L, q);
    }
  }

  lemma SteadyRings(mem: Words, z: Words, L: Chunks, S: Spans, r: SmallBins.Rings, t: TreeBins.Tries)
    requires Tiled(L, S) && Steady(mem, z, L) && Bins(L, r, t) && RingsStored(mem, r)
    ensures RingsStored(z, r)
  {
    forall q {:trigger RingWords(z, r, q)} | q in r.held ensures RingWords(z, r, q) {
      assert BinnedAt(L, r, t, q);
      ChunkAt(L, S, q);
      assert InChunk(L, q, q + FD) && InChunk(L, q, q + BK) && RingWords(mem, r, q);
    }
    forall i {:trigger SmallBins.Header(i)} | 0 <= i < NBINS ensures RingWords(z, r, SmallBins.Header(i)) {
      assert RingWords(mem, r, SmallBins.Header(i));
    }
  }

  lemma SteadyTries(mem: Words, z: Words, L: Chunks, S: Spans, r: SmallBins.Rings, t: TreeBins.Tries)
    requires Tiled(L, S) && Steady(mem, z, L) && Bins(L, r, t) && TriesStored(mem, t)
    ensures TriesStored(z, t)
  {
    forall q {:trigger NodeWords(z, t, q)} | q in t.held ensures NodeWords(z, t, q) {
      assert BinnedAt(L, r, t, q);
      assert InChunk(L, q, q + FD) && InChunk(L, q, q + BK) && InChunk(L, q, q + LEFT) && InChunk(L, q, q + RIGHT);
      assert InChunk(L, q, q + UP) && InChunk(L, q, q + TAG) && NodeWords(mem, t, q);
    }
    forall i {:trigger RootWord(z, t, i)} | 0 <= i < NBINS ensures RootWord(z, t, i) {
      assert RootWord(mem, t, i);
    }
  }

  lemma SteadyQuiet(mem: Words, z: Words, L: Chunks, S: Spans)
    requires Tiled(L, S) && Steady(mem, z, L)
    ensures Quiet(mem, z, L)
  {
    forall b, a {:trigger InPayload(L, b, a)} | InPayload(L, b, a) ensures At(z, a) == At(mem, a) {
      ChunkAt(L, S, b);
      if a < Next(L, b) {
        assert InChunk(L, b, a);
      } else {
        ChunkAt(L, S, Next(L, b));
        assert InChunk(L, Next(L, b), a);
      }
    }
  }

  lemma SteadyTails(mem: Words, z: Words, L: Chunks, S: Spans, T: set<int>, notes: Notes)
    requires Tiled(L, S) && Steady(mem, z, L) && Tailed(mem, L, T, notes)
    ensures Tailed(z, L, T, notes)
  {
    forall q {:trigger TailOk(z, L, q, notes)} | q in L && q !in T ensures TailOk(z, L, q, notes) {
      ChunkAt(L, S, q);
      assert TailOk(mem, L, q, notes);
      var e := q + L[q].size;
      assert L[q].kind.Top? ==> InChunk(L, q, e - TOP_FOOT + HEAD);
      assert L[q].kind.Mapped? ==> InChunk(L, q, e - MMAP_PAD + HEAD) && InChunk(L, q, e - MMAP_PAD + WORD + HEAD);
      assert L[q].kind.Record? ==> InChunk(L, q, q + FD) && InChunk(L, q, q + FD + WORD);
      assert L[q].kind.Record? ==> InChunk(L, q, q + FD + 2 * WORD) && InChunk(L, q, q + FD + 3 * WORD);
      if L[q].kind.Record? {
        forall a {:trigger FenceAt(z, a)} | q + RECORD + HEAD <= a < e && a % 8 == 0 ensures FenceAt(z, a) {
          assert InChunk(L, q, a) && FenceAt(mem, a);
        }
      }
    }
  }

  /** Memory read as `z`, the same in all chunks and in the static state, the words of others being `alien`. */
  method Reread(m: MState, z: Words, ghost alien: Words)
    requires m.Stored() && Steady(m.mem, z, m.L) && Foreign(z, m.S, alien)
    modifies m`mem, m`alien
    ensures m.Stored() && Quiet(old(m.mem), m.mem, m.L) && m.mem == z && m.alien == alien
  {
    SteadyStored(m, z);
    m.mem := z;
    m.alien := alien;
  }

  lemma SteadyStored(m: MState, z: Words)
    requires m.Stored() && Steady(m.mem, z, m.L)
    ensures Tagged(z, m.L, m.staleHeads, m.staleFeet) && RingsStored(z, m.rings) && TriesStored(z, m.tries)
    ensures Quiet(m.mem, z, m.L) && Tailed(z, m.L, m.staleTails, m.notes)
  {
    SteadyTagged(m.mem, z, m.L, m.S, m.staleHeads, m.staleFeet);
    SteadyRings(m.mem, z, m.L, m.S, m.rings, m.tries);
    SteadyTries(m.mem, z, m.L, m.S, m.rings, m.tries);
    SteadyQuiet(m.mem, z, m.L, m.S);
    SteadyTails(m.mem, z, m.L, m.S, m.staleTails, m.notes);
  }

  /** Only words of the region differ. */
  ghost predicate Elsewhere(mem: Words, z: Words, base: int, size: nat) {
    forall a {:trigger At(z, a)} :: !(base <= a < base + size) ==> At(z, a) == At(mem, a)
  }

  lemma RegionSteady(mem: Words, z: Words, L: Chunks, S: Spans, alien: Words, base: int, size: nat)
    requires Tiled(L, S) && Fresh(S, alien, base, size) && Elsewhere(mem, z, base, size) && Foreign(mem, S, alien)
    ensures Steady(mem, z, L) && Foreign(z, S, alien)
  {
    forall q, a {:trigger InChunk(L, q, a)} | InChunk(L, q, a) ensures At(z, a) == At(mem, a) {
      NoneInside(L, S, base, size, q);
    }
    forall a {:trigger AlienOk(z, alien, a)} | a in alien ensures AlienOk(z, alien, a) {
      assert AlienOk(mem, alien, a);
    }
  }

  /** The system gives the region new contents. */
  method FillRegion(m: MState, base: int, size: nat, z: Words)
    requires m.Stored() && Fresh(m.S, m.alien, base, size) && Elsewhere(m.mem, z, base, size)
    modifies m`mem
    ensures m.Stored() && Quiet(old(m.mem), m.mem, m.L) && m.mem == z
  {
    RegionSteady(m.mem, z, m.L, m.S, m.alien, base, size);
    SteadyStored(m, z);
    m.mem := z;
  }

  /** `mmap` answers with a region of zeros. */
  method MapRegion(m: MState, base: int, size: nat)
    requires m.Stored() && Fresh(m.S, m.alien, base, size)
    modifies m`mem
    ensures m.Stored() && Quiet(old(m.mem), m.mem, m.L)
    ensures forall a {:trigger At(m.mem, a)} :: At(m.mem, a) == if base <= a < base + size then 0 else At(old(m.mem), a)
  {
    FillRegion(m, base, size, Zeroed(m.mem, base, size));
  }

  // ---- changes of the regions

  /** A change of layout and regions that keeps what the words say, apart from `H`, `F` and `U`. */
  ghost method Relocate(m: MState, M: Chunks, T: Spans, H: set<int>, F: set<int>, U: set<int>)
    requires m.Stored() && Tiled(M, T) && OffState(T) && LeastOk(T, m.leastAddr) && Retags(m.L, M, H, F)
    requires SameBinned(m.L, M)
    requires Tailed(m.mem, M, U, m.notes) && Foreign(m.mem, T, m.alien)
    modifies m`L, m`S, m`staleTails, m`staleHeads, m`staleFeet
    ensures m.Stored() && m.L == M && m.S == T
    ensures m.staleHeads == old(m.staleHeads) + H && m.staleFeet == old(m.staleFeet) + F && m.staleTails == U
  {
    RetagsTagged(m.mem, m.L, M, m.staleHeads, m.staleFeet, H, F);
    SameBinnedBins(m.L, M, m.rings, m.tries);
    m.L := M;
    m.S := T;
    m.staleHeads := m.staleHeads + H;
    m.staleFeet := m.staleFeet + F;
    m.staleTails := U;
  }

  /** The regions after a change still lie off the static state and not below `least_addr`. */
  lemma StillOff(mem: Words, S: Spans, alien: Words, least: int, h: nat, x: Span)
    requires OffState(S) && LeastOk(S, least) && least <= x.base
    requires (x.End() <= SmallBins.STATE || SmallBins.STATE_END <= x.base)
    requires Foreign(mem, S, alien) && OffAliens(alien, x.base, x.size)
    ensures OffState(S[h := x]) && LeastOk(S[h := x], least) && Foreign(mem, S[h := x], alien)
  {
    var T := S[h := x];
    forall g {:trigger SpanClear(T, g)} | g in T ensures SpanClear(T, g) {
      assert g != h ==> SpanClear(S, g);
    }
    forall g {:trigger LeastAt(T, least, g)} | g in T ensures LeastAt(T, least, g) {
      assert g != h ==> LeastAt(S, least, g);
    }
    forall a, g {:trigger Misses(T, g, a)} | a in alien && g in T ensures Misses(T, g, a) {
      assert g != h ==> Misses(S, g, a);
    }
  }

  /** Words of others lie off the regions of the heap. */
  lemma SpanOffAliens(mem: Words, S: Spans, alien: Words, h: nat)
    requires Foreign(mem, S, alien) && h in S
    ensures OffAliens(alien, S[h].base, S[h].size)
  {
    forall a {:trigger a in alien} | a in alien ensures a < S[h].base || S[h].base + S[h].size <= a {
      assert Misses(S, h, a);
    }
  }

  /** A region with one chunk. */
  ghost method GhostAdd(m: MState, h: nat, base: int, size: nat, k: Kind, lead: nat := 0)
    requires m.Stored() && h !in m.S && Fresh(m.S, m.alien, base, size) && m.leastAddr <= base
    requires StandsAlone(h, base, size, k, lead)
    modifies m`L, m`S, m`staleTails, m`staleHeads, m`staleFeet
    ensures m.Stored() && base + lead !in old(m.L)
    ensures m.L == AddChunk(old(m.L), h, base, size, k, lead) && m.S == AddSpan(old(m.S), h, base, size, lead)
    ensures m.staleHeads == old(m.staleHeads) + {base + lead} && m.staleFeet == old(m.staleFeet) + {base + lead}
    ensures m.staleTails == old(m.staleTails) + {base + lead}
  {
    var b := base + lead;
    AddTiled(m.L, m.S, h, base, size, k, lead);
    StillOff(m.mem, m.S, m.alien, m.leastAddr, h, Span(base, size, lead));
    AddRetags(m.L, m.S, h, base, size, k, lead);
    AddTails(m.mem, m.L, m.staleTails, h, base, size, k, lead, m.notes);
    Relocate(m, AddChunk(m.L, h, base, size, k, lead), AddSpan(m.S, h, base, size, lead), {b}, {b}, m.staleTails + {b});
  }

  lemma AddRetags(L: Chunks, S: Spans, h: nat, base: int, size: nat, k: Kind, lead: nat)
    requires Tiled(L, S) && lead <= size && base + lead !in L && Last(k)
    ensures var M := AddChunk(L, h, base, size, k, lead);
            Retags(L, M, {base + lead}, {base + lead}) && SameBinned(L, M)
  {
    var M, b := AddChunk(L, h, base, size, k, lead), base + lead;
    forall q {:trigger HeadKept(L, M, q)} | q in M && q !in {b} ensures HeadKept(L, M, q) {
      ChunkAt(L, S, q);
    }
    forall q {:trigger FootKept(L, M, q)} | q in M && q !in {b} ensures FootKept(L, M, q) {
      ChunkAt(L, S, q);
    }
  }

  lemma AddTails(mem: Words, L: Chunks, T: set<int>, h: nat, base: int, size: nat, k: Kind, lead: nat, notes: Notes)
    requires Tailed(mem, L, T, notes) && lead <= size && base + lead !in notes
    ensures Tailed(mem, AddChunk(L, h, base, size, k, lead), T + {base + lead}, notes)
  {
    var M := AddChunk(L, h, base, size, k, lead);
    forall p {:trigger TailOk(mem, M, p, notes)} | p in M && p !in T + {base + lead} ensures TailOk(mem, M, p, notes) {
      assert TailOk(mem, L, p, notes);
    }
  }

  /** The last chunk of a region made longer or shorter. */
  ghost method GhostResize(m: MState, p: int, size: nat)
    requires m.Stored() && CanResize(m.L, m.S, p, size)
    requires m.L[p].size < size ==> Fresh(m.S, m.alien, p + m.L[p].size, size - m.L[p].size)
    modifies m`L, m`S, m`staleTails, m`staleHeads, m`staleFeet
    ensures m.Stored() && m.L == Resize(old(m.L), p, size) && m.staleHeads == old(m.staleHeads) + {p}
    ensures old(m.L)[p].home in old(m.S) && old(m.S)[old(m.L)[p].home].base <= p
    ensures m.S == ResizeSpan(old(m.L), old(m.S), p, size)
    ensures m.staleFeet == old(m.staleFeet) && m.staleTails == old(m.staleTails) + {p}
  {
    var h := m.L[p].home;
    ResizeTiled(m.L, m.S, p, size);
    ChunkAt(m.L, m.S, p);
    assert SpanClear(m.S, h) && LeastAt(m.S, m.leastAddr, h);
    SpanOffAliens(m.mem, m.S, m.alien, h);
    StillOff(m.mem, m.S, m.alien, m.leastAddr, h, ResizeSpan(m.L, m.S, p, size)[h]);
    ResizeRetags(m.L, m.S, p, size);
    ResizeTails(m.mem, m.L, m.staleTails, p, size, m.notes);
    assert m.staleFeet + {} == m.staleFeet;
    Relocate(m, Resize(m.L, p, size), ResizeSpan(m.L, m.S, p, size), {p}, {}, m.staleTails + {p});
  }

  lemma ResizeTails(mem: Words, L: Chunks, T: set<int>, p: int, size: nat, notes: Notes)
    requires Tailed(mem, L, T, notes) && p in L
    ensures Tailed(mem, Resize(L, p, size), T + {p}, notes)
  {
    var M := Resize(L, p, size);
    forall q {:trigger TailOk(mem, M, q, notes)} | q in M && q !in T + {p} ensures TailOk(mem, M, q, notes) {
      assert TailOk(mem, L, q, notes);
    }
  }

  lemma ResizeRetags(L: Chunks, S: Spans, p: int, size: nat)
    requires Tiled(L, S) && p in L && Last(L[p].kind)
    ensures Retags(L, Resize(L, p, size), {p}, {}) && SameBinned(L, Resize(L, p, size))
  {
    var M := Resize(L, p, size);
    forall q {:trigger HeadKept(L, M, q)} | q in M && q !in {p} ensures HeadKept(L, M, q) {
      ChunkAt(L, S, q);
    }
    forall q {:trigger FootKept(L, M, q)} | q in M ensures FootKept(L, M, q) {
      ChunkAt(L, S, q);
    }
  }

  /** A live chunk in front of a segment. */
  ghost method GhostPrepend(m: MState, h: nat, n: nat)
    requires m.Stored() && CanPrepend(m.L, m.S, h, n) && m.leastAddr <= m.S[h].base - n
    requires Fresh(m.S, m.alien, m.S[h].base - n, n)
    modifies m`L, m`S, m`staleTails, m`staleHeads, m`staleFeet
    ensures m.Stored() && m.L == Prepend(old(m.L), old(m.S), h, n) && m.S == PrependSpan(old(m.S), h, n)
    ensures m.staleHeads == old(m.staleHeads) + {old(m.S)[h].base - n}
    ensures m.staleFeet == old(m.staleFeet) && m.staleTails == old(m.staleTails)
  {
    PrependTiled(m.L, m.S, h, n);
    assert SpanClear(m.S, h);
    SpanOffAliens(m.mem, m.S, m.alien, h);
    StillOff(m.mem, m.S, m.alien, m.leastAddr, h, PrependSpan(m.S, h, n)[h]);
    PrependRetags(m.L, m.S, h, n);
    PrependTails(m.mem, m.L, m.S, m.staleTails, h, n, m.notes);
    assert m.staleFeet + {} == m.staleFeet;
    Relocate(m, Prepend(m.L, m.S, h, n), PrependSpan(m.S, h, n), {m.S[h].base - n}, {}, m.staleTails);
  }

  lemma PrependTails(mem: Words, L: Chunks, S: Spans, T: set<int>, h: nat, n: nat, notes: Notes)
    requires Tailed(mem, L, T, notes) && CanPrepend(L, S, h, n)
    ensures Tailed(mem, Prepend(L, S, h, n), T, notes)
  {
    var M := Prepend(L, S, h, n);
    PrependFresh(L, S, h, n);
    forall q {:trigger TailOk(mem, M, q, notes)} | q in M && q !in T ensures TailOk(mem, M, q, notes) {
      assert q in L ==> TailOk(mem, L, q, notes);
    }
  }

  lemma PrependRetags(L: Chunks, S: Spans, h: nat, n: nat)
    requires CanPrepend(L, S, h, n)
    ensures Retags(L, Prepend(L, S, h, n), {S[h].base - n}, {}) && SameBinned(L, Prepend(L, S, h, n))
  {
    var M := Prepend(L, S, h, n);
    PrependFresh(L, S, h, n);
    forall q {:trigger HeadKept(L, M, q)} | q in M && q !in {S[h].base - n} ensures HeadKept(L, M, q) {
      ChunkAt(L, S, q);
    }
    forall q {:trigger FootKept(L, M, q)} | q in M ensures FootKept(L, M, q) {
      if q in L {
        ChunkAt(L, S, q);
      }
    }
  }

  /** A region and its chunks given back. */
  ghost method GhostDrop(m: MState, h: nat)
    requires m.Stored() && m.Clean() && h in m.S
    requires forall q {:trigger q in m.L} :: q in m.L && m.L[q].home == h ==> !m.L[q].kind.Binned?
    modifies m`L, m`S, m`notes, m`staleTails, m`staleHeads, m`staleFeet
    ensures m.Stored() && m.L == DropChunks(old(m.L), h) && m.S == old(m.S) - {h}
    ensures m.Clean() && m.notes == NotesOff(old(m.notes), h)
  {
    DropTiled(m.L, m.S, h);
    var M, T := DropChunks(m.L, h), m.S - {h};
    forall g {:trigger SpanClear(T, g)} | g in T ensures SpanClear(T, g) {
      assert SpanClear(m.S, g);
    }
    forall g {:trigger LeastAt(T, m.leastAddr, g)} | g in T ensures LeastAt(T, m.leastAddr, g) {
      assert LeastAt(m.S, m.leastAddr, g);
    }
    forall a, g {:trigger Misses(T, g, a)} | a in m.alien && g in T ensures Misses(T, g, a) {
      assert Misses(m.S, g, a);
    }
    DropRetags(m.L, m.S, h);
    DropTails(m.mem, m.L, h, m.notes);
    assert m.staleHeads + {} == m.staleHeads && m.staleFeet + {} == m.staleFeet;
    RetagsTagged(m.mem, m.L, M, m.staleHeads, m.staleFeet, {}, {});
    SameBinnedBins(m.L, M, m.rings, m.tries);
    m.L, m.S, m.notes := M, T, NotesOff(m.notes, h);
  }

  /** The records outside region `h`. */
  function NotesOff(notes: Notes, h: nat): Notes { map p | p in notes && notes[p].home != h :: notes[p] }

  lemma DropTails(mem: Words, L: Chunks, h: nat, notes: Notes)
    requires Tailed(mem, L, {}, notes)
    ensures Tailed(mem, DropChunks(L, h), {}, NotesOff(notes, h))
  {
    var M, off := DropChunks(L, h), NotesOff(notes, h);
    forall q {:trigger TailOk(mem, M, q, off)} | q in M ensures TailOk(mem, M, q, off) {
      assert TailOk(mem, L, q, notes);
    }
    forall q {:trigger q in off} | q in off ensures q in M && M[q].kind.Record? {
      assert q in notes && TailOk(mem, L, q, notes);
    }
  }

  lemma DropRetags(L: Chunks, S: Spans, h: nat)
    requires Tiled(L, S) && forall q {:trigger q in L} :: q in L && L[q].home == h ==> !L[q].kind.Binned?
    ensures Retags(L, DropChunks(L, h), {}, {}) && SameBinned(L, DropChunks(L, h))
  {
    var M := DropChunks(L, h);
    forall q {:trigger HeadKept(L, M, q)} | q in M ensures HeadKept(L, M, q) {
      ChunkAt(L, S, q);
    }
    forall q {:trigger FootKept(L, M, q)} | q in M ensures FootKept(L, M, q) {
      ChunkAt(L, S, q);
    }
  }

  // ---- a mapped chunk moved inside its region

  lemma RemountRetags(L: Chunks, S: Spans, p: int, x: Span)
    requires CanRemount(L, S, p, x)
    ensures Retags(L, Remount(L, p, x), {x.First()}, {x.First()}) && SameBinned(L, Remount(L, p, x))
  {
    var M := Remount(L, p, x);
    forall q {:trigger HeadKept(L, M, q)} | q in M && q !in {x.First()} ensures HeadKept(L, M, q) {
      RemountChunk(L, S, p, x, q);
    }
    forall q {:trigger FootKept(L, M, q)} | q in M && q !in {x.First()} ensures FootKept(L, M, q) {
      RemountChunk(L, S, p, x, q);
    }
    forall q {:trigger q in L} | q in L && L[q].kind.Binned? ensures q in M && M[q] == L[q] {
      RemountChunk(L, S, p, x, q);
    }
  }

  lemma RemountTails(mem: Words, L: Chunks, S: Spans, p: int, x: Span, notes: Notes)
    requires CanRemount(L, S, p, x) && Tailed(mem, L, {}, notes) && x.End() == p + L[p].size
    ensures Tailed(mem, Remount(L, p, x), {}, notes)
  {
    var M := Remount(L, p, x);
    forall q {:trigger TailOk(mem, M, q, notes)} | q in M ensures TailOk(mem, M, q, notes) {
      if q == x.First() {
        assert TailOk(mem, L, p, notes);
        TailMoves(mem, L, p, M, q, notes);
      } else {
        assert TailOk(mem, L, q, notes);
      }
    }
    forall q {:trigger q in notes} | q in notes ensures q in M && M[q].kind.Record? {
      ChunkAt(L, S, q);
      RemountClear(L, S, p, x, q);
    }
  }

  /** The mapped chunk at `p` begins `lead` bytes into its region. */
  ghost method GhostShift(m: MState, p: int, lead: nat)
    requires m.Stored() && m.Clean() && p in m.L && m.L[p].kind.Mapped? && m.L[p].home in m.S
    requires CanRemount(m.L, m.S, p, m.S[m.L[p].home].(lead := lead))
    modifies m`L, m`S, m`staleTails, m`staleHeads, m`staleFeet
    ensures var x := old(m.S)[old(m.L)[p].home].(lead := lead);
            && m.Stored() && m.L == Remount(old(m.L), p, x) && m.S == old(m.S)[old(m.L)[p].home := x]
            && m.staleHeads == m.staleFeet == {x.First()} && m.staleTails == {}
  {
    var h := m.L[p].home;
    var x := m.S[h].(lead := lead);
    ChunkAt(m.L, m.S, p);
    assert SpanClear(m.S, h) && LeastAt(m.S, m.leastAddr, h);
    RemountTiled(m.L, m.S, p, x);
    SpanOffAliens(m.mem, m.S, m.alien, h);
    StillOff(m.mem, m.S, m.alien, m.leastAddr, h, x);
    RemountRetags(m.L, m.S, p, x);
    RemountTails(m.mem, m.L, m.S, p, x, m.notes);
    Relocate(m, Remount(m.L, p, x), m.S[h := x], {x.First()}, {x.First()}, {});
  }

  /** The old top chunk becomes the record of its segment. */
  ghost method GhostRetire(m: MState, p: int)
    requires m.Stored() && p in m.L && m.L[p].kind.Top?
    modifies m`L, m`S, m`staleTails, m`staleHeads, m`staleFeet
    ensures m.Stored() && m.L == Reuse(old(m.L), p, Record) && m.staleHeads == old(m.staleHeads) + {p}
    ensures m.staleFeet == old(m.staleFeet) && m.S == old(m.S) && m.staleTails == old(m.staleTails) + {p}
  {
    RetireTiled(m.L, m.S, p);
    var M := Reuse(m.L, p, Record);
    forall q {:trigger HeadKept(m.L, M, q)} | q in M && q !in {p} ensures HeadKept(m.L, M, q) {
      ChunkAt(m.L, m.S, q);
    }
    forall q {:trigger FootKept(m.L, M, q)} | q in M ensures FootKept(m.L, M, q) {
      ChunkAt(m.L, m.S, q);
    }
    forall q {:trigger TailOk(m.mem, M, q, m.notes)} | q in M && q !in m.staleTails + {p}
      ensures TailOk(m.mem, M, q, m.notes)
    {
      assert TailOk(m.mem, m.L, q, m.notes);
    }
    assert m.staleFeet + {} == m.staleFeet;
    Relocate(m, M, m.S, {p}, {}, m.staleTails + {p});
  }

  // ---- words inside the chunks that end a segment

  /** A word inside a chunk of the allocator's own. */
  method PutInside(m: MState, p: int, k: int, w: int)
    requires m.Stored() && p in m.L && (m.L[p].kind.Top? || m.L[p].kind.Record? || m.L[p].kind.Mapped?)
    requires FD <= k < m.L[p].size
    requires m.L[p].kind.Mapped? ==> PayloadEnd(m.L[p]) <= k
    modifies m`mem, m`staleTails
    ensures m.Stored() && Quiet(old(m.mem), m.mem, m.L)
    ensures forall a {:trigger At(m.mem, a)} :: At(m.mem, a) == if a == p + k then w else At(old(m.mem), a)
    ensures m.staleTails == if k < Front(m.L[p]) then old(m.staleTails) else old(m.staleTails) + {p}
  {
    ghost var mem0 := m.mem;
    assert BinnedAt(m.L, m.rings, m.tries, p);
    PokeTagged(mem0, m.L, m.S, m.staleHeads, m.staleFeet, p, k, w);
    PokeRings(mem0, m.L, m.S, m.rings, m.tries, p, k, w);
    PokeTries(mem0, m.L, m.S, m.rings, m.tries, p, k, w);
    PokeQuiet(mem0, m.L, m.S, p, k, w);
    PokeTails(mem0, m.L, m.S, m.staleTails, p, k, w, m.notes);
    PokeForeign(mem0, m.L, m.S, m.alien, p, k, w);
    m.mem := m.mem[p + k := w];
    m.staleTails := if k < Front(m.L[p]) then m.staleTails else m.staleTails + {p};
  }

  /** The words behind a chunk are all written. */
  ghost method FixTail(m: MState, p: int)
    requires m.Stored() && p in m.L && TailOk(m.mem, m.L, p, m.notes)
    modifies m`staleTails
    ensures m.Stored() && m.staleTails == old(m.staleTails) - {p}
  {
    m.staleTails := m.staleTails - {p};
  }
}
