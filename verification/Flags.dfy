/** The bit of the head word that the allocator keeps for its user: FLAG4, ptmalloc3's NON_MAIN_ARENA. */
module Flags {
  import opened Blocks
  import opened Layout
  import opened MallocState
  import opened Memory
  import opened Words
  import Free

  /** The layout with the flag of the chunk at `p` set. */
  function Flag(L: Chunks, p: int): Chunks
    requires p in L
  {
    L[p := L[p].(flag := true)]
  }

  lemma FlagTiled(L: Chunks, S: Spans, p: int)
    requires Tiled(L, S) && p in L && Owned(L[p].kind)
    ensures Tiled(Flag(L, p), S)
  {
    var M := Flag(L, p);
    forall h {:trigger SpanOk(M, S, h)} | h in S ensures SpanOk(M, S, h) {
      assert SpanOk(L, S, h);
    }
    forall q {:trigger ChunkOk(M, S, q)} | q in M ensures ChunkOk(M, S, q) {
      assert ChunkOk(L, S, q);
    }
    forall q, t {:trigger Apart(M, q, t)} | q in M && t in M && q != t ensures Apart(M, q, t) {
      assert Apart(L, q, t);
    }
    forall q {:trigger Guarded(M, q)} | q in M ensures Guarded(M, q) {
      assert Guarded(L, q) && ChunkOk(L, S, q);
    }
  }

  lemma FlagKeeps(mem: Words, L: Chunks, T: set<int>, p: int, notes: Notes)
    requires p in L && Tailed(mem, L, T, notes)
    ensures Retags(L, Flag(L, p), {p}, {}) && SameBinned(L, Flag(L, p)) && Tailed(mem, Flag(L, p), T, notes)
  {
    var M := Flag(L, p);
    forall q {:trigger HeadKept(L, M, q)} | q in M && q !in {p} ensures HeadKept(L, M, q) {
    }
    forall q {:trigger FootKept(L, M, q)} | q in M ensures FootKept(L, M, q) {
    }
    forall q {:trigger TailOk(mem, M, q, notes)} | q in M && q !in T ensures TailOk(mem, M, q, notes) {
      assert TailOk(mem, L, q, notes);
    }
  }

  lemma FlagRoles(L: Chunks, dv: int, dvsize: int, top: int, topsize: int, p: int)
    requires p in L && Roles(L, dv, dvsize, top, topsize, {})
    ensures Roles(Flag(L, p), dv, dvsize, top, topsize, {})
  {
    var M := Flag(L, p);
    forall q {:trigger RoleOk(M, dv, top, {}, q)} | q in M ensures RoleOk(M, dv, top, {}, q) {
      assert RoleOk(L, dv, top, {}, q);
    }
  }

  lemma OrFlag(s: int, f: int, c: int, d: int)
    requires s % 8 == 0 && 0 <= f <= 1 && 0 <= c <= 1 && 0 <= d <= 1
    ensures var w := s + 4 * f + 2 * c + d;
            (if Flagged(w) then w else w + 4) == s + 4 + 2 * c + d
  {
    ThreeBits(s, f, c, d);
  }

  /** `P->head |= NON_MAIN_ARENA` */
  method SetFlag(m: MState, p: int)
    requires m.Valid() && m.Booked() && p in m.L && Owned(m.L[p].kind)
    modifies m`mem, m`L, m`staleHeads, m`staleFeet
    ensures m.Valid() && m.Booked() && m.L == Flag(old(m.L), p) && Quiet(old(m.mem), m.mem, m.L)
    ensures forall a {:trigger At(m.mem, a)} :: a != p + HEAD ==> At(m.mem, a) == At(old(m.mem), a)
  {
    hide Tagged, Bins, RingsStored, TriesStored, OffState, LeastOk, Foreign, MState.Indexed, Quiet, SegsOk, Total;
    hide Flagged, Tiled, Tailed, TopEnds, Roles, MState.Listed;
    var w := At(m.mem, p + HEAD);
    Free.HeadAt(m, p);
    ChunkAt(m.L, m.S, p);
    ghost var mapped := m.L[p].kind.Mapped?;
    OrFlag(HeadSize(m.L[p]), if m.L[p].flag then 1 else 0, if mapped then 0 else 1, if Pin(m.L, p)
        && !mapped then 1 else 0);
    FlagTiled(m.L, m.S, p);
    FlagKeeps(m.mem, m.L, m.staleTails, p, m.notes);
    FlagRoles(m.L, m.dv, m.dvsize, m.top, m.topsize, p);
    assert m.staleHeads + {p} - {p} == {} && m.staleFeet + {} == {};
    Relayout(m, Flag(m.L, p), {p}, {});
    PutHead(m, p, if Flagged(w) then w else w + 4);
  }
}
