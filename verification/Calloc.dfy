/** `dlmalloc` and `dlcalloc` as the client sees them. */
module Calloc {
  import opened Client
  import opened Dlmalloc
  import opened Layout
  import opened Malloc
  import opened MallocState
  import opened Memory
  import opened Segments
  import opened Sizes
  import opened SysMalloc
  import opened Words
  import Dlfree

  /** The bytes of a chunk that the client may use. */
  function Usable(c: Chunk): int { PayloadEnd(c) - FD }

  /** `p` is handed out, with room for `bytes`. */
  ghost predicate Served(L: Chunks, M: Chunks, p: int, bytes: int) {
    p != 0 && Added(L, M, p) && bytes <= Usable(M[p])
  }

  /** A padded request holds the request. */
  lemma GaveServes(L: Chunks, M: Chunks, p: int, bytes: nat)
    requires bytes < MAX_REQUEST && p != 0
    requires Gave(L, M, p, PaddedSize(bytes)) || GaveMapped(L, M, p, PaddedSize(bytes))
    ensures Served(L, M, p, bytes)
  {
    PaddingHolds(bytes);
  }

  /** `dlmalloc`, reduced to what the client relies on. */
  method Allocate(m: MState, bytes: nat, direct: Offer, offer: Offer) returns (p: int)
    requires m.Valid() && m.Booked() && bytes < SPACE
    requires OfferOk(m.S, m.alien, direct, RegionSize(PaddedSize(bytes)))
    requires OfferOk(m.S, m.alien, offer, SegmentSize(PaddedSize(bytes)))
    modifies m
    ensures m.alien == old(m.alien)
    ensures m.Valid() && m.Booked() && Quiet(old(m.mem), m.mem, old(m.L))
    ensures p == 0 ==> unchanged(m)
    ensures p != 0 ==>
              bytes < MAX_REQUEST && Served(old(m.L), m.L, p, bytes) && (m.L[p].kind.Mapped? ==>
                  ZeroPayload(m.mem, m.L, p))
    ensures p != 0 && m.L[p].kind.Mapped? ==> MMAP_THRESHOLD <= m.L[p].size && m.L[p].prv == 0
    ensures 0 <= p && (p != 0 <==> old(CanServe(m, bytes, direct, offer)))
  {
    hide MState.Valid, MState.Booked, Quiet, Placement, RegionSize, SegmentSize, ZeroPayload, Affordable, Fresh;
    p := DlMalloc(m, bytes, direct, offer);
    TooLarge(bytes);
    if p != 0 {
      GaveServes(old(m.L), m.L, p, bytes);
      ChunkPositive(m, p);
    }
  }

  lemma ChunkPositive(m: MState, p: int)
    requires m.Valid() && p in m.L
    ensures 0 < p
  {
    ChunkFacts(m, p);
  }

  /** A request of `MAX_REQUEST` or more wraps around in both sizes asked of the system. */
  lemma TooLarge(bytes: nat)
    requires bytes < SPACE
    ensures MAX_REQUEST <= bytes ==>
              SegmentSize(PaddedSize(bytes)) <= PaddedSize(bytes) && RegionSize(PaddedSize(bytes)) <= PaddedSize(bytes)
  {
    SegmentHolds(SPACE - 1);
    RegionHolds(SPACE - 1);
  }

  /** The first `n` bytes of the chunk are zero. */
  ghost predicate Zeros(mem: Words, p: int, n: int) {
    forall a {:trigger At(mem, a)} :: p + FD <= a < p + FD + n ==> At(mem, a) == 0
  }

  /** `memset(p + FD, 0, n)` */
  method Clear(m: MState, p: int, n: nat)
    requires m.Valid() && p in m.L && Owned(m.L[p].kind) && n <= Usable(m.L[p])
    modifies m`mem
    ensures m.Valid() && Zeros(m.mem, p, n)
    ensures forall c, a {:trigger InPayload(m.L, c, a)} :: InPayload(m.L, c, a) && c != p ==>
              At(m.mem, a) == At(old(m.mem), a)
  {
    forall a {:trigger At(Zeroed(m.mem, p + FD, n), a)}
      ensures At(Zeroed(m.mem, p + FD, n), a) == if p + FD <= a < p + FD + n then 0 else At(m.mem, a)
    {
      ZeroedAt(m.mem, p + FD, n, a);
    }
    Store(m, p, Zeroed(m.mem, p + FD, n));
  }

  /** `dlcalloc` */
  method DlCalloc(m: MState, n: nat, elem: nat, direct: Offer, offer: Offer) returns (p: int)
    requires m.Valid() && m.Booked() && n < SPACE && elem < SPACE
    requires var nb := PaddedSize(CallocRequest(n, elem));
             OfferOk(m.S, m.alien, direct, RegionSize(nb)) && OfferOk(m.S, m.alien, offer, SegmentSize(nb))
    modifies m
    ensures m.alien == old(m.alien)
    ensures m.Valid() && m.Booked() && Quiet(old(m.mem), m.mem, old(m.L))
    ensures p == 0 ==> unchanged(m)
    ensures p != 0 ==> Served(old(m.L), m.L, p, n * elem) && Zeros(m.mem, p, n * elem)
    ensures n * elem >= MAX_REQUEST ==> p == 0
    ensures p != 0 <==> old(CanServe(m, CallocRequest(n, elem), direct, offer))
  {
    hide MState.Stored, SegsOk, Roles, Total, Quiet, Added, MState.Indexed, CallocRequest, RegionSize, SegmentSize;
    hide Fresh, PaddedSize, CanServe, MState.Listed;
    var req := CallocRequest(n, elem);
    CallocIsExact(n, elem);
    p := Allocate(m, req, direct, offer);
    if p != 0 {
      ServedOwned(old(m.L), m.L, p, req);
      Dlfree.OwnedWords(m, p);
      var w := At(m.mem, p + HEAD);
      ghost var mem1 := m.mem;
      if PInUse(w) || CInUse(w) {
        Clear(m, p, req);
      } else {
        ZeroRange(m.mem, m.L, p, req);
      }
      QuietCleared(old(m.mem), mem1, m.mem, old(m.L), m.L, p);
    }
  }

  lemma ServedOwned(L: Chunks, M: Chunks, p: int, bytes: nat)
    requires Served(L, M, p, bytes)
    ensures p in M && Owned(M[p].kind) && bytes <= Usable(M[p])
  {
  }

  lemma ZeroRange(mem: Words, L: Chunks, p: int, n: nat)
    requires ZeroPayload(mem, L, p) && p in L && Owned(L[p].kind) && n <= Usable(L[p])
    ensures Zeros(mem, p, n)
  {
    forall a {:trigger At(mem, a)} | p + FD <= a < p + FD + n ensures At(mem, a) == 0 {
      assert InPayload(L, p, a);
    }
  }

  /** Stores into a new chunk do not disturb the old payloads. */
  lemma QuietCleared(mem: Words, mem': Words, mem'': Words, L: Chunks, M: Chunks, p: int)
    requires Quiet(mem, mem', L) && Added(L, M, p)
    requires forall c, a {:trigger InPayload(M, c, a)} :: InPayload(M, c, a) && c != p ==> At(mem'', a) == At(mem', a)
    ensures Quiet(mem, mem'', L)
  {
    forall b, a {:trigger InPayload(L, b, a)} | InPayload(L, b, a) ensures At(mem'', a) == At(mem, a) {
      assert InPayload(M, b, a);
    }
  }
}
