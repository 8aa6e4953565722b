/** Chunk sizes, request padding and bin indices, for a 64-bit `size_t`, 8-byte alignment
    and no footers. */
module Sizes {
  import opened Bits

  const WORD: nat := 8                                   // SIZE_T_SIZE and MALLOC_ALIGNMENT
  const SPACE: nat := 0x1_0000_0000_0000_0000            // size_t arithmetic is modulo this
  const MIN_CHUNK: nat := 32
  const OVERHEAD: nat := 8                               // CHUNK_OVERHEAD
  const MIN_REQUEST: nat := 23
  const MAX_REQUEST: nat := SPACE - 128                  // (-MIN_CHUNK_SIZE) << 2
  const MIN_LARGE: nat := 256
  const MAX_SMALL_REQUEST: nat := 240
  const RECORD: nat := 40                                // pad_request(sizeof(malloc_segment))
  const TOP_FOOT: nat := 72
  const SYS_PADDING: nat := 80
  const MMAP_PAD: nat := 32                              // MMAP_FOOT_PAD
  const FENCEPOST: int := 11                             // FENCEPOST_HEAD
  const USE_MMAP: int := 1                               // USE_MMAP_BIT, the flags of every segment
  const PAGE: nat := 0x1000
  const GRANULARITY: nat := 0x1_0000
  const NBINS: nat := 32

  /** `pad_request`: `(req + CHUNK_OVERHEAD + CHUNK_ALIGN_MASK) & ~CHUNK_ALIGN_MASK`, wrapping */
  function PadRequest(req: nat): nat {
    var t := (req + 15) % SPACE;
    t - t % 8
  }

  function Request2Size(req: nat): nat {
    if req < MIN_REQUEST then MIN_CHUNK else PadRequest(req)
  }

  /** The padded size really holds the request and its overhead, with less than a minimum chunk of
      slack, exactly when the padding does not wrap around. */
  lemma PaddingHolds(req: nat)
    requires req < SPACE
    ensures var nb := Request2Size(req);
            && nb % 8 == 0
            && (req + OVERHEAD <= nb < SPACE <==> req + 15 < SPACE)
            && (req + 15 < SPACE ==> MIN_CHUNK <= nb < req + OVERHEAD + MIN_CHUNK)
            && (req < MAX_REQUEST ==> nb <= req + 32 && nb < MAX_REQUEST + 16)
            && (req <= MAX_SMALL_REQUEST <==> nb < MIN_LARGE && req + 15 < SPACE)
  {
  }

  /** `dlcalloc`'s request: the wrapping product, replaced by MAX_SIZE_T when the division test sees
      an overflow.  The test is skipped when both factors are below 2^16. */
  function CallocRequest(n: nat, elem: nat): (req: nat)
    requires n < SPACE && elem < SPACE
    ensures req < SPACE
  {
    if n == 0 then 0 else
      var req := (n * elem) % SPACE;
      if (n >= 0x10000 || elem >= 0x10000) && req / n != elem then SPACE - 1 else req
  }

  /** A calloc request below the limit is the true product; every product that overflows is refused. */
  lemma CallocIsExact(n: nat, elem: nat)
    requires n < SPACE && elem < SPACE
    ensures n * elem < SPACE ==> CallocRequest(n, elem) == n * elem
    ensures n * elem >= SPACE ==> CallocRequest(n, elem) == SPACE - 1 >= MAX_REQUEST
  {
    if n > 0 {
      var p := n * elem;
      if p < SPACE {
        ModUnique(p, SPACE, 0, p);
        ModUnique(p, n, elem, 0);
      } else {
        if n < 0x10000 && elem < 0x10000 {
          MulMonotone(n, 0x10000, elem);
        }
        var req := p % SPACE;
        assert n * (req / n) <= req < p;
      }
    }
  }

  // ---- bin indices

  predicate IsSmall(s: nat) { s / 8 < NBINS }

  function SmallIndex(s: nat): nat { s / 8 }

  const U32: nat := 0x1_0000_0000

  /** `((Y - lim) >> 16) & b` for unsigned 32-bit `Y`, as a truth value */
  predicate Borrows(y: nat, lim: nat, b: nat)
    requires lim < U32 && b > 0
  {
    ((y + U32 - lim) % U32 / 0x10000 / b) % 2 == 1
  }

  /** A 16-bit value moved up by a factor when it is below a limit, in one step of the search. */
  function Raise(y: nat, lim: nat, b: nat, factor: nat): nat
    requires lim < U32 && b > 0
  {
    (if Borrows(y, lim, b) then y * factor else y) % U32
  }

  lemma BorrowsIsLess(y: nat, lim: nat)
    requires y <= 0xFFFF && 0 < lim <= 0x4000
    ensures Borrows(y, lim, 8) <==> y < lim
    ensures Borrows(y, lim, 4) <==> y < lim
    ensures Borrows(y, lim, 2) <==> y < lim
  {
    if y < lim {
      assert (y + U32 - lim) % U32 / 0x10000 == 0xFFFF;
    } else {
      assert (y + U32 - lim) % U32 == y - lim;
    }
  }

  lemma RaiseIsCompare(y: nat, lim: nat, b: nat, factor: nat)
    requires y <= 0xFFFF && 0 < lim <= 0x4000 && (b == 8 || b == 4 || b == 2) && factor <= 256
    ensures Borrows(y, lim, b) <==> y < lim
    ensures Raise(y, lim, b, factor) == if y < lim then y * factor else y
  {
    BorrowsIsLess(y, lim);
    MulMonotone(factor, 256, y);
    ModUnique(y * factor, U32, 0, y * factor);
  }

  /** Position of the highest set bit of `X`, by the shift-and-mask sequence of the portable
      `compute_tree_index`, on 32-bit unsigned values. */
  function HighBit(x: nat): (k: int)
    requires 0 < x <= 0xFFFF
  {
    var y1 := Raise(x, 0x100, 8, 256);
    var y2 := Raise(y1, 0x1000, 4, 16);
    var y3 := Raise(y2, 0x4000, 2, 4);
    var n1 := if Borrows(x, 0x100, 8) then 8 else 0;
    var n2 := if Borrows(y1, 0x1000, 4) then 4 else 0;
    var n3 := if Borrows(y2, 0x4000, 2) then 2 else 0;
    14 - (n1 + n2 + n3) + y3 / 0x8000
  }

  lemma HighBitStages(x: nat)
    requires 0 < x <= 0xFFFF
    ensures var y1 := if x < 0x100 then x * 256 else x;
            var y2 := if y1 < 0x1000 then y1 * 16 else y1;
            var y3 := if y2 < 0x4000 then y2 * 4 else y2;
            HighBit(x) == 14 - (if x < 0x100 then 8 else 0) - (if y1 < 0x1000 then 4 else 0)
                             - (if y2 < 0x4000 then 2 else 0) + y3 / 0x8000
  {
    RaiseIsCompare(x, 0x100, 8, 256);
    var y1 := if x < 0x100 then x * 256 else x;
    RaiseIsCompare(y1, 0x1000, 4, 16);
    var y2 := if y1 < 0x1000 then y1 * 16 else y1;
    RaiseIsCompare(y2, 0x4000, 2, 4);
  }

  lemma HighBitIsHighest(x: nat)
    requires 0 < x <= 0xFFFF
    ensures 0 <= HighBit(x) <= 15
    ensures Pow2(HighBit(x)) <= x < 2 * Pow2(HighBit(x))
  {
    HighBitStages(x);
    PowersTable();
    var k := HighBit(x);
    if x < 0x100 {
      assert k == if x < 2 then 0 else if x < 4 then 1 else if x < 8 then 2 else if x < 16 then 3
                  else if x < 32 then 4 else if x < 64 then 5 else if x < 128 then 6 else 7;
    } else {
      assert k == if x < 512 then 8 else if x < 1024 then 9 else if x < 2048 then 10 else if x < 4096 then 11
                  else if x < 8192 then 12 else if x < 16384 then 13 else if x < 32768 then 14 else 15;
    }
  }

  lemma PowersTable()
    ensures Pow2(0) == 1 && Pow2(1) == 2 && Pow2(2) == 4 && Pow2(3) == 8 && Pow2(4) == 16
    ensures Pow2(5) == 32 && Pow2(6) == 64 && Pow2(7) == 128 && Pow2(8) == 256 && Pow2(9) == 512
    ensures Pow2(10) == 1024 && Pow2(11) == 2048 && Pow2(12) == 4096 && Pow2(13) == 8192
    ensures Pow2(14) == 16384 && Pow2(15) == 32768
  {
  }

  /** The bin index once the position `k` of the highest bit of `s >> 8` is known. */
  function IndexAt(s: nat, k: nat): nat {
    2 * k + (if BitAt(s, k + 7) then 1 else 0)
  }

  /** `compute_tree_index`, the portable `size_t` form */
  function TreeIndex(s: nat): nat {
    var x := s / 256;
    if x == 0 then 0
    else if x > 0xFFFF then NBINS - 1
    else
      HighBitIsHighest(x);
      IndexAt(s, HighBit(x))
  }

  /** `compute_tree_index`, the gcc form: `X` is truncated to `unsigned int`. */
  function GccTreeIndex(s: nat): nat {
    var x := s / 256 % U32;
    if x == 0 then 0
    else if x > 0xFFFF then NBINS - 1
    else
      HighBitIsHighest(x);
      IndexAt(s, HighBit(x))
  }

  /** `minsize_for_tree_index` */
  function MinSize(i: nat): nat {
    Pow2(i / 2 + 8) + (i % 2) * Pow2(i / 2 + 7)
  }

  /** `bit_for_tree_index`: the bit that decides the side of a child of the root */
  function TopBit(i: nat): nat {
    if i == NBINS - 1 then 63 else i / 2 + 6
  }

  lemma DivPow(s: nat, x: nat, k: nat)
    requires x == s / 256 && Pow2(k) <= x < 2 * Pow2(k)
    ensures 2 * Pow2(k + 7) <= s < 4 * Pow2(k + 7)
  {
    Pow2Add(k, 7);
    assert Pow2(7) == 128;
  }

  lemma TwoOrThree(s: nat, k: nat)
    requires 2 * Pow2(k) <= s < 4 * Pow2(k)
    ensures Shr(s, k) == 2 || Shr(s, k) == 3
  {
    var p, q := Pow2(k), Shr(s, k);
    ShrBounds(s, k);
    MulStep(q, 2, p);
    MulStep(3, q, p);
  }

  /** In a bin below the last one, the two leading bits of a size are fixed by the bin. */
  lemma LeadingBits(s: nat)
    requires MIN_LARGE <= s < 0x100_0000
    ensures TreeIndex(s) < NBINS
    ensures Shr(s, TreeIndex(s) / 2 + 7) == 2 + TreeIndex(s) % 2
  {
    hide Shr, Pow2;
    var x := s / 256;
    var k := HighBit(x);
    HighBitIsHighest(x);
    DivPow(s, x, k);
    TwoOrThree(s, k + 7);
    assert TreeIndex(s) == IndexAt(s, k);
  }

  lemma MinSizeSteps(i: nat, p: nat)
    requires p == Pow2(i / 2 + 7)
    ensures MinSize(i) == (2 + i % 2) * p
    ensures MinSize(i + 1) == (3 + i % 2) * p
  {
    assert Pow2(i / 2 + 8) == 2 * p;
    if i % 2 == 0 {
      assert (i + 1) / 2 == i / 2;
    } else {
      assert (i + 1) / 2 == i / 2 + 1;
      assert Pow2(i / 2 + 9) == 4 * p;
    }
  }

  lemma LastBinStart()
    ensures MinSize(31) <= 0x100_0000
  {
    PowersTable();
    MinSizeSteps(31, Pow2(22));
    assert Pow2(22) == 128 * Pow2(15) by { Pow2Add(15, 7); }
  }

  /** `do_check_tree`'s bracket: a size lies between the least sizes of its bin and of the next. */
  lemma TreeIndexBrackets(s: nat)
    requires MIN_LARGE <= s < SPACE
    ensures var i := TreeIndex(s);
            i < NBINS && MinSize(i) <= s && (i < NBINS - 1 ==> s < MinSize(i + 1))
  {
    if s < 0x100_0000 {
      LeadingBits(s);
      var i := TreeIndex(s);
      var k := i / 2 + 7;
      ShrBounds(s, k);
      MinSizeSteps(i, Pow2(k));
    } else {
      LastBinStart();
    }
  }

  lemma {:induction false} MinSizeMonotone(i: nat, j: nat)
    requires i <= j
    ensures MinSize(i) <= MinSize(j)
    decreases j
  {
    if i < j {
      MinSizeMonotone(i, j - 1);
      MinSizeSteps(j - 1, Pow2((j - 1) / 2 + 7));
      MulMonotone(2 + (j - 1) % 2, 3 + (j - 1) % 2, Pow2((j - 1) / 2 + 7));
    }
  }

  /** Larger sizes never go to an earlier bin. */
  lemma TreeIndexMonotone(s: nat, t: nat)
    requires MIN_LARGE <= s <= t < SPACE
    ensures TreeIndex(s) <= TreeIndex(t) < NBINS
  {
    TreeIndexBrackets(s);
    TreeIndexBrackets(t);
    if TreeIndex(t) < TreeIndex(s) {
      MinSizeMonotone(TreeIndex(t) + 1, TreeIndex(s));
    }
  }

  lemma Pow64()
    ensures Pow2(64) == SPACE
  {
    PowersTable();
    Pow2Add(15, 15);
    Pow2Add(30, 2);
    Pow2Add(32, 32);
  }

  lemma HighestIs15(x: nat)
    requires 0 < x <= 0xFFFF
    ensures 0 <= HighBit(x) <= 15
    ensures HighBit(x) == 15 <==> x >= 0x8000
  {
    HighBitIsHighest(x);
    PowersTable();
    if HighBit(x) < 15 {
      Pow2Monotone(HighBit(x), 14);
    }
  }

  /** The gcc form agrees with the `size_t` form on exactly the sizes whose truncated index word
      still selects the right bin: all of them below 2^40, and above that only those whose truncated
      word happens to select the last bin. */
  lemma GccIndexAgrees(s: nat)
    requires MIN_LARGE <= s < SPACE
    ensures GccTreeIndex(s) == TreeIndex(s) <==> s < 0x100_0000_0000 || s / 256 % U32 >= 0x10000
                                                 || (s / 256 % U32 >= 0x8000 && BitAt(s, 22))
  {
    var x := s / 256 % U32;
    if s < 0x100_0000_0000 {
      assert x == s / 256;
    } else {
      assert TreeIndex(s) == NBINS - 1;
      if 0 < x <= 0xFFFF {
        HighestIs15(x);
        assert GccTreeIndex(s) == IndexAt(s, HighBit(x));
      }
    }
  }

  /** The least size that the two forms index differently, had it been representable in a heap. */
  lemma GccIndexDiffers()
    ensures GccTreeIndex(0x100_0000_0000) == 0 && TreeIndex(0x100_0000_0000) == NBINS - 1
  {
  }
}
