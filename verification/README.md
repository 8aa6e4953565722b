# A verified model of the allocators bundled with Engine3

Engine3 ships three memory allocators: Doug Lea's `dlmalloc`, the arena layer `ptmalloc3` on top of it, and Hoard, a
multi-threaded allocator. This project models them in Dafny and proves what a client of `malloc` relies on, and what
the allocators rely on themselves.

**dlmalloc** is modelled down to the words in memory. Class `MallocState.MState` has the fields of `struct
malloc_state` (bin maps, designated victim, top chunk, footprint, segments) and one memory of words (`mem`), in which
chunks keep their head words, feet, bin links, segment records, fenceposts and payloads. Every method reads and writes
`mem` as the C code does: a head word is taken apart with masks, a free neighbour is found through its foot, the bins
are walked through the links stored inside the chunks, the segments through their records. Beside it stands a ghost
layout `L`, the list of chunks that these words mean. `Valid()` says that the chunks tile the segments without gap or
overlap, that no two free chunks are neighbours, that memory records exactly this layout, that the small bins and the
tries hold exactly the free chunks other than the designated victim and the top chunk, and that both bin maps index
them. `Booked()` adds the segment list, the top chunk's place in it and the footprint. Every operation is proved to
keep both, and to leave the words of every other payload alone.

What the operating system answers (`mmap`, `munmap`, `mremap`) is a parameter of each call; a proof holds for all
answers. So the results hold for every sequence of calls, every size and every behaviour of the system, up to the
cases listed under Findings. Class `Allocator.Heap` records the calls made; module `History` proves the theorems about
whole runs.

**ptmalloc3** is modelled as any number of such heaps that share one memory (`Arenas.Process`). A block of an arena
other than the main one carries the `NON_MAIN_ARENA` bit in its head word and the arena's address behind the client's
bytes; `free` and `realloc` find the arena from these words alone.

**Hoard** is modelled twice. The sequential part has the emptiness classes with their linked lists, the cached
superblock, the statistics, the superblock with its free list and bump pointer, and the thread-local buffer. The
concurrent part is a state machine of any number of threads, heaps and superblocks, whose steps are the lock
operations and the accesses between them. `HoardProtocol` leaves open which superblock a heap serves, fetches or gives
up, and when; safety holds whatever it is. `HoardExact` makes these choices as the code does, from the cached
superblock, the emptiness classes in order of entry, and the threshold; what threads are able to do is stated there.

The configuration is 64-bit: 8-byte words, the default alignment of 8, minimum chunk 32, segments from `mmap` in units
of 64 KiB, `mmap` threshold 256 KiB, trim threshold 2 MiB, `mremap` available, no `MORECORE` (the spaces that
`DLAllocator` creates never extend contiguously), no footers, run-time checks on. Machine arithmetic wraps where the
source's does: sizes and bin maps are unsigned words of 64 and 32 bits, and each wrapping sum, shift or negation is
written as such.

How the modules build on each other:

- words and numbers: `Bits`, `BinMaps`, `Sizes`, `Words`
- the layout of chunks and regions: `Layout`, `Regions`, `Blocks`, `Memory`, `MallocState`, `Segments`, `Records`
- the bins: `SmallBins`, `TreeBins`, `TreeSearch` on values; `BinOps`, `TreeOps`, `TreeMalloc` on memory
- the calls: `Malloc`, `Free`, `Growth`, `AddSegment`, `SysMalloc`, `Dlmalloc`, `Trim`, `Dlfree`, `Calloc`, `Mremap`,
  `Realloc`, `Memalign`, `BulkFree`, `Flags`, `Client`
- theorems over runs: `History`, `Allocator`, `FreeOrder`, `Checks`, `BinWalks`, `Traversal`
- arenas: `Ptmalloc`, `Arenas`
- Hoard: `EmptinessLists`, `HoardBins`, `HoardManager`, `HoardSuperblock`, `HoardTlab`, `HoardDrift`, `HoardProtocol`,
  `HoardExact`, `HoardDrive`, `HoardMoves`, `HoardPinning`, `HoardSettles`

## Model

| member | source | states |
|---|---|---|
| `History.ContentsPersist` | MMOEngine/external/dlmalloc/dlmalloc.h:4522-4767 | In every run of calls, a block that is not freed, resized or written between two moments is still the client's, with the same size and the same contents |
| `History.LedgerIsExact` | MMOEngine/external/dlmalloc/dlmalloc.h:4522-4767 | In every run, the chunks that the heap records as the client's are exactly those handed out and not yet taken back, counted from the calls alone |
| `History.BlocksAreApart` | MMOEngine/external/dlmalloc/dlmalloc.h:4522-4767 | In every run, blocks are aligned, lie in one region each and off the static state, and no two share a word of payload |
| `History.ResizeKeeps` | MMOEngine/external/dlmalloc/dlmalloc.h:5163-5206 | In every run, the bytes that a resize keeps are those from before it until the next call on the block |
| `Allocator.Heap.LeftAsItWas` | MMOEngine/external/dlmalloc/dlmalloc.h:4522-4767 | For the client of a heap: a block left alone since any earlier moment of the run is still there, with the same size and contents |
| `Allocator.Heap.constructor` | MMOEngine/external/dlmalloc/dlmalloc.h:2570-2595 | A heap with nothing in it is well-formed: the empty run |
| `Allocator.Heap.Malloc` | MMOEngine/external/dlmalloc/dlmalloc.h:4522-4655 | The call is one step of the run: a new block with room for the request, or no change; null if and only if neither the heap nor the system can serve it |
| `Allocator.Heap.Calloc` | MMOEngine/external/dlmalloc/dlmalloc.h:4769-4782 | One step of the run as for `malloc`, and the true product of bytes is there and zero; every product that overflows gives null, and null means no change |
| `Allocator.Heap.Free` | MMOEngine/external/dlmalloc/dlmalloc.h:4660-4767 | The call takes exactly the named block; null, and a mapped block that the system refuses, change nothing; what else it does to the layout and gives back to the system is that of `Dlfree.DlFree` |
| `Allocator.Heap.ReallocBlock` | MMOEngine/external/dlmalloc/dlmalloc.h:5163-5206 | The contents are kept up to the shorter size, other blocks are untouched, and null means no change; a block of a segment that fits stays where it is, a mapped one stays with its region, and a new block is taken only if neither is possible; promised unless the offset overruns the resized region |
| `Allocator.Heap.AlignedBlock` | MMOEngine/external/dlmalloc/dlmalloc.h:4868-4940 | A new block at a multiple of the alignment, with room for the request; null exactly when the padded request cannot be served |
| `Allocator.Heap.FreeAll` | MMOEngine/external/dlmalloc/dlmalloc.h:5075-5115 | One step of the run that takes exactly the listed blocks of segments and, of the listed blocks with a region of their own, exactly those whose region the system takes; the array is all null |
| `Allocator.Heap.TrimHeap` | MMOEngine/external/dlmalloc/dlmalloc.h:5312-5320 | A step of the run in which no block changes; the footprint shrinks by what is reported: the whole units off the top chunk, and the idle segments that the system takes |
| `Allocator.Heap.Write` | MMOEngine/external/dlmalloc/dlmalloc.h:4522-4655 | Whatever the client stores into its own block, the heap stays well-formed and other blocks stay as they are |
| `Allocator.CallocProduct` | MMOEngine/external/dlmalloc/dlmalloc.h:4769-4778 | The request computed with wrap-around and the division test is the true product, or is refused |
| `BinMaps.Bit2IdxInverts` | MMOEngine/external/dlmalloc/dlmalloc.h:2956-2967 | The five-round portable `compute_bit2idx` inverts `idx2bit` |
| `BinMaps.LeftBitsBit` | MMOEngine/external/dlmalloc/dlmalloc.h:2918-2920 | `left_bits` of a single bit is the mask of all higher bits |
| `BinMaps.LowestIsLowest` | MMOEngine/external/dlmalloc/dlmalloc.h:2915-2916 | The walk that serves as reference for `least_bit` finds the lowest set bit |
| `BinMaps.FirstMarked` | MMOEngine/external/dlmalloc/dlmalloc.h:2915-2967 | `least_bit` and `compute_bit2idx` together find the index that a linear scan of the bin map finds |
| `BinMaps.NextMarked` | MMOEngine/external/dlmalloc/dlmalloc.h:2915-2967 | With `left_bits` they find the first marked index above a given one, and zero just when there is none |
| `BinMaps.MarkedIsBit` | MMOEngine/external/dlmalloc/dlmalloc.h:2906-2913 | The mask test is the bit test |
| `Sizes.PaddingHolds` | MMOEngine/external/dlmalloc/dlmalloc.h:2214-2224 | The padded size holds request and overhead with less than a minimum chunk of slack, exactly when the padding does not wrap; small requests are those with small padded sizes |
| `Sizes.CallocIsExact` | MMOEngine/external/dlmalloc/dlmalloc.h:4769-4778 | The overflow test is exact: the request is the true product if that is representable, and refused otherwise |
| `Sizes.HighBitIsHighest` | MMOEngine/external/dlmalloc/dlmalloc.h:2869-2885 | The shift-and-mask sequence finds the highest set bit of any 16-bit value |
| `Sizes.TreeIndexBrackets` | MMOEngine/external/dlmalloc/dlmalloc.h:2869-2900 | A size lies between the least sizes of its tree bin and of the next one |
| `Sizes.TreeIndexMonotone` | MMOEngine/external/dlmalloc/dlmalloc.h:2869-2885 | Larger sizes never go to an earlier bin |
| `Sizes.LeadingBits` | MMOEngine/external/dlmalloc/dlmalloc.h:2889-2900 | In a bin below the last, the bin fixes the two leading bits of a size |
| `Sizes.GccIndexAgrees` | MMOEngine/external/dlmalloc/dlmalloc.h:2826-2838 | The exact sizes on which the gcc form agrees with the portable one |
| `Sizes.GccIndexDiffers` | MMOEngine/external/dlmalloc/dlmalloc.h:2826-2838 | The least size on which it does not |
| `Sizes.BorrowsIsLess` | MMOEngine/external/dlmalloc/dlmalloc.h:2874-2884 | The borrow of an unsigned subtraction, masked, is a comparison |
| `Layout.LayoutIsDetermined` | MMOEngine/external/dlmalloc/dlmalloc.h:2214-2291 | Two tilings of the same segments with the same chunks in use have the same free chunks, sizes and links to the chunk before: nothing depends on the order of frees |
| `Layout.ReuseTiled` | MMOEngine/external/dlmalloc/dlmalloc.h:2276-2291 | Changing the use of a chunk keeps the tiling, if no two free chunks become neighbours |
| `Layout.CutTiled` | MMOEngine/external/dlmalloc/dlmalloc.h:3065-3080 | Cutting a chunk in two keeps the tiling |
| `Layout.JoinTiled` | MMOEngine/external/dlmalloc/dlmalloc.h:4341-4407 | Joining a chunk with the one behind it keeps the tiling |
| `Regions.AddTiled` | MMOEngine/external/dlmalloc/dlmalloc.h:3806-3834 | A region with one chunk, at an offset or not, can be added to a tiling |
| `Regions.DropTiled` | MMOEngine/external/dlmalloc/dlmalloc.h:4227-4272 | A region and its chunks can be dropped |
| `Regions.ResizeTiled` | MMOEngine/external/dlmalloc/dlmalloc.h:3876-3888 | The last chunk of a region can grow and shrink with it |
| `Regions.PrependTiled` | MMOEngine/external/dlmalloc/dlmalloc.h:3920-3959 | A chunk can be put in front of a segment |
| `Regions.RemountTiled` | MMOEngine/external/dlmalloc/dlmalloc.h:4908-4911 | A mapped chunk can move within its region |
| `Memory.HeadBits` | MMOEngine/external/dlmalloc/dlmalloc.h:2226-2291 | The head word of every chunk gives back its size, both in-use bits and the flag |
| `Memory.Locate` | MMOEngine/external/dlmalloc/dlmalloc.h:2226-2291 | Two words of chunks have the same address only if they are the same word of the same chunk |
| `Memory.ClearOfState` | MMOEngine/external/dlmalloc/dlmalloc.h:2570-2595 | No word of a chunk lies in the static state |
| `Client.PayloadsApart` | MMOEngine/external/dlmalloc/dlmalloc.h:2175-2180 | No word belongs to the payloads of two blocks |
| `Client.Store` | MMOEngine/external/dlmalloc/dlmalloc.h:2175-2180 | The client may store anything into its payload: invariant and all other payloads survive |
| `MallocState.ChunkAddressOk` | MMOEngine/external/dlmalloc/dlmalloc.h:3000-3016 | The run-time address check holds of every chunk |
| `MallocState.MState.constructor` | MMOEngine/external/dlmalloc/dlmalloc.h:2570-2595 | The zeroed state satisfies the invariant |
| `MallocState.PutHead` | MMOEngine/external/dlmalloc/dlmalloc.h:3065-3080 | Writing the right head word of a chunk removes it from the stale ones and disturbs no payload |
| `MallocState.PutFoot` | MMOEngine/external/dlmalloc/dlmalloc.h:3065-3080 | The same for the foot of a free chunk |
| `MallocState.ReadSize` | MMOEngine/external/dlmalloc/dlmalloc.h:2254-2264 | The size read from a head word is that of the chunk |
| `Blocks.TakeWhole` | MMOEngine/external/dlmalloc/dlmalloc.h:3065-3080 | A chunk in hand becomes a live chunk, words and all |
| `Blocks.TakeFront` | MMOEngine/external/dlmalloc/dlmalloc.h:3065-3080 | The front of a chunk in hand becomes live and the rest stays in hand, heads and foot written |
| `Checks.AnyChunk` | MMOEngine/external/dlmalloc/dlmalloc.h:3199-3202 | The asserts of `do_check_any_chunk` hold of every chunk in every valid state |
| `Checks.TopChunk` | MMOEngine/external/dlmalloc/dlmalloc.h:3205-3216 | Those of `do_check_top_chunk`, the word behind the top chunk included |
| `Checks.MappedChunk` | MMOEngine/external/dlmalloc/dlmalloc.h:3219-3230 | Those of `do_check_mmapped_chunk`: page multiple with the offset, fencepost and zero behind it |
| `Checks.InUseChunk` | MMOEngine/external/dlmalloc/dlmalloc.h:3233-3241 | Those of `do_check_inuse_chunk`, with the walk to the free chunk before |
| `Checks.FreeChunk` | MMOEngine/external/dlmalloc/dlmalloc.h:3244-3264 | Those of `do_check_free_chunk`: foot, bits of the neighbours, neighbour in use |
| `Checks.BinLinks` | MMOEngine/external/dlmalloc/dlmalloc.h:3258-3259 | The links of a binned chunk lead back to it, in small bins and tries alike |
| `Checks.Traversed` | MMOEngine/external/dlmalloc/dlmalloc.h:3415-3424 | A chunk is in a bin just when it is free and neither designated victim nor top; no two free chunks are neighbours |
| `Traversal.TraverseSegment` | MMOEngine/external/dlmalloc/dlmalloc.h:3409-3428 | The walk from chunk to chunk through one segment, with a search of the bins for each, fails no check and ends at the top chunk or at the first fencepost behind the record |
| `Traversal.TraverseAndCheck` | MMOEngine/external/dlmalloc/dlmalloc.h:3403-3432 | The walk over all records and chunks fails no check; its sum is exactly what it has walked over, and within the footprint |
| `Traversal.CheckMallocState` | MMOEngine/external/dlmalloc/dlmalloc.h:3435-3461 | The whole check, with its walks over bins and segments, fails nowhere in a valid state; the total is within the footprint |
| `SmallBins.InsertValid` | MMOEngine/external/dlmalloc/dlmalloc.h:3550-3566 | Insertion keeps the rings well-formed and adds exactly the chunk to the contents |
| `SmallBins.RemoveValid` | MMOEngine/external/dlmalloc/dlmalloc.h:3569-3592 | Removal keeps the rings well-formed and takes exactly the chunk from the contents |
| `SmallBins.FirstIsYoungest` | MMOEngine/external/dlmalloc/dlmalloc.h:3595-3611 | The front of a small bin is the youngest chunk of its size |
| `SmallBins.LastIsOldest` | MMOEngine/external/dlmalloc/dlmalloc.h:3550-3566 | Its back is the oldest |
| `SmallBins.EqualLinksMeanAlone` | MMOEngine/external/dlmalloc/dlmalloc.h:3569-3592 | The test `F == B` sees exactly the lists of one chunk, and both are then the header |
| `SmallBins.BitMeansNonEmpty` | MMOEngine/external/dlmalloc/dlmalloc.h:2906-2913 | A bit of `smallmap` is set if and only if its bin holds a chunk |
| `BinWalks.BinFind` | MMOEngine/external/dlmalloc/dlmalloc.h:3367-3398 | The walk through the link words finds a chunk if and only if it is in a bin |
| `BinWalks.FindLarge` | MMOEngine/external/dlmalloc/dlmalloc.h:3381-3396 | In a tree bin: down the trie by the bits of the size, then round the ring, all in memory |
| `BinWalks.CheckSmallBin` | MMOEngine/external/dlmalloc/dlmalloc.h:3343-3364 | The walk backwards through the list fails no check and meets exactly the chunks of the bin |
| `BinWalks.CheckTree` | MMOEngine/external/dlmalloc/dlmalloc.h:3281-3329 | The recursion over a trie and its rings fails no check, ends, and meets exactly the chunks of the subtrie |
| `BinWalks.CheckTreeBin` | MMOEngine/external/dlmalloc/dlmalloc.h:3332-3340 | The same for a whole bin; it is empty just when its bit is clear |
| `BinWalks.CheckBins` | MMOEngine/external/dlmalloc/dlmalloc.h:3435-3442 | Over all bins the walks fail no check and meet exactly the chunks that the bins hold |
| `BinOps.InsertSmall` | MMOEngine/external/dlmalloc/dlmalloc.h:3550-3566 | The four stores realize insertion into the rings; the map is updated; payloads are untouched |
| `BinOps.UnlinkSmall` | MMOEngine/external/dlmalloc/dlmalloc.h:3569-3592 | The stores realize removal; both run-time checks pass; the map bit is cleared just when the bin is empty |
| `BinOps.UnlinkFirstSmall` | MMOEngine/external/dlmalloc/dlmalloc.h:3595-3611 | The same for the front chunk of a bin |
| `BinOps.NeighbourChecks` | MMOEngine/external/dlmalloc/dlmalloc.h:3569-3592 | A neighbour in a ring is the header, or an address in the heap that links back |
| `TreeBins.FitsChild` | MMOEngine/external/dlmalloc/dlmalloc.h:3628-3676 | A size that belongs at a node belongs at the child on the side of its next bit, and at no other |
| `TreeBins.AddNodeValid` | MMOEngine/external/dlmalloc/dlmalloc.h:3628-3676 | A new leaf keeps the tries well-formed and adds exactly the chunk |
| `TreeBins.AddChainedValid` | MMOEngine/external/dlmalloc/dlmalloc.h:3661-3669 | So does a chunk that joins the ring of its size |
| `TreeBins.RemoveChainedOk` | MMOEngine/external/dlmalloc/dlmalloc.h:3696-3709 | Removing a chunk on a ring keeps the tries well-formed and takes exactly it |
| `TreeBins.RemoveHeadOk` | MMOEngine/external/dlmalloc/dlmalloc.h:3696-3765 | So does removing a node whose ring passes to another chunk |
| `TreeBins.RemoveLastOk` | MMOEngine/external/dlmalloc/dlmalloc.h:3696-3765 | So does removing a leaf alone in its ring |
| `TreeBins.RemoveInnerOk` | MMOEngine/external/dlmalloc/dlmalloc.h:3710-3765 | So does replacing an inner node by a leaf below it |
| `TreeBins.OldestInTree` | MMOEngine/external/dlmalloc/dlmalloc.h:3628-3676 | The node of a size is older than every other chunk of that size, and its `bk` leads to the next oldest |
| `TreeBins.NothingBelow` | MMOEngine/external/dlmalloc/dlmalloc.h:3628-3676 | There is no node below an empty place |
| `TreeSearch.SideBit` | MMOEngine/external/dlmalloc/dlmalloc.h:2893-2895 | The sign bit of the shifted size is the bit that the node at that depth tests |
| `TreeSearch.SearchStep` | MMOEngine/external/dlmalloc/dlmalloc.h:4418-4440 | A step of the first walk accounts for everything it leaves behind, up to the remembered right subtree |
| `TreeSearch.FinishStep` | MMOEngine/external/dlmalloc/dlmalloc.h:4451-4458 | A step down the leftmost path accounts for everything it leaves behind |
| `TreeSearch.FinishNextBin` | MMOEngine/external/dlmalloc/dlmalloc.h:4441-4449 | When the bin of the request holds no fit, every fit lies in the next non-empty bin or beyond |
| `TreeSearch.FinishedIsBest` | MMOEngine/external/dlmalloc/dlmalloc.h:4412-4458 | When both walks have ended, no chunk of any trie fits better |
| `TreeOps.FindPlace` | MMOEngine/external/dlmalloc/dlmalloc.h:3642-3674 | The walk ends at the node of that size, or at the one free place where the size belongs |
| `TreeOps.InsertLarge` | MMOEngine/external/dlmalloc/dlmalloc.h:3628-3676 | The stores realize insertion: the contents gain exactly the chunk, map and words agree, payloads are untouched, checks pass |
| `TreeOps.RightmostLeaf` | MMOEngine/external/dlmalloc/dlmalloc.h:3710-3718 | The walk by the right child, else the left, ends at a leaf below the node |
| `TreeOps.UnlinkChained` | MMOEngine/external/dlmalloc/dlmalloc.h:3696-3709 | A chunk on a ring is unlinked: the tries lose exactly it |
| `TreeOps.UnlinkHead` | MMOEngine/external/dlmalloc/dlmalloc.h:3696-3765 | A node with others on its ring is unlinked: tries and words stay consistent and lose exactly it |
| `TreeOps.UnlinkInner` | MMOEngine/external/dlmalloc/dlmalloc.h:3710-3765 | An inner node alone in its ring is unlinked: tries and words stay consistent and lose exactly it |
| `TreeOps.UnlinkLast` | MMOEngine/external/dlmalloc/dlmalloc.h:3710-3739 | A leaf alone in its ring is unlinked: tries, words and `treemap` stay consistent and lose exactly it |
| `TreeOps.UnlinkLarge` | MMOEngine/external/dlmalloc/dlmalloc.h:3696-3765 | In every case the tries lose exactly the chunk, their words stay consistent, and payloads are untouched |
| `TreeOps.ParentWord` | MMOEngine/external/dlmalloc/dlmalloc.h:3696-3726 | A null parent tells the chained chunks |
| `TreeMalloc.WalkBin` | MMOEngine/external/dlmalloc/dlmalloc.h:4417-4440 | The first walk in memory ends with the best so far and the subtree still to be searched |
| `TreeMalloc.NextBin` | MMOEngine/external/dlmalloc/dlmalloc.h:4441-4449 | The bit tricks on `treemap` find the bin to go on with |
| `TreeMalloc.Finish` | MMOEngine/external/dlmalloc/dlmalloc.h:4451-4458 | The second walk in memory ends with a best fit over all tries |
| `TreeMalloc.BestLarge` | MMOEngine/external/dlmalloc/dlmalloc.h:4412-4458 | The node found leaves the least remainder of all fitting chunks in all tries |
| `TreeMalloc.BestSmall` | MMOEngine/external/dlmalloc/dlmalloc.h:4483-4498 | For a small request, the node found is the smallest of all tree chunks |
| `TreeMalloc.TMallocLarge` | MMOEngine/external/dlmalloc/dlmalloc.h:4412-4480 | Returns the best-fitting binned chunk, the oldest of its size, just when it beats the designated victim; else changes nothing |
| `TreeMalloc.TMallocSmall` | MMOEngine/external/dlmalloc/dlmalloc.h:4483-4518 | Returns the smallest fitting binned chunk, the oldest of its size; a remainder large enough for a chunk is exactly the new designated victim |
| `TreeMalloc.TakenNode` | MMOEngine/external/dlmalloc/dlmalloc.h:4460-4465 | The node found passes the address check and is the oldest of its size |
| `Malloc.InsertAny` | MMOEngine/external/dlmalloc/dlmalloc.h:3769-3771 | A chunk in hand goes into the bin of its size |
| `Malloc.UnlinkAny` | MMOEngine/external/dlmalloc/dlmalloc.h:3773-3776 | A binned chunk is taken out of the bin of its size |
| `Malloc.ReplaceDv` | MMOEngine/external/dlmalloc/dlmalloc.h:3614-3625 | The old designated victim goes to its bin, the new one is the chunk in hand |
| `Malloc.FromExactBin` | MMOEngine/external/dlmalloc/dlmalloc.h:4560-4571 | The front chunk of the bin is handed out whole |
| `Malloc.FromLargerBin` | MMOEngine/external/dlmalloc/dlmalloc.h:4573-4598 | A chunk of the next bin is handed out; a rest large enough for a chunk is exactly the new designated victim |
| `Dlmalloc.NextSmall` | MMOEngine/external/dlmalloc/dlmalloc.h:4574-4580 | The shifted and masked `smallmap` leads to the first non-empty bin above the index |
| `Dlmalloc.FromBins` | MMOEngine/external/dlmalloc/dlmalloc.h:4553-4604 | For a small request the bins are used by the placement rule, and of equal chunks a small bin gives the youngest and a tree bin the oldest; null, and no change, just when they must not be used |
| `Dlmalloc.FromTrees` | MMOEngine/external/dlmalloc/dlmalloc.h:4608-4614 | For a large request the tries are used if and only if some binned chunk fits better than the designated victim |
| `Dlmalloc.FromDv` | MMOEngine/external/dlmalloc/dlmalloc.h:4616-4634 | The designated victim is handed out: the rest stays the designated victim if it is large enough, else there is none |
| `Dlmalloc.FromFree` | MMOEngine/external/dlmalloc/dlmalloc.h:4553-4634 | Bins and designated victim together: served by the placement rule, or not served and unchanged |
| `Dlmalloc.DlMalloc` | MMOEngine/external/dlmalloc/dlmalloc.h:4522-4655 | Served from the heap exactly when some free chunk fits, and then by the placement rule (exact small bin, designated victim, best fit, top; of equal chunks the youngest of a small bin and the oldest of a tree bin), with no change to the segments; else by a region, else by a segment, which joins what it touches; null and unchanged exactly when none of these serves |
| `Calloc.Allocate` | MMOEngine/external/dlmalloc/dlmalloc.h:4522-4655 | What the client sees of it: a block with room for the request, new memory zero if mapped, null if and only if it cannot be served |
| `Calloc.GaveServes` | MMOEngine/external/dlmalloc/dlmalloc.h:2214-2224 | A chunk of the padded size has room for the request |
| `Calloc.TooLarge` | MMOEngine/external/dlmalloc/dlmalloc.h:4032-4034 | A request of at least MAX_REQUEST wraps around in both sizes asked of the system, and so fails |
| `Calloc.DlCalloc` | MMOEngine/external/dlmalloc/dlmalloc.h:4769-4782 | The true product of bytes, all zero, although a mapped chunk is not cleared; null for every overflow |
| `Growth.InitTop` | MMOEngine/external/dlmalloc/dlmalloc.h:3876-3888 | The head of the top chunk and the pretended chunk behind it are written |
| `Growth.InitBins` | MMOEngine/external/dlmalloc/dlmalloc.h:3891-3898 | All small bins become empty rings |
| `Growth.First` | MMOEngine/external/dlmalloc/dlmalloc.h:4155-4174 | The first segment: all of it top chunk, but for the reserved space |
| `Growth.Append` | MMOEngine/external/dlmalloc/dlmalloc.h:4177-4188 | New space behind the newest segment joins the top chunk |
| `Growth.PrependChunk` | MMOEngine/external/dlmalloc/dlmalloc.h:3920-3959 | New space in front of a segment serves the request, and the rest joins the first chunk of the segment |
| `Records.RecordReads` | MMOEngine/external/dlmalloc/dlmalloc.h:2460-2465 | In every valid state, memory leads from the record in the state through the records in the segments: each gives base and size of its segment and the address of the next |
| `Records.SegmentHolding` | MMOEngine/external/dlmalloc/dlmalloc.h:2689-2697 | The walk through the records finds the first segment that holds an address, or null |
| `Records.HasSegmentLink` | MMOEngine/external/dlmalloc/dlmalloc.h:2700-2709 | The walk tells whether some record lies in the given segment |
| `Records.SetSpan` | MMOEngine/external/dlmalloc/dlmalloc.h:4198-4200 | Base and size of one record are rewritten, in memory or in the state; the list changes in that place only, and no payload |
| `Records.Unlink` | MMOEngine/external/dlmalloc/dlmalloc.h:4254-4256 | Rewriting one link takes exactly that segment off the list |
| `AddSegment.PushedLinks` | MMOEngine/external/dlmalloc/dlmalloc.h:3981-3988 | The copy of the old record and the new one in the state form the list with the new segment in front |
| `AddSegment.RecordFits` | MMOEngine/external/dlmalloc/dlmalloc.h:3963-3975 | The record is aligned, has room for its fenceposts and leaves in front nothing or a whole chunk |
| `AddSegment.Fenceposts` | MMOEngine/external/dlmalloc/dlmalloc.h:3990-4000 | Every word behind the record up to the end is a fencepost, two at least |
| `AddSegment.AddSegment` | MMOEngine/external/dlmalloc/dlmalloc.h:3962-4012 | The old top becomes a record, written word by word, and a free chunk; the new space is the top and heads the list; no block changes |
| `SysMalloc.SegmentHolds` | MMOEngine/external/dlmalloc/dlmalloc.h:4032-4034 | The exact requests for which the sum does not wrap; then there is room for chunk and reserved space |
| `SysMalloc.RegionHolds` | MMOEngine/external/dlmalloc/dlmalloc.h:3806-3807 | The same for a region of its own, to the byte |
| `SysMalloc.MmapAlloc` | MMOEngine/external/dlmalloc/dlmalloc.h:3806-3834 | A zeroed region with the chunk in it, counted in the footprint, if and only if limit, sum and system allow; else no change |
| `SysMalloc.PrependAlloc` | MMOEngine/external/dlmalloc/dlmalloc.h:3920-3959 | The segment begins with the new space, the request is served at its front, and the books are kept |
| `Records.SegmentEnding` | MMOEngine/external/dlmalloc/dlmalloc.h:4178-4181 | The walk through the records finds the first segment that ends at the new space, or null |
| `Records.SegmentStarting` | MMOEngine/external/dlmalloc/dlmalloc.h:4192-4194 | The walk finds the first segment that begins behind it, or null |
| `SysMalloc.Place` | MMOEngine/external/dlmalloc/dlmalloc.h:4176-4206 | In a heap with segments the new space makes the newest segment longer if it follows it, else goes in front of the first segment that begins behind it and serves there, else is the newest segment |
| `SysMalloc.Extend` | MMOEngine/external/dlmalloc/dlmalloc.h:4150-4206 | Whichever way the new space comes, it ends up in the top chunk or serves the request, and nothing else changes |
| `SysMalloc.SysAlloc` | MMOEngine/external/dlmalloc/dlmalloc.h:4017-4222 | Served by a region, or by a segment, or null and unchanged, each exactly under the stated condition on limit, sizes and answers; the place of the chunk, the new list of segments, the footprint and its maximum are those that the answer determines |
| `Free.Backward` | MMOEngine/external/dlmalloc/dlmalloc.h:4343-4369 | The free chunk before is found through its foot and taken in |
| `Free.Forward` | MMOEngine/external/dlmalloc/dlmalloc.h:4370-4407 | The chunk behind is the top, the designated victim, binned or in use, and is joined accordingly |
| `Free.Dispose` | MMOEngine/external/dlmalloc/dlmalloc.h:4341-4407 | The layout is the old one with one free chunk over the gap: the chunk, a free one before and a free one behind; it is the top chunk or the designated victim if it meets them, and else in the bin of its size; payloads are untouched |
| `Dlfree.OwnedWords` | MMOEngine/external/dlmalloc/dlmalloc.h:4680-4686 | The words of a client's chunk tell what `dlfree` reads from them |
| `Dlfree.FreeMapped` | MMOEngine/external/dlmalloc/dlmalloc.h:4685-4690 | The region goes back with exactly its size off the footprint, or nothing changes |
| `Dlfree.DlFree` | MMOEngine/external/dlmalloc/dlmalloc.h:4660-4767 | Exactly the chunk is freed and its gap closed; null, or a refused unmapping, changes nothing; the heap is trimmed just when the top chunk has grown beyond the threshold, and segments are scanned just when the counter of large frees runs out, each with the exact effect on segments, top chunk, footprint and thresholds; else nothing goes back |
| `Dlfree.FreeTrims` | MMOEngine/external/dlmalloc/dlmalloc.h:4713-4722 | When the top chunk grows beyond the threshold and the system agrees, it is left with more than the reserved space and at most one unit more, and the footprint falls by what it loses and by the idle segments taken |
| `Dlfree.FreeKeeps` | MMOEngine/external/dlmalloc/dlmalloc.h:4708-4752 | A free that neither makes the top chunk exceed the threshold nor is the one to scan the segments gives nothing back: footprint and segments are as before |
| `FreeOrder.SameGaps` | MMOEngine/external/dlmalloc/dlmalloc.h:4341-4407 | Two layouts left by vacating the same chunks are equal up to the uses of free chunks |
| `FreeOrder.RunVacates` | MMOEngine/external/dlmalloc/dlmalloc.h:4660-4767 | After any number of frees exactly the freed chunks are vacated |
| `FreeOrder.OrderDoesNotMatter` | MMOEngine/external/dlmalloc/dlmalloc.h:4660-4767 | Every order of frees of the same blocks ends in the same layout |
| `FreeOrder.FreeStep` | MMOEngine/external/dlmalloc/dlmalloc.h:4660-4767 | `dlfree` without trimming is a step of such a run |
| `FreeOrder.BulkAsOneByOne` | MMOEngine/external/dlmalloc/dlmalloc.h:5068-5115 | `bulk_free`, merging of neighbours included, ends in the same layout as freeing one by one in any order |
| `BulkFree.FreeListed` | MMOEngine/external/dlmalloc/dlmalloc.h:5080-5109 | All listed blocks of segments are freed, neighbours merged on the way, and the array cleared; a listed mapped block stays just when the system does not take its region, and the footprint falls by exactly the regions taken; other blocks are untouched |
| `BulkFree.BulkFree` | MMOEngine/external/dlmalloc/dlmalloc.h:5075-5115 | The same with the end of the call: after the loop the top chunk reaches down to the last block of the newest segment that was not listed, and the heap is trimmed just when it exceeds the threshold |
| `BulkFree.OneTop` | MMOEngine/external/dlmalloc/dlmalloc.h:5110-5111 | The place down to which the top chunk reaches after the loop is determined by the old layout and the list |
| `BulkFree.MappedNotJoined` | MMOEngine/external/dlmalloc/dlmalloc.h:5094-5100 | No chunk begins behind a mapped one, so it is never merged |
| `Trim.FirstChunk` | MMOEngine/external/dlmalloc/dlmalloc.h:4238-4241 | The test on the words of the first chunk of a segment accepts exactly the idle segments |
| `Trim.IdleChunks` | MMOEngine/external/dlmalloc/dlmalloc.h:4238-4250 | An idle segment holds one free chunk and its record, and not the top chunk |
| `Trim.ReleaseSegment` | MMOEngine/external/dlmalloc/dlmalloc.h:4241-4261 | The segment leaves list and footprint if the system takes it, and its chunk goes into a trie otherwise |
| `Trim.ReleaseNext` | MMOEngine/external/dlmalloc/dlmalloc.h:4232-4266 | One turn of the loop releases the segment exactly when it is idle and the system agrees, and leads to the next record |
| `Trim.ReleaseUnused` | MMOEngine/external/dlmalloc/dlmalloc.h:4227-4272 | Exactly the idle segments for which the system agrees, asked in the order of the list, leave it, and what is reported is the sum of their sizes; no block changes; the counter of large frees starts anew |
| `Trim.AllTaken` | MMOEngine/external/dlmalloc/dlmalloc.h:4227-4266 | A system that takes everything is left with exactly the segments that are not idle |
| `Trim.NoneIdle` | MMOEngine/external/dlmalloc/dlmalloc.h:4227-4266 | No segment is idle then |
| `Trim.NoneTaken` | MMOEngine/external/dlmalloc/dlmalloc.h:4257-4260 | A system that takes nothing leaves every segment, and nothing is released |
| `Trim.ReleasedRest` | MMOEngine/external/dlmalloc/dlmalloc.h:4227-4272 | What is released and what stays are together what was there |
| `Trim.ExtraLeaves` | MMOEngine/external/dlmalloc/dlmalloc.h:4282-4284 | Whole units are released, and more than `pad` but at most one unit more is left |
| `Trim.TrimFits` | MMOEngine/external/dlmalloc/dlmalloc.h:4278-4284 | The sums of `sys_trim` do not wrap |
| `Trim.NeverPinned` | MMOEngine/external/dlmalloc/dlmalloc.h:2700-2709 | No record lies in the newest segment, so `has_segment_link` is false there and `sys_trim` is never held back |
| `Trim.TrimTop` | MMOEngine/external/dlmalloc/dlmalloc.h:4280-4324 | Exactly the whole units are released if the system agrees |
| `Trim.SysTrim` | MMOEngine/external/dlmalloc/dlmalloc.h:4274-4336 | No block changes; the top chunk loses exactly its whole units beyond `pad` if the system agrees, the idle segments that it takes go, the result is the loss of footprint, and the threshold is put out of reach when nothing could be released |
| `Mremap.RemappedAt` | MMOEngine/external/dlmalloc/dlmalloc.h:3851-3852 | The words after `mremap`: those of the old region, zeros behind them, others as before |
| `Mremap.Remap` | MMOEngine/external/dlmalloc/dlmalloc.h:3847-3866 | A region moved or resized keeps the contents up to the shorter size, and all other blocks |
| `Mremap.MoveRegion` | MMOEngine/external/dlmalloc/dlmalloc.h:3848-3859 | The region is at its new place with its contents, the chunk at the same offset in it, and all words that mark it written |
| `Mremap.OverrunIff` | MMOEngine/external/dlmalloc/dlmalloc.h:3848-3859 | The resized chunk ends with its region and holds the request if and only if its offset is within the slack |
| `Mremap.MmapResize` | MMOEngine/external/dlmalloc/dlmalloc.h:3838-3870 | Succeeds just when the chunk fits already or the system resizes; contents, invariant and footprint as they should be unless the offset overruns |
| `Realloc.SplitOff` | MMOEngine/external/dlmalloc/dlmalloc.h:4799-4808 | The tail of a chunk is freed, the rest stays |
| `Realloc.IntoTopSpace` | MMOEngine/external/dlmalloc/dlmalloc.h:4809-4820 | The chunk grows into the top chunk |
| `Realloc.IntoDvSpace` | MMOEngine/external/dlmalloc/dlmalloc.h:4821-4842 | The chunk grows into the designated victim, or takes all of it |
| `Realloc.IntoNextSpace` | MMOEngine/external/dlmalloc/dlmalloc.h:4843-4860 | The chunk takes over the binned chunk behind it, and the spare part is freed |
| `Realloc.ResizeLive` | MMOEngine/external/dlmalloc/dlmalloc.h:4789-4866 | A chunk of a segment is resized in place if and only if it has the room or a free neighbour gives it; else no change |
| `Realloc.TryRealloc` | MMOEngine/external/dlmalloc/dlmalloc.h:4789-4866 | In place if and only if it fits, contents kept: a chunk of a segment where it was, a mapped one at its offset in the region that the system gives; else null and no change |
| `Realloc.DlRealloc` | MMOEngine/external/dlmalloc/dlmalloc.h:5163-5206 | Null if and only if neither in place nor by a new chunk, and then no change; a chunk that fits is resized where it is, or with its region, and a new chunk is taken only if it does not fit; the contents up to the shorter size are at the result, the old block is gone, others are untouched |
| `Memalign.Doubled` | MMOEngine/external/dlmalloc/dlmalloc.h:4870-4876 | The doubling loop finds the least sufficient power of two |
| `Memalign.DoublingWraps` | MMOEngine/external/dlmalloc/dlmalloc.h:4870-4876 | For an alignment above 2^63 no number of doublings reaches it |
| `Memalign.SpotFits` | MMOEngine/external/dlmalloc/dlmalloc.h:4890-4905 | The aligned place leaves room for a whole chunk in front of it |
| `Memalign.ShiftMapped` | MMOEngine/external/dlmalloc/dlmalloc.h:4908-4911 | A mapped chunk moves forward in its region, its offset and size words written |
| `Memalign.AlignFront` | MMOEngine/external/dlmalloc/dlmalloc.h:4887-4918 | The misaligned front is freed, or skipped in a mapped chunk; the rest is aligned and large enough |
| `Memalign.FirstSpotIs` | MMOEngine/external/dlmalloc/dlmalloc.h:4885-4905 | The place chosen is the first aligned one that is the chunk itself or leaves room for a chunk before it |
| `Memalign.TrimBack` | MMOEngine/external/dlmalloc/dlmalloc.h:4920-4930 | Spare room at the end is freed |
| `Memalign.Memalign` | MMOEngine/external/dlmalloc/dlmalloc.h:4868-4940 | An aligned block with room for the request, mapped by itself or not, with bounded slack in a segment; null and unchanged if and only if it cannot be served |
| `Memalign.MemalignOverrun` | MMOEngine/external/dlmalloc/dlmalloc.h:3838-3870 | An aligned mapped block whose resize writes outside the region that the system returned |
| `Ptmalloc.TagFits` | MMOEngine/external/ptmalloc3/ptmalloc3.c:224-246 | The arena's address lies behind the client's bytes and inside the chunk |
| `Ptmalloc.TagOutside` | MMOEngine/external/ptmalloc3/ptmalloc3.c:720-742 | It does so for a served request if and only if adding the footer did not wrap around |
| `Ptmalloc.WrappedRequest` | MMOEngine/external/ptmalloc3/ptmalloc3.c:720-742 | A tiled heap and a request that is served although it wrapped around |
| `Ptmalloc.LabelRoutes` | MMOEngine/external/ptmalloc3/ptmalloc3.c:224-246 | From a labelled chunk, `arena_for_chunk` finds its arena |
| `Ptmalloc.SetNonMain` | MMOEngine/external/ptmalloc3/ptmalloc3.c:224-246 | Setting bit and address labels the chunk, keeps its bytes and spares all other labelled chunks |
| `Ptmalloc.StepSpares` | MMOEngine/external/ptmalloc3/ptmalloc3.c:720-841 | No step of an arena's heap disturbs label or bytes of a chunk that it is not about |
| `Ptmalloc.Label` | MMOEngine/external/ptmalloc3/ptmalloc3.c:733-740 | A new block is labelled, bytes intact; in the main arena nothing is written |
| `Ptmalloc.ArenaMalloc` | MMOEngine/external/ptmalloc3/ptmalloc3.c:720-742 | A new block with its label and room for the request, if and only if the heap or the system can serve the request with its footer |
| `Ptmalloc.ArenaMemalign` | MMOEngine/external/ptmalloc3/ptmalloc3.c:846-879 | The same at a multiple of the alignment, with its own exact condition |
| `Ptmalloc.ArenaFree` | MMOEngine/external/ptmalloc3/ptmalloc3.c:747-783 | The block is gone unless the system refuses it, and all other labelled chunks of the arena are spared |
| `Ptmalloc.ArenaRealloc` | MMOEngine/external/ptmalloc3/ptmalloc3.c:788-841 | The block keeps its bytes and is labelled anew; it stays where it is if it lies in a segment and fits, and moves if it does not fit; spoiled exactly when the resize overruns its region |
| `Flags.SetFlag` | MMOEngine/external/dlmalloc/dlmalloc.h:2230-2258 | One bit of the head word is set; nothing else in memory changes, and the invariant holds |
| `Arenas.Process.Routed` | MMOEngine/external/ptmalloc3/ptmalloc3.c:224-246 | In every valid process, the words of every block lead to the arena it came from |
| `Arenas.LeaveOther` | MMOEngine/external/ptmalloc3/ptmalloc3.c:720-783 | What one arena wrote leaves the regions of the others as they were |
| `Arenas.RoutedInStore` | MMOEngine/external/ptmalloc3/ptmalloc3.c:224-246 | The words that lead to the arena lie in its own regions |
| `Arenas.Process.Malloc` | MMOEngine/external/ptmalloc3/ptmalloc3.c:720-742 | A block that no arena had out, if and only if the arena can serve it; all blocks of all arenas keep bytes and label |
| `Arenas.Process.Memalign` | MMOEngine/external/ptmalloc3/ptmalloc3.c:846-879 | The same, aligned, with its own exact condition; small alignments are plain requests |
| `Arenas.Process.Free` | MMOEngine/external/ptmalloc3/ptmalloc3.c:747-783 | The arena found from memory is the one the block came from; exactly the block is gone, and no other block of any arena changes |
| `Arenas.Process.ReallocBlock` | MMOEngine/external/ptmalloc3/ptmalloc3.c:788-841 | The arena is found from memory, and null is a plain request; null exactly when the arena cannot resize, and then every block keeps its bytes; else the bytes are kept and the block routes to the same arena; it stays where it is if it lies in a segment and fits, and moves if it does not; other blocks of all arenas are untouched; spoiled exactly on an overrun |
| `Arenas.Process.Write` | MMOEngine/external/ptmalloc3/ptmalloc3.c:747-783 | The client's stores within its bytes never damage a label |
| `Arenas.Process.NewArena` | MMOEngine/external/ptmalloc3/ptmalloc3.c:199-219 | A new arena joins; the others and all blocks stay |
| `EmptinessLists.FullnessMeans` | MMOEngine/external/hoard/emptyclass.h:190-200 | Class 0 means all objects free, the last class none free |
| `EmptinessLists.FullnessFalls` | MMOEngine/external/hoard/emptyclass.h:190-200 | More free objects never mean a fuller class |
| `EmptinessLists.FullnessBrackets` | MMOEngine/external/hoard/emptyclass.h:190-200 | The classes between are the eighths of the objects in use |
| `EmptinessLists.CutOk` | MMOEngine/external/hoard/emptyclass.h:65-106 | Taking a superblock out of a doubly linked list leaves the list without it |
| `EmptinessLists.PushOk` | MMOEngine/external/hoard/emptyclass.h:108-132 | Pushing one leaves the list with it in front |
| `HoardBins.Bin.constructor` | MMOEngine/external/hoard/emptyclass.h:27-32 | An empty bin is valid |
| `HoardBins.Push` | MMOEngine/external/hoard/emptyclass.h:108-132 | The superblock is in front of the list of its fullness, and the others are as they were |
| `HoardBins.Emptiest` | MMOEngine/external/hoard/emptyclass.h:65-106 | The superblock got is the front of the first list that is not empty: not full, and none listed is in an emptier class; null just when all listed are full |
| `HoardBins.FreeListed` | MMOEngine/external/hoard/emptyclass.h:154-188 | One more object is free, and the superblock is in the list of its new fullness |
| `HoardBins.GetBlock` | MMOEngine/external/hoard/manageonesuperblock.h:49-58 | The cached superblock, whatever its fullness, if there is one; else one of the emptiest class that is not full; null just when none is cached and all are full |
| `HoardBins.PutBlock` | MMOEngine/external/hoard/manageonesuperblock.h:61-72 | The superblock is cached, and the one cached before is in its list |
| `HoardBins.TakeObject` | MMOEngine/external/hoard/manageonesuperblock.h:27-36 | An object of the cached superblock if that has one, else of one of the emptiest class, which becomes the cached one; null if and only if every superblock is full |
| `HoardBins.SlowObject` | MMOEngine/external/hoard/manageonesuperblock.h:77-95 | The loop ends, with an object of a superblock that has one; null if and only if every superblock is full |
| `HoardBins.ReturnObject` | MMOEngine/external/hoard/manageonesuperblock.h:39-46 | Exactly one more object of exactly that superblock is free |
| `HoardManager.GetObject` | MMOEngine/external/hoard/hoardmanager.h:308-317 | The statistics follow the object, which comes from the cached superblock or else from one of the emptiest |
| `HoardManager.UnlockedPut` | MMOEngine/external/hoard/hoardmanager.h:245-264 | The superblock joins the heap, and both statistics stay the sums over its superblocks |
| `HoardManager.TakeBlock` | MMOEngine/external/hoard/hoardmanager.h:126-140 | The cached superblock, or else one of the emptiest, leaves with its share of both statistics |
| `HoardManager.SlowPathFree` | MMOEngine/external/hoard/hoardmanager.h:216-242 | Past the threshold there is a superblock to give up: the cached one, or else one of the emptiest moves to the global heap with its objects and is cached there; objects in use are conserved |
| `HoardManager.FreeObject` | MMOEngine/external/hoard/hoardmanager.h:143-178 | Objects in use over both heaps fall by one; a superblock moves up if and only if the threshold is crossed, one only, and the one that `get` takes; if none moves, at most an eighth of the objects is free, or no more than two superblocks hold |
| `HoardManager.ThresholdIff` | MMOEngine/external/hoard/hoard.h:107-116 | The threshold is crossed if and only if more than an eighth of the objects of a bin is free, and more than two superblocks hold |
| `HoardManager.CrossedHasThree` | MMOEngine/external/hoard/hoard.h:107-116 | A heap that crosses it has three superblocks at least |
| `HoardManager.FreeInGlobal` | MMOEngine/external/hoard/globalheap.h:13-19 | The threshold of the global heap is never crossed, so it keeps all its superblocks |
| `HoardManager.AnotherBlock` | MMOEngine/external/hoard/hoardmanager.h:337-367 | A superblock of the global heap, the cached or else one of the emptiest, joins the heap; a new one only if the global heap has none cached and all are full; null just when then the source fails |
| `HoardManager.SlowPathMalloc` | MMOEngine/external/hoard/hoardmanager.h:287-305 | The loop ends and asks the source once at most, and only if every superblock of both heaps is full; else an object of the global heap's superblocks serves; null only if the source failed; every superblock of both heaps is still there with its free objects, at most one is new, and exactly one object is gone |
| `HoardManager.Malloc` | MMOEngine/external/hoard/hoardmanager.h:84-98 | While the heap has an object, its cached superblock or else one of the emptiest serves, and neither the global heap nor the source changes; else as `slowPathMalloc` |
| `HoardProtocol.StepInv` | MMOEngine/external/hoard/hoardmanager.h:84-178 | Every step of every thread keeps locks, owners, places and what threads know consistent |
| `HoardProtocol.SafeRuns` | MMOEngine/external/hoard/redirectfree.h:63-100 | In every run, a superblock changes only under the lock of its owner, and changes owner only under both locks |
| `HoardProtocol.FreesUnderOwner` | MMOEngine/external/hoard/redirectfree.h:63-100 | Once the second look at the owner agrees, the object is returned under the true owner's lock and no other thread touches the superblock before |
| `HoardProtocol.HeldIsSafe` | MMOEngine/external/hoard/redirectfree.h:63-100 | In every run, as long as a thread holds the lock of the owner, no step of another thread touches the superblock |
| `HoardPinning.ThroughGlobal` | MMOEngine/external/hoard/hoardmanager.h:102-140 | Every change of owner is from or to the global heap, under both locks |
| `HoardExact.ExactStepInv` | MMOEngine/external/hoard/hoardmanager.h:84-178 | With the choices of the code: every step keeps the protocol's invariant, the cached superblock is in its bin, and every object is free, held by the program, or about to be returned by exactly one thread |
| `HoardExact.BinUntouched` | MMOEngine/external/hoard/hoardmanager.h:84-178 | A step changes the bin of one heap at most |
| `HoardExact.WorksUnderLock` | MMOEngine/external/hoard/hoardmanager.h:84-178 | and holds the lock of that heap |
| `HoardExact.CrossedPicks` | MMOEngine/external/hoard/hoardmanager.h:216-225 | A heap that has crossed the threshold has a superblock to give up |
| `HoardDrive.Deterministic` | MMOEngine/external/hoard/emptyclass.h:65-106 | In every reachable state the step of a thread is determined, except for the call it makes and what the source answers: which superblock serves, which is fetched, whether one is given up and which, all follow from the state |
| `HoardDrive.ExactRuns` | MMOEngine/external/hoard/redirectfree.h:63-100 | Every run of the code is a run of the protocol, so that what holds in all runs of the protocol holds for the code |
| `HoardDrive.CodeGoesOn` | MMOEngine/external/hoard/redirectfree.h:63-100 | No deadlock: in every reachable state of the code, as long as a call is unfinished, some thread in a call can take a step |
| `HoardDrive.Unlock` | MMOEngine/external/hoard/lockmallocheap.h:15-21 | While one thread stands still without the global lock, all others can go on until they hold no lock of a heap; no bin changes whose lock was free |
| `HoardDrive.FreesOne` | MMOEngine/external/hoard/redirectfree.h:63-100 | Then an object of any superblock can be returned, unless its lock is held by the thread that stands still or by one that waits for it |
| `HoardDrive.FreesDown` | MMOEngine/external/hoard/hoardmanager.h:143-178 | If the objects that can be returned make a heap cross its threshold, it gives up the cached superblock |
| `HoardMoves.OpenMoves` | MMOEngine/external/hoard/hoardmanager.h:126-140 | A superblock of the global heap with a free object is fetched after finitely many calls, in whatever order the lists are |
| `HoardMoves.LooseMoves` | MMOEngine/external/hoard/hoardmanager.h:143-178 | Any superblock whose lock is loose can be moved by the others: they fill its heap, add new superblocks, make it the cached one and empty the new ones until the threshold is crossed |
| `HoardMoves.MayCrossMoves` | MMOEngine/external/hoard/hoardmanager.h:216-242 | The same under the superblock's own lock, if its heap may cross the threshold |
| `HoardPinning.HeapLockPins` | MMOEngine/external/hoard/redirectfree.h:82-98 | A thread that holds the lock of the owner, or the global lock, keeps the superblock there, whatever the others do |
| `HoardPinning.OwnLockPinsFull` | MMOEngine/external/hoard/redirectfree.h:74-80 | The superblock's own lock keeps it with its heap, whichever that is, while it is full and not cached |
| `HoardPinning.LooseIff` | MMOEngine/external/hoard/redirectfree.h:74-98 | In every reachable state in which the superblock's lock is loose, the others can change its owner if and only if the thread that stands still holds neither the lock of the owner nor the global lock |
| `HoardPinning.GlobalIff` | MMOEngine/external/hoard/hoardmanager.h:126-140 | In every reachable state, the others can move a superblock out of the global heap if and only if the thread does not hold the global lock and the superblock has a free object, or its lock is loose, or it is cached and about to stay so |
| `HoardPinning.OwnLockIff` | MMOEngine/external/hoard/redirectfree.h:74-80 | A thread holds the superblock's lock as `free` does, the lock of its heap being free: the others can change the owner if and only if the superblock is cached or has a free object, and its heap crosses the threshold once all objects of its other superblocks are returned |
| `HoardPinning.OwnerMayChange` | MMOEngine/external/hoard/redirectfree.h:74-80 | For every size of objects a reachable state in which a thread holds the lock of a superblock and the others can change its owner |
| `HoardPinning.OwnLockMayPin` | MMOEngine/external/hoard/redirectfree.h:74-80 | and one in which they cannot |
| `HoardSettles.LoopEnds` | MMOEngine/external/hoard/redirectfree.h:74-100 | The loop of `free` ends: in every run, while a thread is in it, the superblock changes its owner at most twice for every free object it has and twice more, and the thread goes round no more often |
| `HoardSettles.LeftStep` | MMOEngine/external/hoard/hoardmanager.h:84-178 | The measure behind it: every step of every thread uses up one change of owner if it makes one, and adds none, because each way down to a heap takes an object or leaves the superblock full and listed |
| `HoardProtocol.BlocksConserved` | MMOEngine/external/hoard/hoardmanager.h:102-140 | In every run, no superblock is lost or in two places: it is in its owner's bins or carried by one thread under the owner's lock |
| `HoardProtocol.NeverDeadlocked` | MMOEngine/external/hoard/redirectfree.h:63-100 | In every run, as long as a call is unfinished some thread in a call waits for no lock and can take a step |
| `HoardSuperblock.Superblock.constructor` | MMOEngine/external/hoard/hoardsuperblockheader.h:21-34 | All objects are free |
| `HoardSuperblock.Superblock.Malloc` | MMOEngine/external/hoard/hoardsuperblockheader.h:36-44 | An object not in use: the next untouched one, and the head of the free list when all have been touched; null if and only if all are in use |
| `HoardSuperblock.Superblock.Free` | MMOEngine/external/hoard/hoardsuperblockheader.h:46-53 | Exactly the object is free again, at the head of the free list; with the last one the superblock is as new |
| `HoardSuperblock.Superblock.Clear` | MMOEngine/external/hoard/hoardsuperblockheader.h:55-63 | The superblock is as new |
| `HoardSuperblock.Superblock.InteriorPointers` | MMOEngine/external/hoard/hoardsuperblockheader.h:66-95 | A pointer into an object is taken to its start, and its size reaches to its end; the masked and the modulo form agree |
| `HoardTlab.SizeClass` | MMOEngine/external/hoard/heaplayers/bins64k.h:57-64 | The first class that is large enough |
| `HoardTlab.OwnClass` | MMOEngine/external/hoard/heaplayers/bins64k.h:38-64 | The class of a class size is that class |
| `HoardTlab.Tlab.constructor` | MMOEngine/external/hoard/tlab.h:28-32 | An empty buffer with the given classes and limits is valid |
| `HoardTlab.Tlab.Malloc` | MMOEngine/external/hoard/tlab.h:42-66 | A hit if and only if the first class large enough has a cached object, which it hands out; the counter covers what is subtracted, and its excess over what is cached grows by exactly the unused part of the object |
| `HoardTlab.Tlab.Free` | MMOEngine/external/hoard/tlab.h:69-99 | The object is cached exactly when class and limit allow, else the parent has it; none is lost or doubled; the excess of the counter stays |
| `HoardTlab.Tlab.Clear` | MMOEngine/external/hoard/tlab.h:101-113 | The parent gets every cached object exactly once, although the loop stops when the counter is zero; the excess of the counter stays |
| `HoardDrift.DriftGrows` | MMOEngine/external/hoard/tlab.h:42-113 | In every run of calls, the excess of the counter over the bytes cached never shrinks |
| `HoardDrift.ExactIff` | MMOEngine/external/hoard/tlab.h:50-58 | The excess is unchanged over a run if and only if every object handed out had exactly the size asked for |
| `HoardDrift.CachesAgainIff` | MMOEngine/external/hoard/tlab.h:81-88 | Some run from a buffer caches an object of a class again, if and only if its size and the excess together are within the limit |
| `HoardDrift.StaysExactIff` | MMOEngine/external/hoard/tlab.h:42-113 | The counter is the number of bytes cached in every run of a new buffer, if and only if every size that is looked up and can be cached is the size of its class |
| `HoardDrift.WearsOut` | MMOEngine/external/hoard/tlab.h:42-113 | A class that serves smaller requests wears every buffer out: a run ends with nothing cached and no object of the class ever cached again |
| `HoardDrift.TableWears` | MMOEngine/external/hoard/heaplayers/bins64k.h:72-74 | The class of 96 bytes of the table, with requests of 88, does so for every limit; the largest object cached is that of libhoard.cpp:73 |
| `HoardDrift.OneRequest` | MMOEngine/external/hoard/tlab.h:42-66 | With room for one such object, one free and one request are enough |

## Findings

Properties that the code does not have on all inputs, each with the condition under which it does, or with what holds
instead.

- `Mremap.OverrunIff`, `Memalign.MemalignOverrun`: `mmap_resize` (dlmalloc.h:3838-3870) computes the new region from
  the request alone but keeps the chunk's offset in the old one. The resized chunk ends with its region and holds the
  request just when the offset is at most the slack of the new region, which is less than a page and two words. A
  chunk from `memalign` may have a larger offset: 256 KiB at an alignment of 1 MiB, resized to 512 KiB, is written
  beyond the region that the system returned. `Mremap.MmapResize`, `Realloc.DlRealloc` and all callers promise
  everything when the offset is within the slack or the system does not resize, and only then.
- `Sizes.GccIndexAgrees`, `Sizes.GccIndexDiffers`: the gcc form of `compute_tree_index` (dlmalloc.h:2826-2838)
  truncates the shifted size to 32 bits. It agrees with the portable form on all sizes below 2^40; from there on just
  when the truncated word still selects the last bin. The model uses the portable form.
- `Memalign.DoublingWraps`: for an alignment above 2^63 the loop in `internal_memalign` (dlmalloc.h:4870-4876) that
  doubles the alignment wraps to zero and never reaches it; `Memalign.Doubled` shows that it ends for all others.
- `Ptmalloc.TagOutside`, `Ptmalloc.WrappedRequest`: `public_mALLOc` (ptmalloc3.c:733-735) adds the footer to the
  request without an overflow check. The arena's address lies behind the bytes asked for just when the sum does not
  wrap; a request for all but seven bytes of the address space is served with a chunk for one byte.
- `HoardPinning.OwnLockIff`, `HoardPinning.OwnerMayChange`: a comment in `RedirectFree::free` (redirectfree.h:76-80)
  says that the superblock's lock keeps it from moving up to the global heap, and that the loop ends for this reason.
  The lock does so just when the heap cannot cross its threshold while the superblock is cached. A full superblock that
  is not cached stays (`HoardPinning.OwnLockPinsFull`), as does one whose heap has too few superblocks. A cached
  superblock with one object in use, in a heap of many full ones, is handed to the global heap when enough objects of
  the others are returned. The conclusion is right all the same: the owner changes a bounded number of times, and the
  loop ends (`HoardSettles.LoopEnds`). The lock of the heap or the global lock keeps the superblock in any case
  (`HoardPinning.HeapLockPins`), and once its own lock is loose nothing else does (`HoardPinning.LooseIff`). A lock is
  loose unless the thread holds it, or another that waits for a heap that the thread holds.
- `HoardDrift.OneRequest`, `HoardDrift.StaysExactIff`, `HoardDrift.CachesAgainIff`: the thread-local buffer takes the
  size asked for off its counter (tlab.h:56) and adds the size of the class (tlab.h:88). The counter is the number of
  bytes cached in every run if and only if every size that is looked up and can be cached is the size of its class.
  The excess is never given back, not even by `clear`; objects of a class are cached again if and only if their size
  and the excess together are within the limit. In Hoard's table a request of 88 bytes is served with 96, so every
  buffer with room for one such object can be worn out (`HoardDrift.TableWears`). What holds in all runs is that the
  counter is at least what is cached and at most the limit, which is enough for `HoardTlab.Tlab.Clear`.

## Left out

- `MORECORE` and noncontiguous `sbrk`, with the branches of `sys_alloc` and `sys_trim` for it: the fallback when
  `mmap` fails is left out too.
- `FOOTERS`, `INSECURE`, `PROCEED_ON_ERROR` and the corruption paths: the run-time checks are asserted never to fail.
- `mspace` variants, `independent_calloc`, `independent_comalloc`, `valloc`, `pvalloc`, `posix_memalign`: built on the
  modelled calls.
- `mallinfo`, `malloc_stats`, `inspect_all`, `mallopt`: they only report or set parameters.
- `init_mparams`, locks around dlmalloc calls, `fork` handlers: one call at a time is modelled.
- Bytes: memory is a map from addresses to words, and contents are compared address by address. Stores that cover part
  of a word are not distinguished.
- The footprint limit when a region is resized: `mmap_resize` does not consult it, and neither does the model.
- Memalign.Memalign: requires an alignment of at most 2^63, because the call never returns for a larger one.
- Arenas.Process.ReallocBlock: says nothing of memory after a resize that overruns its region, as the other callers of
  `mmap_resize`; `Ptmalloc.ArenaRealloc` says exactly when that is.
- Arenas.Process.Malloc: the choice of an arena by `arena_get` is left to the caller.
- ptmalloc3's own copy of `malloc.c`, which marks mapped chunks with a bit in `prev_foot`: the arenas run on the model
  of `dlmalloc.h`. Where the state of an arena itself lies is not modelled either.
- ptmalloc3's `calloc`, hooks, `mallinfo`, locks and statistics.
- HoardProtocol.NeverDeadlocked: some thread can always step; which of the waiting threads gets a lock is left open, so
  that one of them may wait for ever.
- HoardPinning.OwnLockIff: says nothing of states in which the lock of the superblock's heap is held, or in which the
  thread holds the lock of another heap as well; `HoardPinning.HeapLockPins` and `HoardPinning.OwnLockPinsFull` do.
- Hoard's `mmap` heap, thread exit and C++ template glue.
- Hoard's thread-to-heap hashing: a thread may allocate from any heap, and their number is not bounded, where the source
  has 128; only the case of a cached superblock in `HoardPinning.GlobalIff` uses a heap that nobody else does.
- Hoard's concurrent model has the superblocks of one size class, and no thread-local buffer in front of the heaps.
- Hoard's concurrent and sequential models are joined by their contracts only: a step of `HoardExact` chooses and counts
  as the contract of the sequential method says, with the order of entry in place of the linked lists.
- The engine around the allocators (objects, network, scripting): none of it is modelled.
