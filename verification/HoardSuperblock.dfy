/** Hoard's superblock: objects of one size, handed out first from the untouched rest of the buffer and
    then from the list of freed ones. */
module HoardSuperblock {
  import opened Bits

  class Superblock {
    const objectSize: nat
    const isPower: bool            // objectSize is a power of two
    const total: nat
    const start: nat
    var reapable: nat              // objects never handed out since the last `clear`
    var objectsFree: nat
    var position: nat
    var freeList: seq<nat>
    ghost var freed: seq<nat>      // the objects of the free list, by index
    ghost var live: set<nat>       // the objects handed out, by index

    /** The object with index `k`. */
    function Object(k: nat): nat { start + k * objectSize }

    ghost predicate FreedOk(i: nat)
      requires i < |freed| == |freeList|
      reads this
    {
      freeList[i] == Object(freed[i]) && freed[i] < total - reapable && freed[i] !in live
    }

    ghost predicate Placed(k: nat)
      reads this
    {
      k in live || k in freed
    }

    ghost predicate Valid()
      reads this
    {
      && 0 < objectSize && reapable <= total && position == Object(total - reapable)
      && (isPower <==> IsPower(objectSize))
      && |freed| == |freeList| && objectsFree == reapable + |freeList| && |live| + objectsFree == total
      && (forall i {:trigger FreedOk(i)} :: 0 <= i < |freed| ==> FreedOk(i))
      && (forall i, j {:trigger freed[i], freed[j]} :: 0 <= i < j < |freed| ==> freed[i] != freed[j])
      && (forall k {:trigger k in live} :: k in live ==> k < total - reapable)
      && (forall k {:trigger Placed(k)} :: 0 <= k < total - reapable ==> Placed(k))
    }

    /** A superblock of objects of `size` bytes in a buffer at `buffer`. */
    constructor (size: nat, buffer: nat, bufferSize: nat)
      requires 0 < size
      ensures Valid() && live == {} && objectSize == size && start == buffer && total == bufferSize / size
    {
      objectSize, start, total := size, buffer, bufferSize / size;
      isPower := And(size, size - 1) == 0 && size != 0;
      reapable, objectsFree, position := bufferSize / size, bufferSize / size, buffer;
      freeList, freed, live := [], [], {};
      new;
      PowerTest(size);
    }

    /** `malloc`: an object that is not live, or null just when all objects are. */
    method Malloc() returns (ptr: nat, ghost k: nat)
      requires Valid()
      modifies this
      ensures Valid()
      ensures old(objectsFree) == 0 ==> ptr == 0 && live == old(live) && |live| == total
      ensures old(objectsFree) > 0 ==>
                k < total && ptr == Object(k) && k !in old(live) && live == old(live) + {k}
                    && objectsFree == old(objectsFree) - 1
      ensures old(reapable) > 0 ==>
                ptr == old(position) && reapable == old(reapable) - 1 && freeList == old(freeList)
      ensures old(reapable) == 0 && old(objectsFree) > 0 ==>
                old(freeList) != [] && ptr == old(freeList)[0] && freeList == old(freeList)[1..] && reapable == 0
    {
      if reapable > 0 {
        ptr, k := position, total - reapable;
        NextObject(start, objectSize, k);
        position := ptr + objectSize;
        reapable := reapable - 1;
        objectsFree := objectsFree - 1;
        live := live + {k};
        forall i {:trigger FreedOk(i)} | 0 <= i < |freed| ensures FreedOk(i) {
          assert old(FreedOk(i));
        }
        forall j {:trigger Placed(j)} | 0 <= j < total - reapable ensures Placed(j) {
          assert j != k ==> old(Placed(j));
        }
      } else if freeList != [] {
        ptr, k := freeList[0], freed[0];
        assert FreedOk(0);
        Pop(k);
      } else {
        ptr, k := 0, 0;
      }
    }

    /** The head of the free list handed out. */
    method Pop(ghost k: nat)
      requires Valid() && freed != [] && k == freed[0]
      modifies `freeList, `freed, `live, `objectsFree
      ensures Valid() && live == old(live) + {k} && k !in old(live) && objectsFree == old(objectsFree) - 1
      ensures old(freeList) != [] && freeList == old(freeList)[1..]
    {
      assert FreedOk(0);
      objectsFree := objectsFree - 1;
      freeList := freeList[1..];
      freed := freed[1..];
      live := live + {k};
      forall i {:trigger FreedOk(i)} | 0 <= i < |freed| ensures FreedOk(i) {
        assert old(FreedOk(i + 1)) && freed[i] == old(freed)[i + 1];
      }
      forall j {:trigger Placed(j)} | 0 <= j < total - reapable ensures Placed(j) {
        assert old(Placed(j));
        if j in old(freed) && j != k {
          var i :| 0 <= i < |old(freed)| && old(freed)[i] == j;
          assert freed[i - 1] == j;
        }
      }
    }

    /** `free` of a live object; `clear` is reached just when no object is left live. */
    method Free(ptr: nat, ghost k: nat) returns (cleared: bool)
      requires Valid() && k in live && ptr == Object(k)
      modifies this
      ensures Valid() && live == old(live) - {k} && objectsFree == old(objectsFree) + 1
      ensures cleared <==> live == {}
      ensures cleared ==> reapable == objectsFree == total && position == start && freeList == []
      ensures !cleared ==> freeList == [ptr] + old(freeList) && reapable == old(reapable)
    {
      freeList := [ptr] + freeList;
      freed := [k] + freed;
      live := live - {k};
      objectsFree := objectsFree + 1;
      assert |freeList| == |old(freeList)| + 1;
      forall i {:trigger FreedOk(i)} | 0 <= i < |freed| ensures FreedOk(i) {
        assert i > 0 ==> old(FreedOk(i - 1));
      }
      forall i, j {:trigger freed[i], freed[j]} | 0 <= i < j < |freed| ensures freed[i] != freed[j] {
        assert old(FreedOk(j - 1));
      }
      forall j {:trigger Placed(j)} | 0 <= j < total - reapable ensures Placed(j) {
        assert old(Placed(j));
      }
      cleared := objectsFree == total;
      if cleared {
        Clear();
      }
    }

    /** `clear` */
    method Clear()
      requires Valid() && live == {}
      modifies this
      ensures Valid() && live == {} && reapable == objectsFree == total && position == start && freeList == []
    {
      freeList, freed := [], [];
      objectsFree, reapable, position := total, total, start;
    }

    // ---- interior pointers

    /** `normalize`: the start of the object that `ptr` points into */
    function Normalize(ptr: nat): int
      requires start <= ptr && 0 < objectSize
    {
      var offset := ptr - start;
      if isPower then ptr - And(offset, objectSize - 1) else ptr - offset % objectSize
    }

    /** `getSize`: the bytes from `ptr` to the end of its object */
    function GetSize(ptr: nat): int
      requires start <= ptr && 0 < objectSize
    {
      var offset := ptr - start;
      if isPower then objectSize - And(offset, objectSize - 1) else objectSize - offset % objectSize
    }

    /** The masked and the modulo form agree: a pointer into object `k` is taken to its start, and its size
        reaches to the end of the object. */
    lemma InteriorPointers(ptr: nat, k: nat)
      requires Valid() && Object(k) <= ptr < Object(k) + objectSize
      ensures start <= ptr && Normalize(ptr) == Object(k) && Normalize(ptr) + objectSize == ptr + GetSize(ptr)
      ensures 0 < GetSize(ptr) <= objectSize
    {
      var offset := ptr - start;
      assert k * objectSize >= 0;
      ModUnique(offset, objectSize, k, ptr - Object(k));
      if isPower {
        var e: nat :| objectSize == Pow2(e);
        MaskIsMod(offset, e);
      }
    }
  }

  lemma NextObject(start: nat, size: nat, k: nat)
    ensures start + k * size + size == start + (k + 1) * size
  {
  }
}
