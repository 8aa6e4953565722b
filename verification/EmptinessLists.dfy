/** Hoard's `EmptyClass`: the superblocks of one bin of a heap, in doubly linked lists by fullness.

    A superblock is named by its address.  All superblocks of a bin hold objects of one size, and so the
    same number of objects. */
module EmptinessLists {
  import opened Bits
  import opened Words

  const CLASSES: nat := 8     // EMPTINESS_CLASSES

  /** `getFullness`: 0 when all objects are free, `CLASSES + 1` when none is. */
  function Fullness(total: nat, free: nat): nat
    requires 0 < total && free <= total
  {
    if total == free then 0 else 1 + (CLASSES * (total - free)) / total
  }

  /** The class tells empty and full superblocks from the others. */
  lemma FullnessMeans(total: nat, free: nat)
    requires 0 < total && free <= total
    ensures Fullness(total, free) <= CLASSES + 1
    ensures Fullness(total, free) == 0 <==> free == total
    ensures Fullness(total, free) == CLASSES + 1 <==> free == 0
  {
    var used := total - free;
    if free == 0 {
      assert (CLASSES * total) / total == CLASSES by {
        DivExact(CLASSES, total);
      }
    } else if free < total {
      DivBelow(CLASSES * used, CLASSES, total);
    }
  }

  /** Class `1 + k` has at least `k` eighths of the objects in use, and less than `k + 1`. */
  lemma FullnessBrackets(total: nat, free: nat)
    requires 0 < total && free < total
    ensures var k := Fullness(total, free) - 1;
            k * total <= CLASSES * (total - free) < (k + 1) * total
  {
    var x := CLASSES * (total - free);
    assert x == total * (x / total) + x % total;
  }

  /** More free objects never mean a fuller class. */
  lemma FullnessFalls(total: nat, free: nat, more: nat)
    requires 0 < total && free <= more <= total
    ensures Fullness(total, more) <= Fullness(total, free)
  {
    if more < total {
      FullnessBrackets(total, free);
      FullnessBrackets(total, more);
      var k, l := Fullness(total, free) - 1, Fullness(total, more) - 1;
      if k + 1 <= l {
        MulMonotone(k + 1, l, total);
      }
    }
  }

  lemma DivExact(a: nat, d: nat)
    requires d > 0
    ensures (a * d) / d == a
  {
    ModUnique(a * d, d, a, 0);
  }

  lemma DivBelow(x: nat, a: nat, d: nat)
    requires d > 0 && x < a * d
    ensures x / d < a
  {
    var q := x / d;
    assert x == d * q + x % d;
    if a <= q {
      MulMonotone(a, q, d);
    }
  }

  // ---- one list

  /** The links of the superblock at position `j`. */
  predicate LinkOk(next: Words, prev: Words, l: seq<int>, j: nat)
    requires j < |l|
  {
    && l[j] != 0
    && At(next, l[j]) == (if j + 1 < |l| then l[j + 1] else 0)
    && At(prev, l[j]) == (if j > 0 then l[j - 1] else 0)
  }

  function First(l: seq<int>): int { if l == [] then 0 else l[0] }

  ghost predicate ListOk(next: Words, prev: Words, l: seq<int>) {
    && (forall j {:trigger LinkOk(next, prev, l, j)} :: 0 <= j < |l| ==> LinkOk(next, prev, l, j))
    && (forall j, k {:trigger l[j], l[k]} :: 0 <= j < k < |l| ==> l[j] != l[k])
  }

  /** The links after the superblock `s` is taken out between `p` and `n`. */
  function Cut(w: Words, p: int, n: int): Words { if p != 0 then w[p := n] else w }

  lemma CutOk(next: Words, prev: Words, l: seq<int>, j: nat)
    requires ListOk(next, prev, l) && j < |l|
    ensures var p, n := At(prev, l[j]), At(next, l[j]);
            ListOk(Cut(next, p, n), Cut(prev, n, p), Without(l, j))
                && First(Without(l, j)) == if j == 0 then n else First(l)
  {
    var p, n, w := At(prev, l[j]), At(next, l[j]), Without(l, j);
    var next', prev' := Cut(next, p, n), Cut(prev, n, p);
    assert LinkOk(next, prev, l, j);
    assert j > 0 ==> LinkOk(next, prev, l, j - 1);
    assert j + 1 < |l| ==> LinkOk(next, prev, l, j + 1);
    forall k {:trigger LinkOk(next', prev', w, k)} | 0 <= k < |w| ensures LinkOk(next', prev', w, k) {
      var i := if k < j then k else k + 1;
      assert w[k] == l[i] && LinkOk(next, prev, l, i);
      assert k + 1 < |w| ==> w[k + 1] == l[if k + 1 < j then k + 1 else k + 2];
      assert k > 0 ==> w[k - 1] == l[if k - 1 < j then k - 1 else k];
    }
    forall i, k {:trigger w[i], w[k]} | 0 <= i < k < |w| ensures w[i] != w[k] {
      assert w[i] == l[if i < j then i else i + 1] && w[k] == l[if k < j then k else k + 1];
    }
  }

  /** A superblock at the front. */
  lemma PushOk(next: Words, prev: Words, l: seq<int>, s: int)
    requires ListOk(next, prev, l) && s != 0 && s !in l
    ensures var n := First(l); ListOk(next[s := n], Cut(prev[s := 0], n, s), [s] + l)
  {
    var n, w := First(l), [s] + l;
    var next', prev' := next[s := n], Cut(prev[s := 0], n, s);
    forall k {:trigger LinkOk(next', prev', w, k)} | 0 <= k < |w| ensures LinkOk(next', prev', w, k) {
      if k > 0 {
        assert w[k] == l[k - 1] && LinkOk(next, prev, l, k - 1);
      }
    }
  }

  /** Links of superblocks outside a list do not matter to it. */
  lemma OtherOk(next: Words, prev: Words, next': Words, prev': Words, l: seq<int>)
    requires ListOk(next, prev, l)
    requires forall s {:trigger s in l} :: s in l ==> At(next', s) == At(next, s) && At(prev', s) == At(prev, s)
    ensures ListOk(next', prev', l)
  {
    forall j {:trigger LinkOk(next', prev', l, j)} | 0 <= j < |l| ensures LinkOk(next', prev', l, j) {
      assert LinkOk(next, prev, l, j) && l[j] in l;
    }
  }
}
