/** The counter of the thread-local buffer over whole runs: `malloc` takes off the size asked for, `free` adds the
    size of the class.  The difference is never given back, and in the end the buffer caches nothing. */
module HoardDrift {
  import opened HoardTlab

  /** A run of calls on one buffer: `ops[i]` leads from `run[i]` to `run[i + 1]`. */
  ghost predicate IsRun(h: Shape, run: seq<Buffer>, ops: seq<Op>) {
    && ShapeOk(h) && |run| == |ops| + 1 && BufferOk(h, run[0])
    && forall i {:trigger ops[i]} :: 0 <= i < |ops| ==> Moves(h, run[i], run[i + 1], ops[i])
  }

  /** What one call adds to the difference. */
  ghost function Loss(h: Shape, op: Op): int
    requires op.Hit? ==> op.c < |h.sizes|
  {
    if op.Hit? then h.sizes[op.c] - op.sz else 0
  }

  lemma StepDrift(h: Shape, b: Buffer, b': Buffer, op: Op)
    requires ShapeOk(h) && BufferOk(h, b) && Moves(h, b, b', op)
    ensures BufferOk(h, b') && (op.Hit? ==> op.c < |h.sizes|) && Drift(h, b') == Drift(h, b) + Loss(h, op)
    ensures 0 <= Loss(h, op)
  {
    match op
    case Hit(c, sz) => Removing(b.lists, h.sizes, c);
    case Kept(c, ptr) => Adding(b.lists, h.sizes, c, ptr);
    case Passed =>
    case Cleared => EmptyBytes(b'.lists, h.sizes, |b'.lists|);
  }

  /** The difference never shrinks, whatever is called. */
  lemma {:induction false} DriftGrows(h: Shape, run: seq<Buffer>, ops: seq<Op>, n: nat)
    requires IsRun(h, run, ops) && n <= |ops|
    ensures BufferOk(h, run[n]) && Drift(h, run[0]) <= Drift(h, run[n])
  {
    if n > 0 {
      DriftGrows(h, run, ops, n - 1);
      StepDrift(h, run[n - 1], run[n], ops[n - 1]);
    }
  }

  /** Every hit so far was for the whole object. */
  ghost predicate AllWhole(h: Shape, ops: seq<Op>, n: nat)
    requires n <= |ops|
  {
    forall i {:trigger ops[i]} :: 0 <= i < n && ops[i].Hit? ==> ops[i].c < |h.sizes| && ops[i].sz == h.sizes[ops[i].c]
  }

  /** The counter is still as exact as it was just when every object handed out had exactly the size asked for. */
  lemma {:induction false} ExactIff(h: Shape, run: seq<Buffer>, ops: seq<Op>, n: nat)
    requires IsRun(h, run, ops) && n <= |ops|
    ensures BufferOk(h, run[n])
    ensures Drift(h, run[n]) == Drift(h, run[0]) <==> AllWhole(h, ops, n)
  {
    if n > 0 {
      ExactIff(h, run, ops, n - 1);
      DriftGrows(h, run, ops, n - 1);
      StepDrift(h, run[n - 1], run[n], ops[n - 1]);
      assert AllWhole(h, ops, n) <==> AllWhole(h, ops, n - 1) && Loss(h, ops[n - 1]) == 0;
    }
  }

  // ---- what the difference costs

  /** Some run from `b` caches an object of class `c`. */
  ghost predicate CanCache(h: Shape, b: Buffer, c: nat) {
    exists run, ops: seq<Op>, i {:trigger IsRun(h, run, ops), ops[i]} ::
      IsRun(h, run, ops) && run[0] == b && 0 <= i < |ops| && ops[i].Kept? && ops[i].c == c
  }

  /** Objects of class `c` are cached again, now or later, just when the size and the difference together are
      within the limit: what is lost is lost for good, and not even `clear` gives it back. */
  lemma CachesAgainIff(h: Shape, b: Buffer, c: nat)
    requires ShapeOk(h) && BufferOk(h, b) && c < |h.sizes|
    ensures CanCache(h, b, c) <==> h.sizes[c] <= h.largest && h.sizes[c] + Drift(h, b) <= h.limit
  {
    if CanCache(h, b, c) {
      var run, ops: seq<Op>, i :| IsRun(h, run, ops) && run[0] == b && 0 <= i < |ops| && ops[i].Kept? && ops[i].c == c;
      DriftGrows(h, run, ops, i);
      assert Moves(h, run[i], run[i + 1], ops[i]);
    }
    if h.sizes[c] <= h.largest && h.sizes[c] + Drift(h, b) <= h.limit {
      ClearThenCache(h, b, c);
    }
  }

  lemma ClearThenCache(h: Shape, b: Buffer, c: nat)
    requires ShapeOk(h) && BufferOk(h, b) && c < |h.sizes|
    requires h.sizes[c] <= h.largest && h.sizes[c] + Drift(h, b) <= h.limit
    ensures CanCache(h, b, c)
  {
    var b1 := Emptied(h, Drift(h, b));
    var b2 := Buffer(b1.bytes + h.sizes[c], b1.lists[c := [0] + b1.lists[c]]);
    var run, ops := [b, b1, b2], [Cleared, Kept(c, 0)];
    forall i {:trigger ops[i]} | 0 <= i < |ops| ensures Moves(h, run[i], run[i + 1], ops[i]) {
    }
    assert IsRun(h, run, ops) && ops[1].Kept?;
  }

  ghost function Emptied(h: Shape, bytes: nat): Buffer { Buffer(bytes, seq(|h.sizes|, _ => [])) }

  lemma EmptiedOk(h: Shape, bytes: nat)
    requires bytes <= h.limit
    ensures BufferOk(h, Emptied(h, bytes)) && Drift(h, Emptied(h, bytes)) == bytes
  {
    EmptyBytes(Emptied(h, bytes).lists, h.sizes, |h.sizes|);
  }

  // ---- when it happens

  /** Objects of class `c` serve requests of `sz` bytes, which is less than their size. */
  ghost predicate Lossy(h: Shape, c: nat, sz: nat) {
    Sized(h, sz) && FirstFit(h.sizes, sz, c) && sz < h.sizes[c] <= h.largest && h.sizes[c] <= h.limit
  }

  ghost predicate Leads(h: Shape, b: Buffer, b': Buffer) {
    exists run, ops {:trigger IsRun(h, run, ops)} :: IsRun(h, run, ops) && run[0] == b && run[|ops|] == b'
  }

  lemma Stay(h: Shape, b: Buffer)
    requires ShapeOk(h) && BufferOk(h, b)
    ensures Leads(h, b, b)
  {
    assert IsRun(h, [b], []);
  }

  lemma Onward(h: Shape, b: Buffer, b': Buffer, b'': Buffer, op: Op)
    requires Leads(h, b, b') && Moves(h, b', b'', op)
    ensures Leads(h, b, b'')
  {
    hide Moves, ShapeOk, BufferOk;
    var run, ops :| IsRun(h, run, ops) && run[0] == b && run[|ops|] == b';
    var more, with := run + [b''], ops + [op];
    forall i {:trigger with[i]} | 0 <= i < |with| ensures Moves(h, more[i], more[i + 1], with[i]) {
      assert i < |ops| ==> with[i] == ops[i];
    }
    assert more[0] == run[0] && more[|with|] == b'';
    assert IsRun(h, more, with);
  }

  /** An object of class `c` cached, and handed out for `sz` bytes: the buffer is as empty as before, and the counter
      is higher. */
  lemma WearOnce(h: Shape, b: Buffer, bytes: nat, c: nat, sz: nat)
    requires Leads(h, b, Emptied(h, bytes)) && Lossy(h, c, sz) && bytes + h.sizes[c] <= h.limit
    ensures Leads(h, b, Emptied(h, bytes + (h.sizes[c] - sz)))
  {
    var b1 := Emptied(h, bytes);
    var b2 := Buffer(bytes + h.sizes[c], b1.lists[c := [0]]);
    assert [0] + b1.lists[c] == [0];
    Onward(h, b, b1, b2, Kept(c, 0));
    var b3 := Emptied(h, bytes + (h.sizes[c] - sz));
    assert b2.lists[c := b2.lists[c][1..]] == b3.lists;
    Onward(h, b, b2, b3, Hit(c, sz));
  }

  lemma {:induction false} WearDown(h: Shape, b: Buffer, bytes: nat, c: nat, sz: nat) returns (worn: nat)
    requires Leads(h, b, Emptied(h, bytes)) && Lossy(h, c, sz) && bytes <= h.limit
    ensures Leads(h, b, Emptied(h, worn)) && worn <= h.limit < worn + h.sizes[c]
    decreases h.limit - bytes
  {
    hide Leads;
    worn := bytes;
    if bytes + h.sizes[c] <= h.limit {
      WearOnce(h, b, bytes, c, sz);
      worn := WearDown(h, b, bytes + (h.sizes[c] - sz), c, sz);
    }
  }

  /** Nothing is cached, and objects of class `c` never will be. */
  ghost predicate Useless(h: Shape, b: Buffer, c: nat) { NoneCached(b) && !CanCache(h, b, c) }

  /** A class that serves smaller requests wears every buffer out: some run from the new buffer ends with nothing
      cached and no object of the class ever cached again. */
  lemma WearsOut(h: Shape, c: nat, sz: nat) returns (b: Buffer)
    requires ShapeOk(h) && Lossy(h, c, sz)
    ensures Leads(h, Emptied(h, 0), b) && Useless(h, b, c)
  {
    EmptiedOk(h, 0);
    Stay(h, Emptied(h, 0));
    var worn := WearDown(h, Emptied(h, 0), 0, c, sz);
    b := Emptied(h, worn);
    EmptiedOk(h, worn);
    CachesAgainIff(h, b, c);
  }

  /** The counter is the number of bytes cached in every run of a new buffer. */
  ghost predicate StaysExact(h: Shape) {
    forall b {:trigger BufferOk(h, b)} :: Leads(h, Emptied(h, 0), b) ==> BufferOk(h, b) && Drift(h, b) == 0
  }

  /** It is so just when every size that is looked up, and whose class can be cached, is the size of its class. */
  lemma StaysExactIff(h: Shape)
    requires ShapeOk(h)
    ensures StaysExact(h) <==> !exists c, sz {:trigger Lossy(h, c, sz)} :: Lossy(h, c, sz)
  {
    EmptiedOk(h, 0);
    if c: nat, sz: nat :| Lossy(h, c, sz) {
      Stay(h, Emptied(h, 0));
      WearOnce(h, Emptied(h, 0), 0, c, sz);
      EmptiedOk(h, h.sizes[c] - sz);
      assert BufferOk(h, Emptied(h, h.sizes[c] - sz));
    } else {
      forall b {:trigger BufferOk(h, b)} | Leads(h, Emptied(h, 0), b) ensures BufferOk(h, b) && Drift(h, b) == 0 {
        var run, ops :| IsRun(h, run, ops) && run[0] == Emptied(h, 0) && run[|ops|] == b;
        ExactRun(h, run, ops);
      }
    }
  }

  /** What is cached can be cached. */
  ghost predicate Cacheable(h: Shape, b: Buffer) {
    && |b.lists| == |h.sizes|
    && forall c {:trigger b.lists[c]} :: 0 <= c < |b.lists| && b.lists[c] != [] ==>
         h.sizes[c] <= h.largest && h.sizes[c] <= h.limit
  }

  lemma {:induction false} AllCacheable(h: Shape, run: seq<Buffer>, ops: seq<Op>, n: nat)
    requires IsRun(h, run, ops) && Cacheable(h, run[0]) && n <= |ops|
    ensures Cacheable(h, run[n])
  {
    if n > 0 {
      AllCacheable(h, run, ops, n - 1);
      assert Moves(h, run[n - 1], run[n], ops[n - 1]);
    }
  }

  lemma ExactRun(h: Shape, run: seq<Buffer>, ops: seq<Op>)
    requires IsRun(h, run, ops) && run[0] == Emptied(h, 0)
    requires forall c, sz {:trigger Lossy(h, c, sz)} :: !Lossy(h, c, sz)
    ensures BufferOk(h, run[|ops|]) && Drift(h, run[|ops|]) == 0
  {
    EmptiedOk(h, 0);
    ExactIff(h, run, ops, |ops|);
    forall i {:trigger ops[i]} | 0 <= i < |ops| && ops[i].Hit?
      ensures ops[i].c < |h.sizes| && ops[i].sz == h.sizes[ops[i].c]
    {
      AllCacheable(h, run, ops, i);
      assert Moves(h, run[i], run[i + 1], ops[i]) && !Lossy(h, ops[i].c, ops[i].sz);
    }
  }

  // ---- Hoard's own table

  /** The classes of the table that a buffer has lists for: up to the class of its largest object. */
  const CLASSES: seq<nat> := [8, 16, 24, 32, 40, 48, 56, 64, 72, 80, 96, 112, 128, 152, 176, 208, 248, 296]

  const LARGEST: nat := 256      // LargestSmallObject

  /** A request of 88 bytes is served with 96, so the table wears buffers of every limit out. */
  lemma TableWears(limit: nat) returns (b: Buffer)
    requires 96 <= limit
    ensures var h := Shape(CLASSES, LARGEST, limit); ShapeOk(h) && Leads(h, Emptied(h, 0), b) && Useless(h, b, 10)
  {
    var h := Shape(CLASSES, LARGEST, limit);
    assert Lossy(h, 10, 88);
    b := WearsOut(h, 10, 88);
  }

  /** With room for one object of 96 bytes, one call of each kind is enough: what remains of the counter is 8. */
  lemma OneRequest(ptr: nat)
    ensures var h := Shape(CLASSES, LARGEST, 96);
            var b0, b2 := Emptied(h, 0), Emptied(h, 8);
            var b1 := Buffer(96, b0.lists[10 := [ptr]]);
            && Moves(h, b0, b1, Kept(10, ptr)) && Moves(h, b1, b2, Hit(10, 88)) && Useless(h, b2, 10)
  {
    var h := Shape(CLASSES, LARGEST, 96);
    var b0, b2 := Emptied(h, 0), Emptied(h, 8);
    var b1 := Buffer(96, b0.lists[10 := [ptr]]);
    assert [ptr] + b0.lists[10] == [ptr];
    assert b1.lists[10 := b1.lists[10][1..]] == b2.lists;
    EmptiedOk(h, 8);
    CachesAgainIff(h, b2, 10);
  }
}
