/** Words by address.  A word never written reads as zero. */
module Words {

  type Words = map<int, int>

  function At(w: Words, a: int): int {
    if a in w then w[a] else 0
  }

  // Reading after writing, one word at a time

  lemma PutOther(w: Words, a: int, v: int, p: int)
    requires p != a
    ensures At(w[a := v], p) == At(w, p)
  {
  }

  lemma SamePut(w: Words, z: Words, a: int, v: int, p: int)
    requires p != a ==> At(w, p) == At(z, p)
    ensures At(w[a := v], p) == At(z[a := v], p)
  {
  }

  lemma SameAfter(w: Words, z: Words, a: int, v: int, p: int)
    requires p != a ==> At(w, p) == At(z, p)
    requires At(w, a) == v
    ensures At(w, p) == At(z[a := v], p)
  {
  }

  /** A list without its element `k`. */
  function Without<T>(s: seq<T>, k: nat): (r: seq<T>)
    requires k < |s|
    ensures |r| == |s| - 1
  {
    s[..k] + s[k + 1..]
  }
}
