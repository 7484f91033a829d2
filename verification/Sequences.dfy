/** Small facts about sequences used by several components. */
module Sequences {
  ghost predicate NoDup<T>(s: seq<T>) {
    forall i, j :: 0 <= i < j < |s| ==> s[i] != s[j]
  }

  /** `a` can be obtained from `b` by deleting elements. */
  predicate Subseq<T(==)>(a: seq<T>, b: seq<T>) {
    a == [] ||
    (b != [] &&
     (Subseq(a, b[..|b| - 1]) ||
      (a[|a| - 1] == b[|b| - 1] && Subseq(a[..|a| - 1], b[..|b| - 1]))))
  }

  lemma SubseqAppendBoth<T>(a: seq<T>, b: seq<T>, x: T)
    requires Subseq(a, b)
    ensures Subseq(a + [x], b + [x])
  {
    assert (a + [x])[..|a|] == a && (b + [x])[..|b|] == b;
  }

  lemma SubseqAppendRight<T>(a: seq<T>, b: seq<T>, x: T)
    requires Subseq(a, b)
    ensures Subseq(a, b + [x])
  {
    assert (b + [x])[..|b|] == b;
  }

  lemma {:induction false} SubseqExtend<T>(a: seq<T>, b: seq<T>, c: seq<T>)
    requires Subseq(a, b)
    ensures Subseq(a, b + c)
    decreases |c|
  {
    if c == [] {
      assert b + c == b;
    } else {
      var n := |c| - 1;
      SubseqExtend(a, b, c[..n]);
      SubseqAppendRight(a, b + c[..n], c[n]);
      assert b + c[..n] + [c[n]] == b + c;
    }
  }

  lemma {:induction false} SubseqDropLast<T>(a: seq<T>, b: seq<T>)
    requires a != [] && Subseq(a, b)
    ensures Subseq(a[..|a| - 1], b)
    decreases |b|
  {
    var a', b' := a[..|a| - 1], b[..|b| - 1];
    if Subseq(a, b') {
      SubseqDropLast(a, b');
    }
    SubseqAppendRight(a', b', b[|b| - 1]);
    assert b' + [b[|b| - 1]] == b;
  }

  lemma {:induction false} SubseqPrefix<T>(a: seq<T>, k: nat, b: seq<T>)
    requires k <= |a| && Subseq(a, b)
    ensures Subseq(a[..k], b)
    decreases |a| - k
  {
    if k == |a| {
      assert a[..k] == a;
    } else {
      SubseqPrefix(a, k + 1, b);
      SubseqDropLast(a[..k + 1], b);
      assert a[..k + 1][..k] == a[..k];
    }
  }
}
