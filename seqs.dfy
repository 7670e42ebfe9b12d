/** Lists without repeated elements, and the copy of a `HashSet` into an
    `ArrayList`. */
module Seqs {

  /** No element of `s` occurs twice. */
  predicate NoDuplicates<T(==)>(s: seq<T>)
  {
    forall i, j :: 0 <= i < j < |s| ==> s[i] != s[j]
  }

  /** The set of elements of `s`. */
  function Elems<T(==)>(s: seq<T>): set<T>
  {
    set x | x in s
  }

  /** A list without repeats is as long as its set of elements is large. */
  lemma {:induction false} DistinctLength<T>(s: seq<T>)
    requires NoDuplicates(s)
    ensures |Elems(s)| == |s|
  {
    if s != [] {
      DistinctLength(s[1..]);
      assert Elems(s) == Elems(s[1..]) + {s[0]};
      assert s[0] !in Elems(s[1..]);
    }
  }

  /** A list without repeats whose elements form `{x}` is `[x]`. */
  lemma SingletonList<T>(s: seq<T>, x: T)
    requires NoDuplicates(s) && Elems(s) == {x}
    ensures s == [x]
  {
    DistinctLength(s);
    assert x in s;
  }

  /** `new ArrayList<T>(set)`: lists every element of `s` exactly once, in an
      order the model leaves open. */
  method ListOf<T>(s: set<T>) returns (r: seq<T>)
    ensures NoDuplicates(r)
    ensures Elems(r) == s
    ensures |r| == |s|
  {
    r := [];
    var rest := s;
    while rest != {}
      invariant NoDuplicates(r)
      invariant Elems(r) !! rest
      invariant Elems(r) + rest == s
      decreases |rest|
    {
      var x :| x in rest;
      r := r + [x];
      rest := rest - {x};
    }
    DistinctLength(r);
  }
}
