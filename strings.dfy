/** The two `java.lang.String` operations the group filter relies on. */
module Strings {

  /** The wildcard marker a name-like pattern may carry. */
  const Wildcard: char := '%'

  /** `s.replace("%", "")`: `s` with every wildcard marker removed and the other
      characters kept in order. */
  function StripWildcards(s: string): (r: string)
    ensures Wildcard !in r
    ensures forall c :: c != Wildcard ==> (c in r <==> c in s)
    ensures |r| <= |s|
    ensures Wildcard !in s ==> r == s
  {
    if s == [] then []
    else if s[0] == Wildcard then StripWildcards(s[1..])
    else [s[0]] + StripWildcards(s[1..])
  }

  /** Stripping works piece by piece: the kept characters of `a + b` are those
      of `a` followed by those of `b`, so order and repetitions are kept. */
  lemma {:induction false} StripWildcardsAppend(a: string, b: string)
    ensures StripWildcards(a + b) == StripWildcards(a) + StripWildcards(b)
    decreases |a|
  {
    if a == [] {
      assert a + b == b;
    } else {
      StripWildcardsAppend(a[1..], b);
      assert (a + b)[1..] == a[1..] + b;
    }
  }

  /** Stripping keeps every other character as many times as it occurs. */
  lemma {:induction false} StripWildcardsCounts(s: string)
    ensures multiset(StripWildcards(s)) == multiset(s)[Wildcard := 0]
  {
    if s != [] {
      StripWildcardsCounts(s[1..]);
      assert s == [s[0]] + s[1..];
    }
  }

  /** On one character, stripping drops a wildcard marker and keeps anything else. */
  lemma StripWildcardsChar(c: char)
    ensures StripWildcards([c]) == if c == Wildcard then [] else [c]
  {
  }

  /** Stripping twice is stripping once. */
  lemma StripWildcardsIdempotent(s: string)
    ensures StripWildcards(StripWildcards(s)) == StripWildcards(s)
  {
  }

  /** A pattern made only of wildcard markers strips to the empty string. */
  lemma {:induction false} OnlyWildcardsStripToEmpty(s: string)
    requires forall k :: 0 <= k < |s| ==> s[k] == Wildcard
    ensures StripWildcards(s) == []
  {
    if s != [] {
      OnlyWildcardsStripToEmpty(s[1..]);
    }
  }

  /** `t` occurs in `s` starting at index `i`. */
  predicate OccursAt(s: string, t: string, i: int)
  {
    0 <= i && i + |t| <= |s| && s[i..i + |t|] == t
  }

  /** `s.contains(t)`: `t` occurs in `s` as a contiguous block. */
  predicate Contains(s: string, t: string)
    ensures t == [] ==> Contains(s, t)
  {
    assert t == [] ==> OccursAt(s, t, 0);
    exists i :: 0 <= i <= |s| - |t| && OccursAt(s, t, i)
  }

  /** `s.startsWith(t)`. */
  predicate StartsWith(s: string, t: string)
  {
    |t| <= |s| && s[..|t|] == t
  }

  /** A reference definition of `contains`: `t` starts `s` or occurs in its tail. */
  predicate ContainsRec(s: string, t: string)
    decreases |s|
  {
    StartsWith(s, t) || (s != [] && ContainsRec(s[1..], t))
  }

  /** The two definitions of `contains` agree on every input. */
  lemma {:induction false} ContainsAgrees(s: string, t: string)
    ensures Contains(s, t) <==> ContainsRec(s, t)
    decreases |s|
  {
    if s != [] {
      ContainsAgrees(s[1..], t);
      if Contains(s, t) && !StartsWith(s, t) {
        var i :| 0 <= i <= |s| - |t| && OccursAt(s, t, i);
        assert i != 0;
        assert s[1..][i - 1..i - 1 + |t|] == t;
        assert OccursAt(s[1..], t, i - 1);
      }
      if ContainsRec(s[1..], t) {
        var i :| 0 <= i <= |s| - 1 - |t| && OccursAt(s[1..], t, i);
        assert s[i + 1..i + 1 + |t|] == s[1..][i..i + |t|];
        assert OccursAt(s, t, i + 1);
      }
    }
    if StartsWith(s, t) {
      assert OccursAt(s, t, 0);
    }
  }

  /** Every string contains the empty string, so an empty pattern filters nothing out. */
  lemma ContainsEmpty(s: string)
    ensures Contains(s, [])
  {
  }

  /** Every string that starts with `t` contains it. */
  lemma ContainsPrefix(s: string, t: string)
    requires StartsWith(s, t)
    ensures Contains(s, t)
  {
    assert OccursAt(s, t, 0);
  }
}
