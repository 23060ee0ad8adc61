/** Ruby's Array#- on sequences, and the facts the update pass relies on. */
module Sequences {
  /**
   * `s - t` in Ruby: every element of s that does not occur in t, in the
   * order it has in s (all occurrences are dropped, not just one).
   */
  function Difference<T(==)>(s: seq<T>, t: seq<T>): (r: seq<T>)
    ensures |r| <= |s|
    ensures forall x :: x in r ==> x in s && x !in t
    ensures forall x :: x in s && x !in t ==> x in r
  {
    if s == [] then []
    else
      var init, last := s[..|s| - 1], s[|s| - 1];
      assert s == init + [last];
      if last in t then Difference(init, t) else Difference(init, t) + [last]
  }

  /** Subtracting nothing gives the sequence back unchanged. */
  lemma {:induction false} DifferenceOfNothing<T>(s: seq<T>)
    ensures Difference(s, []) == s
  {
    if s != [] {
      DifferenceOfNothing(s[..|s| - 1]);
    }
  }

  /**
   * Difference is applied piecewise: whatever survives of a prefix comes
   * before whatever survives of the rest, so relative order is kept.
   */
  lemma {:induction false} DifferenceConcat<T>(s1: seq<T>, s2: seq<T>, t: seq<T>)
    ensures Difference(s1 + s2, t) == Difference(s1, t) + Difference(s2, t)
  {
    if s2 == [] {
      assert s1 + s2 == s1;
    } else {
      var init := s2[..|s2| - 1];
      assert (s1 + s2)[..|s1 + s2| - 1] == s1 + init;
      DifferenceConcat(s1, init, t);
    }
  }

  /** A single element survives exactly when it does not occur in t. */
  lemma DifferenceSingleton<T>(x: T, t: seq<T>)
    ensures Difference([x], t) == if x in t then [] else [x]
  {
    assert [x][..0] == [];
  }
}
