/** Small datatypes and sequence notions shared by the whole model. */
module Basics {

  /** Process identifiers are unsigned 32-bit numbers. */
  type Pid = x: nat | x < 0x1_0000_0000

  datatype Option<+T> = None | Some(value: T) {
    function GetOr(default: T): T {
      match this
      case Some(v) => v
      case None => default
    }
  }

  ghost predicate NoDuplicates<T>(s: seq<T>) {
    forall i, j :: 0 <= i < j < |s| ==> s[i] != s[j]
  }

  /** `s` lists every element of `xs` exactly once. */
  ghost predicate Enumerates<T(!new)>(s: seq<T>, xs: set<T>) {
    && NoDuplicates(s)
    && (forall x :: x in xs <==> x in s)
  }

  ghost function Elements<T(!new)>(s: seq<T>): (r: set<T>)
    ensures forall x :: x in r <==> x in s
  {
    set x | x in s
  }

  lemma {:induction false} DistinctCardinality<T(!new)>(s: seq<T>)
    requires NoDuplicates(s)
    ensures |Elements(s)| == |s|
  {
    if |s| > 0 {
      var init, last := s[..|s| - 1], s[|s| - 1];
      DistinctCardinality(init);
      assert s == init + [last];
      assert Elements(s) == Elements(init) + {last};
      assert last !in init;
    }
  }

  lemma SubsetCardinality<T(!new)>(a: set<T>, b: set<T>)
    requires a <= b
    ensures |a| <= |b|
  {
    assert b == a + (b - a);
  }

  /** A list without duplicates over `xs` is at most as long as `xs` is large. */
  lemma DistinctLength<T(!new)>(s: seq<T>, xs: set<T>)
    requires NoDuplicates(s) && forall x :: x in s ==> x in xs
    ensures |s| <= |xs|
  {
    DistinctCardinality(s);
    SubsetCardinality(Elements(s), xs);
  }
}
