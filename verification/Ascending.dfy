/** Sequences in ascending order of a number each element carries. */
module Ascending {

  ghost predicate Ascends<T>(s: seq<T>, key: T -> int) {
    forall i, j :: 0 <= i < j < |s| ==> key(s[i]) < key(s[j])
  }

  lemma SameEmptiness<T>(a: seq<T>, b: seq<T>)
    requires forall x :: x in a <==> x in b
    ensures a == [] <==> b == []
  {
    if a != [] { assert a[0] in b; }
    if b != [] { assert b[0] in a; }
  }

  lemma OnlyFirst<T>(a: seq<T>, key: T -> int)
    requires a != [] && Ascends(a, key)
    ensures forall x :: x in a[1..] <==> x in a && x != a[0]
  {
    assert a == [a[0]] + a[1..];
  }

  /** Two ascending sequences with the same elements are one sequence. */
  lemma {:induction false} AscendingUnique<T>(a: seq<T>, b: seq<T>, key: T -> int)
    requires Ascends(a, key) && Ascends(b, key) && forall x :: x in a <==> x in b
    ensures a == b
  {
    SameEmptiness(a, b);
    if a != [] {
      assert a[0] in b && b[0] in a;
      assert a[0] == b[0];
      OnlyFirst(a, key);
      OnlyFirst(b, key);
      AscendingUnique(a[1..], b[1..], key);
    }
  }
}
