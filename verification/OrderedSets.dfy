/** JavaScript sets, which iterate in insertion order, as sequences without repetition. */
module OrderedSets {

  ghost predicate Distinct<T>(s: seq<T>) {
    forall i, j :: 0 <= i < j < |s| ==> s[i] != s[j]
  }

  function Add<T(==)>(s: seq<T>, x: T): seq<T> {
    if x in s then s else s + [x]
  }

  function AddAll<T(==)>(s: seq<T>, xs: seq<T>): seq<T>
    decreases |xs|
  {
    if xs == [] then s else AddAll(Add(s, xs[0]), xs[1..])
  }

  /** The set grows at its end, holds what was in either operand, and never repeats. */
  lemma {:induction false} AddAllIsUnion<T(!new)>(s: seq<T>, xs: seq<T>)
    ensures s <= AddAll(s, xs)
    ensures Distinct(s) ==> Distinct(AddAll(s, xs))
    ensures forall y :: y in AddAll(s, xs) <==> y in s || y in xs
    ensures |AddAll(s, xs)| <= |s| + |xs|
    decreases |xs|
  {
    if xs != [] {
      AddAllIsUnion(Add(s, xs[0]), xs[1..]);
    }
  }

  /** Adding what is already present changes nothing. */
  lemma {:induction false} AddAllPresent<T>(s: seq<T>, xs: seq<T>)
    requires forall x :: x in xs ==> x in s
    ensures AddAll(s, xs) == s
    decreases |xs|
  {
    if xs != [] {
      AddAllPresent(s, xs[1..]);
    }
  }

  /** Copying a set into a new one keeps its iteration order. */
  lemma {:induction false} AddAllDistinct<T>(s: seq<T>, xs: seq<T>)
    requires Distinct(s + xs)
    ensures AddAll(s, xs) == s + xs
    decreases |xs|
  {
    if xs == [] {
      assert s + xs == s;
    } else {
      forall i | 0 <= i < |s|
        ensures s[i] != xs[0]
      {
        assert s[i] == (s + xs)[i] != (s + xs)[|s|];
      }
      assert (s + [xs[0]]) + xs[1..] == s + xs;
      AddAllDistinct(s + [xs[0]], xs[1..]);
    }
  }
}
