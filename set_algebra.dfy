/**
 * The native set operations that the persistent wrapper delegates to.
 *
 * An iterable argument is a `seq<T>` (its order and repetitions do not
 * matter to a set); the variadic `*others` of `union`, `update`,
 * `intersection`, `difference` and their in-place forms is a `seq<seq<T>>`,
 * folded left to right over the receiver's elements, one argument at a time.
 */
module SetAlgebra {

  /** The set of elements an iterable yields; duplicates collapse. */
  function Elements<T(==)>(xs: seq<T>): (s: set<T>) {
    set x | x in xs
  }

  /** No element occurs twice. */
  predicate Distinct<T(==)>(xs: seq<T>) {
    forall i, j :: 0 <= i < j < |xs| ==> xs[i] != xs[j]
  }

  /** `x` is yielded by at least one of the iterables. */
  ghost predicate InSome<T>(x: T, others: seq<seq<T>>) {
    exists i :: 0 <= i < |others| && x in others[i]
  }

  /** `x` is yielded by every one of the iterables. */
  ghost predicate InAll<T>(x: T, others: seq<seq<T>>) {
    forall i :: 0 <= i < |others| ==> x in others[i]
  }

  /** `s` after adding, one argument at a time, the elements of each iterable. */
  function UnionWith<T(==)>(s: set<T>, others: seq<seq<T>>): (r: set<T>)
    decreases |others|
  {
    if others == [] then s else UnionWith(s + Elements(others[0]), others[1..])
  }

  /** `s` after keeping, one argument at a time, only the elements each iterable yields. */
  function IntersectWith<T(==)>(s: set<T>, others: seq<seq<T>>): (r: set<T>)
    decreases |others|
  {
    if others == [] then s else IntersectWith(s * Elements(others[0]), others[1..])
  }

  /** `s` after removing, one argument at a time, the elements of each iterable. */
  function DifferenceWith<T(==)>(s: set<T>, others: seq<seq<T>>): (r: set<T>)
    decreases |others|
  {
    if others == [] then s else DifferenceWith(s - Elements(others[0]), others[1..])
  }

  lemma InSomeSplit<T>(x: T, others: seq<seq<T>>)
    requires others != []
    ensures InSome(x, others) <==> x in others[0] || InSome(x, others[1..])
  {
  }

  lemma InAllSplit<T>(x: T, others: seq<seq<T>>)
    requires others != []
    ensures InAll(x, others) <==> x in others[0] && InAll(x, others[1..])
  {
  }

  /** An element is in the union exactly when the receiver or some argument has it. */
  lemma {:induction false} UnionWithMembers<T>(s: set<T>, others: seq<seq<T>>, x: T)
    ensures x in UnionWith(s, others) <==> x in s || InSome(x, others)
    decreases |others|
  {
    if others != [] {
      UnionWithMembers(s + Elements(others[0]), others[1..], x);
      InSomeSplit(x, others);
    }
  }

  /** An element is in the intersection exactly when the receiver and every argument have it. */
  lemma {:induction false} IntersectWithMembers<T>(s: set<T>, others: seq<seq<T>>, x: T)
    ensures x in IntersectWith(s, others) <==> x in s && InAll(x, others)
    decreases |others|
  {
    if others != [] {
      IntersectWithMembers(s * Elements(others[0]), others[1..], x);
      InAllSplit(x, others);
    }
  }

  /** An element is in the difference exactly when the receiver has it and no argument does. */
  lemma {:induction false} DifferenceWithMembers<T>(s: set<T>, others: seq<seq<T>>, x: T)
    ensures x in DifferenceWith(s, others) <==> x in s && !InSome(x, others)
    decreases |others|
  {
    if others != [] {
      DifferenceWithMembers(s - Elements(others[0]), others[1..], x);
      InSomeSplit(x, others);
    }
  }

  /** Removing the arguments one at a time removes their union at once. */
  lemma {:induction false} DifferenceIsUnionRemoved<T(!new)>(s: set<T>, others: seq<seq<T>>)
    ensures DifferenceWith(s, others) == s - UnionWith({}, others)
  {
    var d, u := DifferenceWith(s, others), UnionWith({}, others);
    forall x ensures x in d <==> x in s && x !in u {
      DifferenceWithMembers(s, others, x);
      UnionWithMembers({}, others, x);
    }
    assert d == s - u;
  }
}
