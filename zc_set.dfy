/**
 * The persistent set `zc.set.Set`: a wrapper around a native set (`data`,
 * the source's `_data`) that raises a "changed" flag (`dirty`, the source's
 * `_p_changed`) after every in-place mutation, so that a persistence manager
 * outside this model knows to write the object back.
 *
 * Every operation falls in one of six wrapper shapes:
 *   - plain delegation (membership, size, iteration): functions and Iter;
 *   - stripping comparison (==, !=, <, <=, >, >=, issubset, issuperset):
 *     functions over an Operand, a wrapped operand compared by its data;
 *   - persistent output (union, intersection, difference,
 *     symmetric_difference): methods that allocate a fresh Set;
 *   - stripping persistent output (&, |, -, ^ and their reflected forms):
 *     methods that strip the operand, then allocate a fresh Set;
 *   - mutating (add, clear, discard, remove, pop and the four *_update):
 *     methods that change data and then raise dirty;
 *   - mutating stripping (&=, |=, -=, ^=): methods that strip the operand,
 *     change data, raise dirty and return the receiver itself.
 *
 * Element types are limited to reference-free values (`T(==,!new)`): the
 * membership-based contracts quantify over all elements, which Dafny allows
 * only for such types.
 */
module ZcSet {
  import opened SetAlgebra

  /** The KeyError a native set raises: a missing element, or popping an empty set. */
  datatype Error<T> = MissingKey(key: T) | PopFromEmpty

  /** An operation that returns nothing, or raises. */
  datatype Outcome<T> = Pass | Fail(error: Error<T>)

  /** An operation that returns a value, or raises. */
  datatype Result<T> = Ok(value: T) | Err(error: Error<T>)

  /** The right operand of an operator or comparison: a native set, or another Set. */
  datatype Operand<T(==,!new)> = Raw(elems: set<T>) | Wrapped(inst: Set<T>)
  {
    /** The objects whose fields stripping reads. */
    function Objects(): (objs: set<object>) {
      if Wrapped? then {inst} else {}
    }
  }

  /** `if isinstance(other, self.__class__): other = other._data`: a wrapped operand stands for its backing set, a native one for itself. */
  function Strip<T(==,!new)>(o: Operand<T>): (s: set<T>)
    reads o.Objects()
    ensures o.Wrapped? ==> s == o.inst.data
    ensures o.Raw? ==> s == o.elems
  {
    match o
    case Raw(elems) => elems
    case Wrapped(inst) => inst.data
  }

  class Set<T(==,!new)> {
    var data: set<T>
    var dirty: bool

    /** `Set(iterable)`: a fresh, clean set of the iterable's elements. */
    constructor (iterable: seq<T>)
      ensures forall x :: x in data <==> x in iterable
      ensures !dirty
    {
      data := Elements(iterable);
      dirty := false;
    }

    // ---- plain delegation ----

    /** `x in s` */
    function Contains(x: T): (b: bool)
      reads this
      ensures b <==> x in data
    {
      x in data
    }

    /** `len(s)` */
    function Len(): (n: nat)
      reads this
      ensures n == |data|
      ensures n == 0 <==> data == {}
    {
      |data|
    }

    /** `iter(s)`, as the sequence it yields: each member once, in some order. */
    method Iter() returns (xs: seq<T>)
      ensures Distinct(xs)
      ensures forall x :: x in xs <==> Contains(x)
      ensures |xs| == Len()
    {
      xs := [];
      var rest := data;
      while rest != {}
        invariant rest <= data
        invariant forall x :: x in xs <==> x in data && x !in rest
        invariant Distinct(xs)
        invariant |xs| + |rest| == |data|
        decreases |rest|
      {
        var x :| x in rest;
        xs := xs + [x];
        rest := rest - {x};
      }
    }

    // ---- stripping comparison ----

    /** `s == other` */
    function Eq(other: Operand<T>): (b: bool)
      reads this, other.Objects()
      ensures b <==> (forall x :: x in data <==> x in Strip(other))
    {
      data == Strip(other)
    }

    /** `s != other` */
    function Ne(other: Operand<T>): (b: bool)
      reads this, other.Objects()
      ensures b <==> exists x :: (x in data) != (x in Strip(other))
    {
      data != Strip(other)
    }

    /** `s <= other` */
    function Le(other: Operand<T>): (b: bool)
      reads this, other.Objects()
      ensures b <==> forall x :: x in data ==> x in Strip(other)
    {
      data <= Strip(other)
    }

    /** `s < other`: a subset that misses something the operand has. */
    function Lt(other: Operand<T>): (b: bool)
      reads this, other.Objects()
      ensures b <==> ((forall x :: x in data ==> x in Strip(other)) &&
                      (exists x :: x in Strip(other) && x !in data))
    {
      data < Strip(other)
    }

    /** `s >= other` */
    function Ge(other: Operand<T>): (b: bool)
      reads this, other.Objects()
      ensures b <==> forall x :: x in Strip(other) ==> x in data
    {
      data >= Strip(other)
    }

    /** `s > other`: a superset that has something the operand misses. */
    function Gt(other: Operand<T>): (b: bool)
      reads this, other.Objects()
      ensures b <==> ((forall x :: x in Strip(other) ==> x in data) &&
                      (exists x :: x in data && x !in Strip(other)))
    {
      data > Strip(other)
    }

    /** `s.issubset(other)`: the same test as `<=`. */
    function IsSubset(other: Operand<T>): (b: bool)
      reads this, other.Objects()
      ensures b <==> forall x :: x in data ==> x in Strip(other)
    {
      Le(other)
    }

    /** `s.issuperset(other)`: the same test as `>=`. */
    function IsSuperset(other: Operand<T>): (b: bool)
      reads this, other.Objects()
      ensures b <==> forall x :: x in Strip(other) ==> x in data
    {
      Ge(other)
    }

    // ---- persistent output: a fresh Set, the receiver untouched ----

    /** `s.union(*others)` */
    method Union(others: seq<seq<T>>) returns (r: Set<T>)
      ensures fresh(r) && !r.dirty
      ensures forall x :: x in r.data <==> x in data || InSome(x, others)
    {
      var res := UnionWith(data, others);
      r := new Set([]);
      r.data := res;
      forall x ensures x in r.data <==> x in data || InSome(x, others) {
        UnionWithMembers(data, others, x);
      }
    }

    /** `s.intersection(*others)` */
    method Intersection(others: seq<seq<T>>) returns (r: Set<T>)
      ensures fresh(r) && !r.dirty
      ensures forall x :: x in r.data <==> x in data && InAll(x, others)
    {
      var res := IntersectWith(data, others);
      r := new Set([]);
      r.data := res;
      forall x ensures x in r.data <==> x in data && InAll(x, others) {
        IntersectWithMembers(data, others, x);
      }
    }

    /** `s.difference(*others)` */
    method Difference(others: seq<seq<T>>) returns (r: Set<T>)
      ensures fresh(r) && !r.dirty
      ensures forall x :: x in r.data <==> x in data && !InSome(x, others)
    {
      var res := DifferenceWith(data, others);
      r := new Set([]);
      r.data := res;
      forall x ensures x in r.data <==> x in data && !InSome(x, others) {
        DifferenceWithMembers(data, others, x);
      }
    }

    /** `s.symmetric_difference(other)` */
    method SymmetricDifference(other: seq<T>) returns (r: Set<T>)
      ensures fresh(r) && !r.dirty
      ensures forall x :: x in r.data <==> (x in data) != (x in other)
    {
      var o := Elements(other);
      var res := (data - o) + (o - data);
      r := new Set([]);
      r.data := res;
    }

    /** `s.copy()`: a fresh Set built from iterating the receiver. */
    method Copy() returns (r: Set<T>)
      ensures fresh(r) && !r.dirty
      ensures r.data == data
    {
      var xs := Iter();
      r := new Set(xs);
    }

    // ---- stripping persistent output: operators ----

    /** `s & other` */
    method And(other: Operand<T>) returns (r: Set<T>)
      ensures fresh(r) && !r.dirty
      ensures forall x :: x in r.data <==> x in data && x in Strip(other)
    {
      var res := data * Strip(other);
      r := new Set([]);
      r.data := res;
    }

    /** `s | other` */
    method Or(other: Operand<T>) returns (r: Set<T>)
      ensures fresh(r) && !r.dirty
      ensures forall x :: x in r.data <==> x in data || x in Strip(other)
    {
      var res := data + Strip(other);
      r := new Set([]);
      r.data := res;
    }

    /** `s - other` */
    method Sub(other: Operand<T>) returns (r: Set<T>)
      ensures fresh(r) && !r.dirty
      ensures forall x :: x in r.data <==> x in data && x !in Strip(other)
    {
      var res := data - Strip(other);
      r := new Set([]);
      r.data := res;
    }

    /** `s ^ other` */
    method Xor(other: Operand<T>) returns (r: Set<T>)
      ensures fresh(r) && !r.dirty
      ensures forall x :: x in r.data <==> (x in data) != (x in Strip(other))
    {
      var o := Strip(other);
      var res := (data - o) + (o - data);
      r := new Set([]);
      r.data := res;
    }

    /** `other & s`, called on the right operand */
    method RAnd(other: Operand<T>) returns (r: Set<T>)
      ensures fresh(r) && !r.dirty
      ensures forall x :: x in r.data <==> x in Strip(other) && x in data
    {
      var res := Strip(other) * data;
      r := new Set([]);
      r.data := res;
    }

    /** `other | s`, called on the right operand */
    method ROr(other: Operand<T>) returns (r: Set<T>)
      ensures fresh(r) && !r.dirty
      ensures forall x :: x in r.data <==> x in Strip(other) || x in data
    {
      var res := Strip(other) + data;
      r := new Set([]);
      r.data := res;
    }

    /** `other - s`, called on the right operand */
    method RSub(other: Operand<T>) returns (r: Set<T>)
      ensures fresh(r) && !r.dirty
      ensures forall x :: x in r.data <==> x in Strip(other) && x !in data
    {
      var res := Strip(other) - data;
      r := new Set([]);
      r.data := res;
    }

    /** `other ^ s`, called on the right operand */
    method RXor(other: Operand<T>) returns (r: Set<T>)
      ensures fresh(r) && !r.dirty
      ensures forall x :: x in r.data <==> (x in Strip(other)) != (x in data)
    {
      var o := Strip(other);
      var res := (o - data) + (data - o);
      r := new Set([]);
      r.data := res;
    }

    // ---- mutating: change data, then raise dirty ----

    /** `s.add(x)` */
    method Add(x: T)
      modifies this
      ensures forall y :: y in data <==> y in old(data) || y == x
      ensures dirty
    {
      data := data + {x};
      dirty := true;
    }

    /** `s.clear()` */
    method Clear()
      modifies this
      ensures data == {}
      ensures dirty
    {
      data := {};
      dirty := true;
    }

    /** `s.discard(x)`: raises dirty whether or not `x` was present. */
    method Discard(x: T)
      modifies this
      ensures forall y :: y in data <==> y in old(data) && y != x
      ensures dirty
    {
      data := data - {x};
      dirty := true;
    }

    /** `s.remove(x)`: a missing `x` raises KeyError before dirty is written. */
    method Remove(x: T) returns (o: Outcome<T>)
      modifies this
      ensures o.Pass? <==> x in old(data)
      ensures o.Fail? ==> o.error == MissingKey(x) && data == old(data) && dirty == old(dirty)
      ensures o.Pass? ==> (forall y :: y in data <==> y in old(data) && y != x) && dirty
    {
      if x !in data {
        return Fail(MissingKey(x));
      }
      data := data - {x};
      dirty := true;
      return Pass;
    }

    /** `s.pop()`: some member is removed and returned; an empty set raises KeyError. */
    method Pop() returns (r: Result<T>)
      modifies this
      ensures r.Ok? <==> old(data) != {}
      ensures r.Err? ==> r.error == PopFromEmpty && data == old(data) && dirty == old(dirty)
      ensures r.Ok? ==> r.value in old(data) && r.value !in data
      ensures r.Ok? ==> (forall y :: y in data <==> y in old(data) && y != r.value) && dirty
      ensures r.Ok? ==> |data| == |old(data)| - 1
    {
      if data == {} {
        return Err(PopFromEmpty);
      }
      var x :| x in data;
      data := data - {x};
      dirty := true;
      return Ok(x);
    }

    /** `s.update(*others)` */
    method Update(others: seq<seq<T>>)
      modifies this
      ensures forall x :: x in data <==> x in old(data) || InSome(x, others)
      ensures dirty
    {
      data := UnionWith(data, others);
      dirty := true;
      forall x ensures x in data <==> x in old(data) || InSome(x, others) {
        UnionWithMembers(old(data), others, x);
      }
    }

    /** `s.intersection_update(*others)` */
    method IntersectionUpdate(others: seq<seq<T>>)
      modifies this
      ensures forall x :: x in data <==> x in old(data) && InAll(x, others)
      ensures dirty
    {
      data := IntersectWith(data, others);
      dirty := true;
      forall x ensures x in data <==> x in old(data) && InAll(x, others) {
        IntersectWithMembers(old(data), others, x);
      }
    }

    /** `s.difference_update(*others)` */
    method DifferenceUpdate(others: seq<seq<T>>)
      modifies this
      ensures forall x :: x in data <==> x in old(data) && !InSome(x, others)
      ensures dirty
    {
      data := DifferenceWith(data, others);
      dirty := true;
      forall x ensures x in data <==> x in old(data) && !InSome(x, others) {
        DifferenceWithMembers(old(data), others, x);
      }
    }

    /** `s.symmetric_difference_update(other)` */
    method SymmetricDifferenceUpdate(other: seq<T>)
      modifies this
      ensures forall x :: x in data <==> (x in old(data)) != (x in other)
      ensures dirty
    {
      var o := Elements(other);
      data := (data - o) + (o - data);
      dirty := true;
    }

    // ---- mutating stripping: in-place operators return the receiver ----

    /** `s &= other` */
    method IAnd(other: Operand<T>) returns (r: Set<T>)
      modifies this
      ensures r == this && dirty
      ensures forall x :: x in data <==> x in old(data) && x in old(Strip(other))
    {
      var o := Strip(other);
      data := data * o;
      dirty := true;
      r := this;
    }

    /** `s |= other` */
    method IOr(other: Operand<T>) returns (r: Set<T>)
      modifies this
      ensures r == this && dirty
      ensures forall x :: x in data <==> x in old(data) || x in old(Strip(other))
    {
      var o := Strip(other);
      data := data + o;
      dirty := true;
      r := this;
    }

    /** `s -= other` */
    method ISub(other: Operand<T>) returns (r: Set<T>)
      modifies this
      ensures r == this && dirty
      ensures forall x :: x in data <==> x in old(data) && x !in old(Strip(other))
    {
      var o := Strip(other);
      data := data - o;
      dirty := true;
      r := this;
    }

    /** `s ^= other` */
    method IXor(other: Operand<T>) returns (r: Set<T>)
      modifies this
      ensures r == this && dirty
      ensures forall x :: x in data <==> (x in old(data)) != (x in old(Strip(other)))
    {
      var o := Strip(other);
      data := (data - o) + (o - data);
      dirty := true;
      r := this;
    }
  }

  /** Comparing with a wrapped Set is comparing with its backing set: the wrapper's identity never matters. */
  lemma StrippingIgnoresIdentity<T(!new)>(s: Set<T>, w: Set<T>)
    ensures s.Eq(Wrapped(w)) == s.Eq(Raw(w.data)) && s.Ne(Wrapped(w)) == s.Ne(Raw(w.data))
    ensures s.Le(Wrapped(w)) == s.Le(Raw(w.data)) && s.Lt(Wrapped(w)) == s.Lt(Raw(w.data))
    ensures s.Ge(Wrapped(w)) == s.Ge(Raw(w.data)) && s.Gt(Wrapped(w)) == s.Gt(Raw(w.data))
    ensures s.IsSubset(Wrapped(w)) == s.IsSubset(Raw(w.data))
    ensures s.IsSuperset(Wrapped(w)) == s.IsSuperset(Raw(w.data))
  {
  }

  /** The comparisons are the subset order: `!=` negates `==`, `<` is `<=` but not `==`, and the method names agree with the operators. */
  lemma ComparisonsAreSubsetOrder<T(!new)>(s: Set<T>, other: Operand<T>)
    ensures s.Ne(other) == !s.Eq(other)
    ensures s.Lt(other) <==> s.Le(other) && !s.Eq(other)
    ensures s.Gt(other) <==> s.Ge(other) && !s.Eq(other)
    ensures s.Eq(other) <==> s.Le(other) && s.Ge(other)
    ensures s.IsSubset(other) == s.Le(other) && s.IsSuperset(other) == s.Ge(other)
  {
  }

  /** Every Set equals itself, whoever holds the reference. */
  lemma EqReflexive<T(!new)>(s: Set<T>)
    ensures s.Eq(Wrapped(s)) && s.Le(Wrapped(s)) && !s.Lt(Wrapped(s))
  {
  }

  /** `a <= b` and `b <= a` together make `a == b`. */
  lemma LeAntisymmetric<T(!new)>(a: Set<T>, b: Set<T>)
    requires a.Le(Wrapped(b)) && b.Le(Wrapped(a))
    ensures a.Eq(Wrapped(b))
  {
  }
}
