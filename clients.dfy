/**
 * Callers of the persistent set that rely only on its contracts: what the
 * wrapper shapes let a client conclude about the receiver, the operand, the
 * result and the changed flag.
 */
module ZcSetClients {
  import opened SetAlgebra
  import opened ZcSet

  /** `s.add(e)` makes `e` a member and raises the flag; a later `s.discard(e)` removes it and the flag stays up. */
  method AddThenDiscard<T(==,!new)>(s: Set<T>, e: T)
    modifies s
    ensures !s.Contains(e) && s.dirty
    ensures forall y :: y != e ==> (y in s.data <==> y in old(s.data))
  {
    s.Add(e);
    assert s.Contains(e) && s.dirty;
    s.Discard(e);
  }

  /** `s.copy().copy()` is another, clean object with the same elements, and `s` compares equal to it. */
  method CopyOfCopy<T(==,!new)>(s: Set<T>) returns (d: Set<T>)
    ensures fresh(d) && d != s && !d.dirty
    ensures d.data == s.data && s.Eq(Wrapped(d))
    ensures s.dirty == old(s.dirty)
  {
    var first := s.Copy();
    d := first.Copy();
  }

  /** Mutating a copy of a copy leaves `s` and its flag alone. */
  method CopyIsSnapshot<T(==,!new)>(s: Set<T>, e: T) returns (c: Set<T>)
    ensures fresh(c) && c != s
    ensures s.data == old(s.data) && s.dirty == old(s.dirty)
    ensures e in c.data && c.dirty
    ensures forall y :: y != e ==> (y in c.data <==> y in s.data)
  {
    c := CopyOfCopy(s);
    c.Add(e);
  }

  /** A failed `remove` leaves no trace: same elements, same flag. */
  method RemoveMissing<T(==,!new)>(s: Set<T>, e: T) returns (o: Outcome<T>)
    requires e !in s.data
    modifies s
    ensures o == Fail(MissingKey(e))
    ensures s.data == old(s.data) && s.dirty == old(s.dirty)
  {
    o := s.Remove(e);
  }

  /** `s &= t` hands back the receiver itself, so `s` names the updated set; a distinct `t` is left alone. */
  method InPlaceReturnsReceiver<T(==,!new)>(s: Set<T>, t: Set<T>) returns (r: Set<T>)
    modifies s
    ensures r == s && s.dirty
    ensures forall x :: x in s.data <==> x in old(s.data) && x in old(t.data)
    ensures t != s ==> t.data == old(t.data) && t.dirty == old(t.dirty)
    ensures t == s ==> s.data == old(s.data)
  {
    r := s.IAnd(Wrapped(t));
  }

  /** With a = {1,2,3} and b = {2,3,4}: the four operators, computed without touching either operand, then `a.update([5, 6])`. */
  method OperatorsOnSmallSets() returns (both: set<int>, either: set<int>, onlyA: set<int>, one: set<int>, updated: set<int>)
    ensures both == {2, 3} && either == {1, 2, 3, 4} && onlyA == {1} && one == {1, 4}
    ensures updated == {1, 2, 3, 5, 6}
  {
    var a := new Set([1, 2, 3]);
    var b := new Set([2, 3, 4]);
    var r := a.And(Wrapped(b));
    assert r.data == {2, 3};
    both := r.data;
    r := a.Or(Wrapped(b));
    assert r.data == {1, 2, 3, 4};
    either := r.data;
    r := a.Sub(Wrapped(b));
    assert r.data == {1};
    onlyA := r.data;
    r := a.Xor(Wrapped(b));
    assert r.data == {1, 4};
    one := r.data;
    assert a.data == {1, 2, 3} && !a.dirty && b.data == {2, 3, 4} && !b.dirty;
    var args := [[5, 6]];
    a.Update(args);
    assert 5 in args[0] && 6 in args[0];
    assert a.data == {1, 2, 3, 5, 6};
    updated := a.data;
  }
}
