# zc.set — a persistence-aware set, modelled in Dafny

`zc.set.Set` is a set that a persistence framework (ZODB's `persistent`)
can store. It keeps its elements in a native set, `_data`, and exposes the
whole set protocol. After every in-place mutation it writes
`_p_changed = True`, which tells the persistence manager to write the
object back at commit. The class body generates every method from six
wrapper shapes applied to fixed lists of method names.

This model has three modules:

- `SetAlgebra` (`set_algebra.dfy`): the native set semantics the wrapper
  delegates to. The variadic `union`, `intersection` and `difference` and
  their `_update` forms fold over their arguments one at a time. Lemmas give
  the membership meaning of each fold.
- `ZcSet` (`zc_set.dfy`): the class `Set<T>` with the fields `data` (`_data`)
  and `dirty` (`_p_changed`), one explicit member per generated method, and
  lemmas about the comparisons.
  - The plain and stripping wrappers are functions, so they cannot change
    `data` or `dirty`. `__iter__` is the method `Iter`, which returns the
    sequence the iterator yields.
  - The persistent-output methods have no `modifies` clause, so neither
    the receiver nor a wrapped operand can change. Their result is `fresh`,
    so it never aliases the receiver.
  - The mutating methods `modify this` only. They state the new `data` in
    terms of the old one and say that `dirty` is raised. `remove` and `pop`
    can raise `KeyError`; when they do, `data` and `dirty` are unchanged,
    because the source writes `_p_changed` only after the native call
    returns.
  - The in-place operators return `this`.
  - An operand is an `Operand<T>`: `Raw(set)` for a native set, or
    `Wrapped(Set)` for another persistent set. `Strip` plays the role of the
    source's `isinstance(other, self.__class__)` unwrapping.
- `ZcSetClients` (`clients.dfy`): callers that use only the contracts. They
  cover add then discard, copy independence, a failed remove, an in-place
  operator returning its receiver, and the operators and `update` on
  `{1,2,3}` and `{2,3,4}`.

Modelling choices:

- An iterable argument is a `seq<T>`. A variadic `*others` is a
  `seq<seq<T>>`.
- Element types are limited to reference-free values, `T(==,!new)`. This
  is a restriction of the model, not a rendering of the source (see
  "## Left out").
- A new instance starts with `dirty` false. The only writes to `dirty` are
  the source's explicit `_p_changed = True` lines.

## Model

| member | source | states |
|---|---|---|
| `ZcSet.Set.constructor` | src/zc/set/__init__.py:58-59 | a new Set holds exactly the iterable's elements, duplicates collapsed, and is not marked changed |
| `ZcSet.Set.Contains` | src/zc/set/__init__.py:4-7 | `__contains__` answers membership in the backing set; as a function it changes neither `data` nor `dirty` |
| `ZcSet.Set.Len` | src/zc/set/__init__.py:4-7 | `__len__` is the backing set's size, zero exactly for the empty set, and changes nothing |
| `ZcSet.Set.Iter` | src/zc/set/__init__.py:63-64 | `__iter__` yields every member exactly once and nothing else: no duplicates, membership agrees with `Contains`, the count equals `Len`; the receiver is untouched |
| `ZcSet.Set.Eq` | src/zc/set/__init__.py:49-54 | `==` holds exactly when the receiver and the stripped operand have the same members |
| `ZcSet.Set.Ne` | src/zc/set/__init__.py:49-54 | `!=` holds exactly when some element is in one of them and not the other |
| `ZcSet.Set.Le` | src/zc/set/__init__.py:49-54 | `<=` holds exactly when every member of the receiver is in the stripped operand |
| `ZcSet.Set.Lt` | src/zc/set/__init__.py:49-54 | `<` is `<=` plus an operand member the receiver lacks |
| `ZcSet.Set.Ge` | src/zc/set/__init__.py:49-54 | `>=` holds exactly when every member of the stripped operand is in the receiver |
| `ZcSet.Set.Gt` | src/zc/set/__init__.py:49-54 | `>` is `>=` plus a receiver member the operand lacks |
| `ZcSet.Set.IsSubset` | src/zc/set/__init__.py:66-68 | `issubset` has the membership meaning of `<=` |
| `ZcSet.Set.IsSuperset` | src/zc/set/__init__.py:66-68 | `issuperset` has the membership meaning of `>=` |
| `ZcSet.Strip` | src/zc/set/__init__.py:20-21 | the `isinstance` unwrapping shared by the stripping wrappers (also lines 40-41 and 51-52): a wrapped Set operand stands for its backing set, a native set for itself |
| `ZcSet.StrippingIgnoresIdentity` | src/zc/set/__init__.py:50-53 | every comparison against a wrapped Set gives the same answer as against that Set's backing set; this follows from `Strip` |
| `ZcSet.ComparisonsAreSubsetOrder` | src/zc/set/__init__.py:66-68 | `!=` negates `==`; `<` and `>` are `<=` and `>=` without equality; `==` is `<=` and `>=` together; `issubset`/`issuperset` agree with `<=`/`>=` |
| `ZcSet.EqReflexive` | src/zc/set/__init__.py:49-54 | a Set equals itself and is not a proper subset of itself |
| `ZcSet.LeAntisymmetric` | src/zc/set/__init__.py:49-54 | two Sets that are mutual subsets compare equal |
| `SetAlgebra.UnionWithMembers` | src/zc/set/__init__.py:70-72 | an element is in the folded union exactly when the receiver or some argument has it |
| `SetAlgebra.IntersectWithMembers` | src/zc/set/__init__.py:70-72 | an element is in the folded intersection exactly when the receiver and every argument have it |
| `SetAlgebra.DifferenceWithMembers` | src/zc/set/__init__.py:70-72 | an element is in the folded difference exactly when the receiver has it and no argument does |
| `SetAlgebra.DifferenceIsUnionRemoved` | src/zc/set/__init__.py:70-72 | removing the arguments one at a time equals removing their union at once |
| `ZcSet.Set.Union` | src/zc/set/__init__.py:29-35 | `union(*others)` returns a fresh, clean Set of the elements in the receiver or in some argument; the receiver is not modified |
| `ZcSet.Set.Intersection` | src/zc/set/__init__.py:29-35 | `intersection(*others)` returns a fresh, clean Set of the elements in the receiver and in every argument; the receiver is not modified |
| `ZcSet.Set.Difference` | src/zc/set/__init__.py:29-35 | `difference(*others)` returns a fresh, clean Set of the receiver's elements that are in no argument; the receiver is not modified |
| `ZcSet.Set.SymmetricDifference` | src/zc/set/__init__.py:29-35 | `symmetric_difference(other)` returns a fresh, clean Set of the elements in exactly one of the two; the receiver is not modified |
| `ZcSet.Set.Copy` | src/zc/set/__init__.py:86-87 | `copy()` returns a fresh, clean Set, a different object with the same elements, built by iterating the receiver; the receiver and its flag are untouched |
| `ZcSet.Set.And` | src/zc/set/__init__.py:38-46 | `s & t` returns a fresh Set of the common elements of `s` and the stripped `t`; neither operand is modified |
| `ZcSet.Set.Or` | src/zc/set/__init__.py:38-46 | `s.__or__(t)` returns a fresh Set of the elements in either operand; neither operand is modified |
| `ZcSet.Set.Sub` | src/zc/set/__init__.py:38-46 | `s - t` returns a fresh Set of the elements of `s` not in `t`; neither operand is modified |
| `ZcSet.Set.Xor` | src/zc/set/__init__.py:38-46 | `s ^ t` returns a fresh Set of the elements in exactly one operand; neither operand is modified |
| `ZcSet.Set.RAnd` | src/zc/set/__init__.py:38-46 | `s.__rand__(t)` returns a fresh Set of the elements of `t & s` |
| `ZcSet.Set.ROr` | src/zc/set/__init__.py:38-46 | `s.__ror__(t)` returns a fresh Set of the union of `t` and `s` |
| `ZcSet.Set.RSub` | src/zc/set/__init__.py:38-46 | `s.__rsub__(t)` returns a fresh Set of the elements of `t - s` (operand first) |
| `ZcSet.Set.RXor` | src/zc/set/__init__.py:38-46 | `s.__rxor__(t)` returns a fresh Set of the elements of `t ^ s` |
| `ZcSet.Set.Add` | src/zc/set/__init__.py:10-15 | `add(x)` makes the members the old ones plus `x` and raises the flag |
| `ZcSet.Set.Clear` | src/zc/set/__init__.py:10-15 | `clear()` empties the set and raises the flag |
| `ZcSet.Set.Discard` | src/zc/set/__init__.py:10-15 | `discard(x)` removes `x` and raises the flag even when `x` was absent |
| `ZcSet.Set.Remove` | src/zc/set/__init__.py:10-15 | `remove(x)` succeeds exactly when `x` was a member; on success `x` is gone and the flag is raised; on KeyError the elements and the flag are as before |
| `ZcSet.Set.Pop` | src/zc/set/__init__.py:10-15 | `pop()` succeeds exactly on a non-empty set, returns a former member, removes only it (size drops by one) and raises the flag; on an empty set it raises KeyError and leaves elements and flag as before |
| `ZcSet.Set.Update` | src/zc/set/__init__.py:10-15 | `update(*others)` makes the members the old ones plus those of every argument, and raises the flag |
| `ZcSet.Set.IntersectionUpdate` | src/zc/set/__init__.py:10-15 | `intersection_update(*others)` keeps the old members that every argument has, and raises the flag |
| `ZcSet.Set.DifferenceUpdate` | src/zc/set/__init__.py:10-15 | `difference_update(*others)` keeps the old members that no argument has, and raises the flag |
| `ZcSet.Set.SymmetricDifferenceUpdate` | src/zc/set/__init__.py:10-15 | `symmetric_difference_update(other)` keeps the elements in exactly one of the old set and the argument, and raises the flag |
| `ZcSet.Set.IAnd` | src/zc/set/__init__.py:18-26 | `s &= t` sets the members to those of the old `s` that the stripped `t` had, raises the flag and returns the receiver itself |
| `ZcSet.Set.IOr` | src/zc/set/__init__.py:18-26 | `s.__ior__(t)` adds the stripped `t`'s members in place, raises the flag and returns the receiver itself |
| `ZcSet.Set.ISub` | src/zc/set/__init__.py:18-26 | `s -= t` removes the stripped `t`'s members in place, raises the flag and returns the receiver itself |
| `ZcSet.Set.IXor` | src/zc/set/__init__.py:18-26 | `s ^= t` keeps the elements in exactly one of the old `s` and `t`, raises the flag and returns the receiver itself |
| `ZcSetClients.AddThenDiscard` | src/zc/set/__init__.py:78-81 | after `add(e)` then `discard(e)`, `e` is not a member, the flag is up, and every other element is as before |
| `ZcSetClients.CopyOfCopy` | src/zc/set/__init__.py:86-87 | `s.copy().copy()` is a different, clean object with the same elements, `s` compares equal to it, and the flag of `s` is unchanged |
| `ZcSetClients.CopyIsSnapshot` | src/zc/set/__init__.py:86-87 | adding an element to `s.copy().copy()` leaves `s` and its flag unchanged; the copy holds the element and is marked changed |
| `ZcSetClients.RemoveMissing` | src/zc/set/__init__.py:12-13 | removing an absent element fails with KeyError and changes neither the elements nor the flag |
| `ZcSetClients.InPlaceReturnsReceiver` | src/zc/set/__init__.py:18-26 | `s &= t` returns `s` itself, updated to the intersection with the old `t`; a distinct `t` is not touched |
| `ZcSetClients.OperatorsOnSmallSets` | src/zc/set/__init__.py:74-76 | on `{1,2,3}` and `{2,3,4}`: `&` is `{2,3}`, `__or__` is `{1,2,3,4}`, `-` is `{1}`, `^` is `{1,4}`, and then `update([5, 6])` gives `{1,2,3,5,6}`; that both operands stay the same and clean in between is asserted in the body, not in the contract |

## Left out

- The persistence framework (`persistent.Persistent`: jar, OID, commit). `_p_changed` is modelled only as the boolean field `dirty`. The framework's own change tracking on attribute assignment is not modelled. For example, `inst._data = res` marks an attached object changed, but a fresh instance has no jar.
- `__hash__ = None`: Dafny has no hashing protocol, so unhashability is not modelled.
- Element types: elements are limited to reference-free types (`T(==,!new)`). Python's `set(iterable)` accepts any hashable object, including objects hashed by identity such as other persistent objects; those are not covered. The bound is needed because the membership-quantified contracts (for example those of `Eq` and `Ne`) and the set-equality step of `DifferenceIsUnionRemoved` may quantify only over such types.
- `__repr__`: it slices `repr(set)` with `[3:]`. That assumes Python 2's `set([...])` form and mangles Python 3's `{...}`, so it has no sound contract.
- `__cmp__` in the plain-delegation list: Python 3 sets have no such method, so the generated wrapper always fails.
- `isdisjoint`: the source lists it among the persistent-output names, so it returns a new Set whose `_data` is a boolean. That value does not fit a `set<T>` field, so the operation is not modelled.
- Operands that are neither a `set`, a `frozenset` nor a Set, given to the operators and in-place operators: the native method returns `NotImplemented`. The persistent-output wrappers then store it as `_data`. The in-place wrappers ignore it, still raise the flag and return the receiver. Operands are restricted to native mutable sets and Sets; `Raw` stands for a mutable `set` only.
- ZcSet.Set.RAnd, ZcSet.Set.ROr, ZcSet.Set.RSub, ZcSet.Set.RXor: a `frozenset` operand is not modelled. A mixed set/frozenset operation takes the type of its left operand, so `frozenset({1}) | Set([2])` reaches `Set.__ror__` and yields a Set whose `_data` is a `frozenset`. That Set's mutating methods (`add`, `discard`, `update`, `|=`, …) then raise `AttributeError`. In the model the result is always backed by a mutable set, which these four contracts cannot express.
- ZcSet.Set.DifferenceUpdate: passing the receiver itself as an argument is not modelled. `difference_update` is a plain mutating wrapper and does not strip its operand, so `s.difference_update(s)` makes the native set iterate `s._data` while discarding from it. The native iterator raises `RuntimeError` (set changed size during iteration) after the first removal, so one element is gone and `_p_changed` is never written. A plain `set` recognises itself and clears. The model takes iterables as snapshot sequences, so `s.DifferenceUpdate([s.Iter()])` empties the set and raises `dirty`. That is the native-set behaviour, not this half-done failure, which breaks the rule that a failed mutation leaves no trace. The other `*_update` methods and `-=` are not affected: the native set copies or only reads the argument, and `-=` strips it first.
- Other errors from the native set are not modelled: a non-iterable argument, or an unhashable element. For example, `update` can fail with `TypeError` on an unhashable element after adding earlier ones, leaving `data` changed but `dirty` not raised.
- The iterator is modelled as the sequence it yields, taken as a snapshot. Python's error on mutation during iteration is not modelled.
- Comparisons with a non-set operand are not modelled. Python's `==` returns `NotImplemented`, and `issubset`/`issuperset` accept any iterable. The model accepts only a native set or a Set, which carries the same elements.
- `setup.py` (packaging) and `src/zc/set/tests.py` (a doctest harness over a README that is not part of this model).
