/**
 * The path-constraint list of a node: a list that is extended in place and
 * carries a cached feasibility flag, which every mutation clears.
 */
module Constraints {
  import opened Wrappers
  import opened Smt

  class Constraints {
    /** The constraints, in the order they were added (the list itself). */
    var items: seq<Cond>
    /** `_is_possible`: the cached feasibility, `None` when not yet known. */
    var isPossibleCache: Option<bool>
    /** `_default_timeout`, the solver timeout used by `IsPossible`. */
    const defaultTimeout: nat

    /** The cache, when set, holds the answer `check` gives for the current list. */
    ghost predicate CacheSound(check: CheckOracle)
      reads this
    {
      isPossibleCache.Some? ==> isPossibleCache.value == (check(items) != Unsat)
    }

    /** `Constraints(constraint_list, is_possible)`; a missing list is the empty list. */
    constructor (constraintList: Option<seq<Cond>>, isPossible: Option<bool>)
      ensures items == constraintList.GetOr([])
      ensures isPossibleCache == isPossible
      ensures defaultTimeout == 100
    {
      items := constraintList.GetOr([]);
      isPossibleCache := isPossible;
      defaultTimeout := 100;
    }

    /**
     * `is_possible`: the cached answer when there is one; otherwise asks the
     * solver once and caches the answer. Anything but `unsat` (a timeout
     * included) counts as possible.
     */
    method IsPossible(check: CheckOracle) returns (r: bool)
      modifies this
      ensures items == old(items)
      ensures old(isPossibleCache).Some? ==> r == old(isPossibleCache).value && isPossibleCache == old(isPossibleCache)
      ensures old(isPossibleCache).None? ==> r == (check(items) != Unsat) && isPossibleCache == Some(r)
      ensures old(CacheSound(check)) ==> r == (check(items) != Unsat) && CacheSound(check)
    {
      if isPossibleCache.Some? {
        return isPossibleCache.value;
      }
      var answer := check(items);
      r := answer != Unsat;
      isPossibleCache := Some(r);
    }

    /** `append`: adds at the end and clears the cache. */
    method Append(constraint: Cond)
      modifies this
      ensures items == old(items) + [constraint]
      ensures isPossibleCache == None
      ensures forall check :: CacheSound(check)
    {
      items := items + [constraint];
      isPossibleCache := None;
    }

    /** `pop`: removing a constraint is not supported; the list is left as it is. */
    method Pop(index: int) returns (r: Outcome)
      ensures r == Fail(NotImplementedError)
    {
      r := Fail(NotImplementedError);
    }

    /** `as_list`: a copy of the constraints. */
    method AsList() returns (r: seq<Cond>)
      ensures r == items
    {
      r := items;
    }

    /** `__copy__` (and `__deepcopy__`, which calls it): a new list, same elements, same cache. */
    method Copy() returns (c: Constraints)
      ensures fresh(c)
      ensures c.items == items && c.isPossibleCache == isPossibleCache
      ensures forall check :: CacheSound(check) ==> c.CacheSound(check)
    {
      c := new Constraints(Some(items), isPossibleCache);
    }

    /** `self + constraints`: a new list with no cached answer; this one is unchanged. */
    method Add(more: seq<Cond>) returns (c: Constraints)
      ensures fresh(c)
      ensures c.items == items + more && c.isPossibleCache == None
    {
      c := new Constraints(Some(items + more), None);
    }

    /** `self += constraints`: extends this list in place, clears the cache and returns it. */
    method IAdd(more: seq<Cond>) returns (c: Constraints)
      modifies this
      ensures c == this
      ensures items == old(items) + more && isPossibleCache == None
    {
      items := items + more;
      isPossibleCache := None;
      c := this;
    }
  }
}
