/**
 * `CSet` and `CSetWithDelete` of src/ch_5_classes.ts: a set of numbers kept as the
 * keys of a `Map<number, boolean>` whose values are always `true`, with chainable
 * `add` and (in the derived class) `delete`, both of which return the set itself.
 */
module ChainableSet {

  /** The map after `add(value)`: an entry is created only when the key is absent. */
  function Insert(members: map<int, bool>, value: int): (r: map<int, bool>)
    ensures r.Keys == members.Keys + {value}
    ensures forall k :: k in members ==> r[k] == members[k]
    ensures value !in members ==> r[value]
    ensures value in members ==> r == members
  {
    if value in members then members else members[value := true]
  }

  /** The map after `delete(value)`: the entry is removed only when the key is present. */
  function Remove(members: map<int, bool>, value: int): (r: map<int, bool>)
    ensures r.Keys == members.Keys - {value}
    ensures forall k :: k in r ==> r[k] == members[k]
    ensures value !in members ==> r == members
  {
    if value in members then members - {value} else members
  }

  /** Adding twice is adding once. */
  lemma InsertIdempotent(members: map<int, bool>, value: int)
    ensures Insert(Insert(members, value), value) == Insert(members, value)
  {
  }

  /** Deleting twice is deleting once. */
  lemma RemoveIdempotent(members: map<int, bool>, value: int)
    ensures Remove(Remove(members, value), value) == Remove(members, value)
  {
  }

  /** Deleting a value just added restores a map that did not hold it. */
  lemma RemoveUndoesInsert(members: map<int, bool>, value: int)
    requires value !in members
    ensures Remove(Insert(members, value), value) == members
  {
  }

  /** `CSet`, or `CSetWithDelete` when `canDelete` holds. */
  class NumberSet {
    var members: map<int, bool>
    /** True for a `CSetWithDelete`, the only variant that offers `delete`. */
    const canDelete: bool

    /** Every stored value is `true`: the map is used as a set. */
    ghost predicate Valid()
      reads this
    {
      forall k :: k in members ==> members[k]
    }

    /** The numbers the set holds. */
    ghost function Elements(): set<int>
      reads this
    {
      members.Keys
    }

    /** `new CSet()`: an empty set without `delete`. */
    constructor ()
      ensures Valid() && Elements() == {} && !canDelete
    {
      members := map[];
      canDelete := false;
    }

    /** `new CSetWithDelete()`: an empty set with `delete`. */
    constructor WithDelete()
      ensures Valid() && Elements() == {} && canDelete
    {
      members := map[];
      canDelete := true;
    }

    /** `has(value)`: membership. */
    function Has(value: int): (present: bool)
      reads this
      ensures present <==> value in Elements()
    {
      value in members
    }

    /** `add(value)`: insert if absent; returns the set itself for chaining. */
    method Add(value: int) returns (self: NumberSet)
      requires Valid()
      modifies this
      ensures self == this && Valid()
      ensures members == Insert(old(members), value)
      ensures Elements() == old(Elements()) + {value}
    {
      if !(value in members) {
        members := members[value := true];
      }
      self := this;
    }

    /** `delete(value)`: remove if present; returns the set itself for chaining. */
    method Delete(value: int) returns (self: NumberSet)
      requires Valid() && canDelete
      modifies this
      ensures self == this && Valid()
      ensures members == Remove(old(members), value)
      ensures Elements() == old(Elements()) - {value}
    {
      if Has(value) {
        members := members - {value};
      }
      self := this;
    }
  }

  /**
   * The script after the class declarations: `add(1).add(2).add(3)` on a
   * `CSetWithDelete`, then `delete(2)`. Returns the members left.
   */
  method AddThreeDeleteTwo() returns (left: set<int>)
    ensures left == {1, 3}
  {
    var s := new NumberSet.WithDelete();
    var chained := s.Add(1);
    chained := chained.Add(2);
    chained := chained.Add(3);
    chained := s.Delete(2);
    left := s.members.Keys;
  }

  /** `add(1).add(1)` stores one entry, and `has(1)` then holds. */
  method AddTwiceStoresOnce() returns (present: bool, entries: nat)
    ensures present && entries == 1
  {
    var s := new NumberSet();
    var chained := s.Add(1);
    chained := chained.Add(1);
    present := s.Has(1);
    entries := |s.members|;
  }

  /** `add(1).add(2).delete(1)` leaves 2 but not 1. */
  method DeleteKeepsOthers() returns (hasOne: bool, hasTwo: bool)
    ensures !hasOne && hasTwo
  {
    var s := new NumberSet.WithDelete();
    var chained := s.Add(1);
    chained := chained.Add(2);
    chained := chained.Delete(1);
    hasOne := s.Has(1);
    hasTwo := s.Has(2);
  }
}
