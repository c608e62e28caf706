/**
 * non_propagating_cache<T> of include/dd/non_propagating_cache.hpp: a single
 * optional slot whose copies and moves deliberately do not carry the value.
 */
module NonPropagating {
  import opened Wrappers

  class Cache<T> {
    /** The slot: value_ in the source. */
    var value: Option<T>

    /** Default construction: empty. */
    constructor ()
      ensures value == None
    {
      value := None;
    }

    /** Copy construction: the new cache is empty and the source is untouched. */
    constructor Copy(other: Cache<T>)
      ensures value == None
      ensures other.value == old(other.value)
    {
      value := None;
    }

    /** Move construction: both the new cache and the source end up empty. */
    constructor Move(other: Cache<T>)
      modifies other
      ensures value == None
      ensures other.value == None
    {
      value := None;
      new;
      other.value := None;
    }

    /**
     * Copy assignment: empties this cache unless it is assigned to itself,
     * in which case nothing changes; the source is never changed.
     */
    method CopyAssign(other: Cache<T>)
      modifies this
      ensures this != other ==> value == None && other.value == old(other.value)
      ensures this == other ==> value == old(value)
    {
      if this != other {
        value := None;
      }
    }

    /**
     * Move assignment: empties both caches. There is no self-assignment
     * guard, so moving a cache into itself empties it.
     */
    method MoveAssign(other: Cache<T>)
      modifies this, other
      ensures value == None
      ensures other.value == None
    {
      value := None;
      other.value := None;
    }

    /** has_value(). */
    predicate HasValue()
      reads this
    {
      value.Some?
    }

    /** operator bool. */
    predicate AsBool()
      reads this
    {
      value.Some?
    }

    /** value() and operator*: the stored value, only when there is one. */
    function Value(): (r: T)
      reads this
      requires HasValue()
      ensures value == Some(r)
    {
      value.value
    }

    /** emplace(v): stores v whatever was there before and returns it. */
    method Emplace(v: T) returns (r: T)
      modifies this
      ensures HasValue() && Value() == v
      ensures r == v
    {
      value := Some(v);
      r := v;
    }
  }

  /** has_value() and operator bool always agree. */
  lemma HasValueAgreesWithBool<T>(c: Cache<T>)
    ensures c.HasValue() == c.AsBool()
    ensures c.HasValue() <==> c.value != None
  {
  }

  /**
   * The whole life cycle on one value x: what each copy and move leaves in
   * the source and the destination.
   */
  method LifeCycle(x: int)
    returns (copyEmpty: bool, copySourceKept: bool, moveBothEmpty: bool,
             selfCopyKept: bool, selfMoveEmpty: bool)
    ensures copyEmpty && copySourceKept && moveBothEmpty
    ensures selfCopyKept && selfMoveEmpty
  {
    var a := new Cache<int>();
    var _ := a.Emplace(x);
    var b := new Cache<int>.Copy(a);
    copyEmpty := !b.HasValue();
    copySourceKept := a.HasValue() && a.Value() == x;

    var c := new Cache<int>.Move(a);
    moveBothEmpty := !c.HasValue() && !a.HasValue();

    var _ := b.Emplace(x);
    b.CopyAssign(b);
    selfCopyKept := b.HasValue() && b.Value() == x;
    b.MoveAssign(b);
    selfMoveEmpty := !b.HasValue();
  }
}
