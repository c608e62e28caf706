/**
 * The cacheability rule of include/dd/cached_iterator.hpp.
 *
 * A range type is described by the traversal capabilities the rule looks at.
 * In C++ these are concepts checked at compile time; here they are a value.
 */
module CachedIterator {

  /** The capabilities of a range type that the caching rule inspects. */
  datatype Capabilities = Capabilities(forward: bool, randomAccess: bool, sized: bool)
  {
    /** Every random-access range is also a forward range. */
    predicate Valid() {
      randomAccess ==> forward
    }
  }

  /** A range over which begin() and end() are worth memoising. */
  predicate CacheableRange(c: Capabilities) {
    c.forward && !(c.randomAccess && c.sized)
  }

  /** The types a cursor-storage field can be given. */
  datatype SlotType =
    | NonPropagatingCacheOfIterator  // non_propagating_cache<iterator_t<R>>
    | OptionalIterator               // std::optional<iterator_t<R>>
    | EmptyPlaceholder               // a unique stateless empty type

  /** maybe_present_t: the given type when present, otherwise an empty placeholder. */
  function MaybePresent(present: bool, t: SlotType): (s: SlotType) {
    if present then t else EmptyPlaceholder
  }

  /**
   * maybe_cached_iterator_t: a non-propagating cache of the range's iterator
   * exactly when the range is cacheable, and a stateless placeholder otherwise.
   */
  function MaybeCachedIterator(c: Capabilities): (s: SlotType)
    ensures s == NonPropagatingCacheOfIterator <==> CacheableRange(c)
    ensures s == EmptyPlaceholder <==> !CacheableRange(c)
    ensures s != OptionalIterator
  {
    MaybePresent(CacheableRange(c), NonPropagatingCacheOfIterator)
  }

  /** An input-only range is never cacheable. */
  lemma InputRangeNotCacheable(c: Capabilities)
    requires !c.forward
    ensures !CacheableRange(c)
    ensures MaybeCachedIterator(c) == EmptyPlaceholder
  {
  }

  /** For well-formed capabilities the rule splits into its three cases. */
  lemma CacheableCases(c: Capabilities)
    requires c.Valid()
    ensures c.forward && !c.randomAccess ==> CacheableRange(c)
    ensures c.randomAccess && !c.sized ==> CacheableRange(c)
    ensures c.randomAccess && c.sized ==> !CacheableRange(c)
    ensures !c.forward ==> !CacheableRange(c)
  {
  }

  // Capabilities of the standard ranges the sources and their examples use.

  /** std::array and std::vector: random access and sized. */
  const StdVector := Capabilities(forward := true, randomAccess := true, sized := true)
  /** std::list: bidirectional (so forward) and sized, but not random access. */
  const StdList := Capabilities(forward := true, randomAccess := false, sized := true)
  /** std::forward_list: forward only and not sized. */
  const StdForwardList := Capabilities(forward := true, randomAccess := false, sized := false)
  /** An unbounded std::views::iota: random access with no size. */
  const UnboundedIota := Capabilities(forward := true, randomAccess := true, sized := false)
  /** A single-pass input range such as std::views::istream. */
  const InputOnly := Capabilities(forward := false, randomAccess := false, sized := false)

  /** The rule applied to the standard ranges. */
  lemma StandardRangeCacheability()
    ensures !CacheableRange(StdVector)
    ensures CacheableRange(StdList)
    ensures CacheableRange(StdForwardList)
    ensures CacheableRange(UnboundedIota)
    ensures !CacheableRange(InputOnly)
    ensures MaybeCachedIterator(StdList) == NonPropagatingCacheOfIterator
    ensures MaybeCachedIterator(StdVector) == EmptyPlaceholder
  {
  }
}
