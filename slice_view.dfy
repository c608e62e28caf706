/**
 * slice_view of include/dd/slice_view.hpp: a lazy view of the elements of a
 * base range between two indices, clamped to the base's length, together
 * with the slice(start, end) adaptor that builds it.
 *
 * The base is an array shared with the caller (the ref_view a container is
 * wrapped in), so writing through the view writes the caller's elements.
 * Cursors are positions into the base, as in module Cursors.
 */
module Slice {
  import opened Wrappers
  import opened CachedIterator
  import opened Cursors

  /** use_cached_iterators_: written out separately in slice_view. */
  predicate UseCachedIterators(c: Capabilities) {
    c.forward && !(c.randomAccess && c.sized)
  }

  /** slice_view's rule is the cacheable_range rule. */
  lemma UseCachedIteratorsIsCacheable(c: Capabilities)
    ensures UseCachedIterators(c) == CacheableRange(c)
  {
  }

  /** The type slice_view gives its begin_ and end_ fields. */
  function CursorSlot(c: Capabilities): (s: SlotType) {
    MaybePresent(UseCachedIterators(c), OptionalIterator)
  }

  /**
   * slice_view stores a plain optional, not a non_propagating_cache: its
   * slots are present exactly when maybe_cached_iterator_t's would be, but
   * they are never of the non-propagating kind.
   */
  lemma CursorSlotIsPlainOptional(c: Capabilities)
    ensures CursorSlot(c) != NonPropagatingCacheOfIterator
    ensures CursorSlot(c) == OptionalIterator <==> MaybeCachedIterator(c) == NonPropagatingCacheOfIterator
    ensures CursorSlot(c) == EmptyPlaceholder <==> MaybeCachedIterator(c) == EmptyPlaceholder
  {
  }

  /** std::clamp(x, lo, hi). */
  function Clamp(x: int, lo: int, hi: int): (r: int)
    requires lo <= hi
    ensures lo <= r <= hi
    ensures lo <= x <= hi ==> r == x
    ensures r != x ==> (x < lo && r == lo) || (hi < x && r == hi)
  {
    if x < lo then lo else if hi < x then hi else x
  }

  /** size(): max(0, clamp(end, 0, L) - clamp(start, 0, L)), as an unsigned value. */
  function SliceSize(start: int, end: int, baseSize: nat): (r: nat)
    ensures r <= baseSize
    ensures start <= end && 0 <= start ==> r == Min(end, baseSize) - Min(start, baseSize)
    ensures baseSize <= start ==> r == 0
    ensures end <= start ==> r == 0
  {
    var zero := 0;
    Max(zero, Clamp(end, zero, baseSize) - Clamp(start, zero, baseSize))
  }

  /** The elements met by walking a cursor from one position up to another. */
  function Traverse<T>(s: seq<T>, from: nat, to: nat): (r: seq<T>)
    requires from <= to <= |s|
    ensures |r| == to - from
    decreases (to as int) - from
  {
    if from == to then [] else [s[from]] + Traverse(s, from + 1, to)
  }

  /** Walking from one position to another visits exactly the subsequence between them. */
  lemma {:induction false} TraverseIsSubsequence<T>(s: seq<T>, from: nat, to: nat)
    requires from <= to <= |s|
    ensures Traverse(s, from, to) == s[from..to]
    decreases (to as int) - from
  {
    if from < to {
      TraverseIsSubsequence(s, from + 1, to);
    }
  }

  /**
   * What iterating a slice of s yields: the elements from position
   * min(start, |s|) up to position min(end, |s|).
   */
  function Window<T>(s: seq<T>, start: nat, end: nat): (r: seq<T>)
    requires start <= end
    ensures |r| == SliceSize(start, end, |s|)
    ensures forall i :: 0 <= i < |r| ==> r[i] == s[Min(start, |s|) + i]
    ensures start >= |s| ==> r == []
  {
    var from, to := Min(start, |s|), Min(end, |s|);
    TraverseIsSubsequence(s, from, to);
    Traverse(s, from, to)
  }

  class SliceView<T> {
    /** The capabilities of the range type R. */
    const caps: Capabilities
    /** base_ */
    const base: array<T>
    /** start_index_ */
    const startIndex: int
    /** end_index_ */
    const endIndex: int
    /** begin_: the memoised begin cursor; always empty when caching is off. */
    var beginCache: Option<nat>
    /** end_: the memoised end cursor; always empty when caching is off. */
    var endCache: Option<nat>

    /** The constructor's bounds hold, and a filled slot holds the cursor it stands for. */
    ghost predicate Valid()
      reads this
    {
      && 0 <= startIndex && 0 <= endIndex && startIndex <= endIndex
      && (!UseCachedIterators(caps) ==> beginCache == None && endCache == None)
      && (beginCache == None || beginCache == Some(Advance(caps, 0, startIndex, base.Length)))
      && (endCache == None || endCache == Some(Advance(caps, 0, endIndex, base.Length)))
    }

    /** The position begin() denotes. */
    function BeginPosition(): (p: nat)
      requires 0 <= startIndex
    {
      Advance(caps, 0, startIndex, base.Length)
    }

    /** The position end() denotes. */
    function EndPosition(): (p: nat)
      requires 0 <= endIndex
    {
      Advance(caps, 0, endIndex, base.Length)
    }

    /**
     * Both cursors are derived from the base's begin; begin never lies after
     * end, and neither lies past the base's end.
     */
    lemma CursorOrder()
      requires Valid()
      ensures BeginPosition() == Min(startIndex, base.Length)
      ensures EndPosition() == Min(endIndex, base.Length)
      ensures BeginPosition() <= EndPosition() <= base.Length
    {
    }

    constructor (caps: Capabilities, base: array<T>, start: int, end: int)
      requires start >= 0
      requires end >= 0
      requires end >= start
      ensures Valid()
      ensures this.caps == caps && this.base == base
      ensures startIndex == start && endIndex == end
      ensures beginCache == None && endCache == None
    {
      this.caps, this.base := caps, base;
      startIndex, endIndex := start, end;
      beginCache, endCache := None, None;
    }

    /** The defaulted constructor: an empty base and the bounds 0 and 0. */
    constructor Default(caps: Capabilities)
      ensures Valid()
      ensures this.caps == caps && base.Length == 0
      ensures startIndex == 0 && endIndex == 0
      ensures beginCache == None && endCache == None
    {
      this.caps := caps;
      base := new T[0];
      startIndex, endIndex := 0, 0;
      beginCache, endCache := None, None;
    }

    /**
     * The implicit copy constructor. The slots are std::optional, so a copy
     * takes over the cursors the source has memoised.
     */
    constructor Copy(other: SliceView<T>)
      requires other.Valid()
      ensures Valid()
      ensures caps == other.caps && base == other.base
      ensures startIndex == other.startIndex && endIndex == other.endIndex
      ensures beginCache == other.beginCache && endCache == other.endCache
    {
      caps, base := other.caps, other.base;
      startIndex, endIndex := other.startIndex, other.endIndex;
      beginCache, endCache := other.beginCache, other.endCache;
    }

    /** base(): the stored base, unchanged. */
    function Base(): (r: array<T>)
      ensures r == base
    {
      base
    }

    /**
     * next(iter, n): the cursor n positions after the base's begin, bounded
     * by the base's end. When caching is on, a filled slot is returned as it
     * is and an empty one is filled; when it is off the slot is left alone.
     * The slot is passed in and handed back, as the source passes it by
     * reference.
     */
    method Next(slot: Option<nat>, n: nat) returns (it: nat, slot': Option<nat>)
      requires UseCachedIterators(caps) && slot.Some? ==> slot.value == Advance(caps, 0, n, base.Length)
      ensures it == Min(n, base.Length)
      ensures UseCachedIterators(caps) && slot.Some? ==> it == slot.value && slot' == slot
      ensures slot' == if UseCachedIterators(caps) then Some(it) else slot
    {
      if UseCachedIterators(caps) {
        if slot.Some? {
          it, slot' := slot.value, slot;
          return;
        }
      }
      it := Advance(caps, 0, n, base.Length);
      slot' := slot;
      if UseCachedIterators(caps) {
        slot' := Some(it);
      }
    }

    /** begin(): touches only the begin slot. */
    method Begin() returns (it: nat)
      requires Valid()
      modifies this`beginCache
      ensures Valid()
      ensures it == BeginPosition() == Min(startIndex, base.Length)
      ensures beginCache == if UseCachedIterators(caps) then Some(it) else None
    {
      it, beginCache := Next(beginCache, startIndex);
    }

    /** end(): touches only the end slot, and does not use begin(). */
    method End() returns (it: nat)
      requires Valid()
      modifies this`endCache
      ensures Valid()
      ensures it == EndPosition() == Min(endIndex, base.Length)
      ensures endCache == if UseCachedIterators(caps) then Some(it) else None
    {
      it, endCache := Next(endCache, endIndex);
    }

    /** size(): available only for sized ranges; the distance from begin to end. */
    function Size(): (r: nat)
      reads this
      requires Valid()
      requires caps.sized
      ensures r == EndPosition() - BeginPosition()
      ensures startIndex == endIndex ==> r == 0
    {
      SliceSize(startIndex, endIndex, base.Length)
    }

    /** The elements the view presents. */
    function Elements(): (r: seq<T>)
      reads this, base
      requires Valid()
      ensures |r| == EndPosition() - BeginPosition()
      ensures forall i :: 0 <= i < |r| ==> r[i] == base[BeginPosition() + i]
    {
      Window(base[..], startIndex, endIndex)
    }

    /** Iterating the view: from begin() up to end(). */
    method Iterate() returns (r: seq<T>)
      requires Valid()
      modifies this`beginCache, this`endCache
      ensures Valid()
      ensures r == Elements()
      ensures r == base[Min(startIndex, base.Length)..Min(endIndex, base.Length)]
      ensures beginCache == if UseCachedIterators(caps) then Some(BeginPosition()) else None
      ensures endCache == if UseCachedIterators(caps) then Some(EndPosition()) else None
    {
      var first := Begin();
      var last := End();
      TraverseIsSubsequence(base[..], first, last);
      r := Traverse(base[..], first, last);
    }

    /**
     * Writing x through the view's i-th element writes the base at
     * begin + i and nowhere else.
     */
    method WriteAt(i: nat, x: T)
      requires Valid()
      requires i < EndPosition() - BeginPosition()
      modifies this`beginCache, base
      ensures Valid()
      ensures base[..] == old(base[..])[BeginPosition() + i := x]
      ensures Elements() == old(Elements())[i := x]
      ensures beginCache == if UseCachedIterators(caps) then Some(BeginPosition()) else None
    {
      var first := Begin();
      base[first + i] := x;
    }
  }

  /** slice_range_adaptor: the two bounds, waiting for a range. */
  datatype SliceRangeAdaptor = SliceRangeAdaptor(start: int, end: int)
  {
    /** operator()(r): the view slice_view(r, start, end). */
    method Apply<T>(caps: Capabilities, r: array<T>) returns (v: SliceView<T>)
      requires start >= 0 && end >= 0 && end >= start
      ensures fresh(v) && v.Valid()
      ensures v.caps == caps && v.base == r
      ensures v.startIndex == start && v.endIndex == end
      ensures v.beginCache == None && v.endCache == None
    {
      v := new SliceView(caps, r, start, end);
    }
  }

  /** slice(start, end): curries the bounds. */
  function SliceFn(start: int, end: int): (a: SliceRangeAdaptor)
    ensures a.start == start && a.end == end
  {
    SliceRangeAdaptor(start, end)
  }

  /** slice(a, b)(r) and slice_view(r, a, b) are the same view. */
  method AdaptorMatchesConstructor<T(==)>(caps: Capabilities, r: array<T>, a: int, b: int)
    returns (same: bool)
    requires a >= 0 && b >= 0 && b >= a
    ensures same
  {
    var viaAdaptor := SliceFn(a, b).Apply(caps, r);
    var direct := new SliceView(caps, r, a, b);
    same := viaAdaptor.caps == direct.caps && viaAdaptor.base == direct.base
      && viaAdaptor.startIndex == direct.startIndex && viaAdaptor.endIndex == direct.endIndex
      && viaAdaptor.beginCache == direct.beginCache && viaAdaptor.endCache == direct.endCache
      && viaAdaptor.Elements() == direct.Elements();
  }
}
