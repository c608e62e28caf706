# slice_view, modelled in Dafny

This project models the core of `dd::ranges::slice_view`, a lazy C++ view that shows
the elements of a base range from index `start` up to index `end`. Both indices are
clamped to the base's length. The model covers three parts:

- **The cacheability rule** (`cacheable_range`, `maybe_cached_iterator_t`). A range's
  begin and end cursors are memoised exactly when the range is forward and not both
  random-access and sized. Module `CachedIterator` holds it. It describes a range type
  by three flags: `forward`, `randomAccess` and `sized`.
- **`non_propagating_cache<T>`**. This is a one-slot cache. A copy leaves the
  destination empty. A move leaves both objects empty. Module `NonPropagating`
  models it as class `Cache` with an `Option<T>` field.
- **`slice_view` and the `slice(start, end)` adaptor**. Module `Slice` models the view
  as class `SliceView` over an `array<T>` base. The array is shared with the caller,
  as a `ref_view` over a container is, so writing through the view writes the
  caller's elements. A cursor is a position `0 <= i <= L` into a base of length `L`.
  Module `Cursors` models `std::ranges::next(begin, n, end)`. For a range with a
  sized sentinel it jumps in one step; otherwise it steps one position at a time.
  Either way the result is `min(n, L)`. The private `next` of the view returns a
  memoised cursor when caching is on and one is stored; otherwise it computes the
  cursor, and stores it when caching is on.

Module `SliceScenarios` restates the repository's test cases as client methods. It adds
two scenarios of its own over a `std::list` base: repeated cursor requests, and a copy
of the view.

The repository provides a cursor slot that is emptied on copy and move:
`non_propagating_cache` (include/dd/non_propagating_cache.hpp:21-31), selected by
`maybe_cached_iterator_t` (include/dd/cached_iterator.hpp:34-53). `slice_view` does not
use either of them. Its slots are `maybe_present_t` of a plain `std::optional`
(include/dd/slice_view.hpp:48, 163-166). So the implicit copy of a view keeps the
cursors the source had memoised. `Slice.SliceView.Copy` and
`SliceScenarios.CopyKeepsMemoisedCursor` state this. Only `NonPropagating.Cache` has the
non-propagating copy and move.

In examples/basic.cpp the comment "list should use cached iterators" (line 54) stands
above a loop over `std::views::iota(50, 60) | dd::views::slice(2, 5)` (line 56). That
iota is sized and random-access, so it is not cached. The list slice `slice_cached` is
only constructed (line 62) and its `sizeof` printed (line 63).

## Model

| member | source | states |
|---|---|---|
| `CachedIterator.MaybeCachedIterator` | include/dd/cached_iterator.hpp:40-53 | The slot type is a non-propagating cache of the iterator iff the range is cacheable, and the empty placeholder iff it is not |
| `CachedIterator.InputRangeNotCacheable` | include/dd/cached_iterator.hpp:29-32 | A range that is not forward is never cacheable, so it gets the placeholder |
| `CachedIterator.CacheableCases` | include/dd/cached_iterator.hpp:21-32 | For well-formed capabilities: forward and not random-access is cacheable; random-access and not sized is cacheable; random-access and sized is not; input-only is not |
| `CachedIterator.CacheableRange` | include/dd/cached_iterator.hpp:29-32 | Definition of cacheable_range: forward and not both random-access and sized; see `CachedIterator.CacheableCases` and `CachedIterator.InputRangeNotCacheable` |
| `CachedIterator.MaybePresent` | include/dd/maybe_present.hpp:51-52 | Definition of maybe_present_t: the given slot type when present, the empty placeholder otherwise; see `CachedIterator.MaybeCachedIterator` |
| `CachedIterator.StandardRangeCacheability` | include/dd/cached_iterator.hpp:21-32 | vector/array and input ranges are not cached; list, forward_list and unbounded iota are cached |
| `Cursors.Step` | include/dd/slice_view.hpp:150-151 | The stepping branch of bounded ranges::next: the result lies between the start and the bound, at most n positions on; see `Cursors.StepStopsAtBound` |
| `Cursors.Jump` | include/dd/slice_view.hpp:150-151 | The jumping branch of bounded ranges::next: the result is min(i + n, bound) |
| `Cursors.StepStopsAtBound` | include/dd/slice_view.hpp:150-151 | Stepping n positions from i one at a time ends at min(i + n, bound) |
| `Cursors.Advance` | include/dd/slice_view.hpp:150-151 | A bounded advance, by jump or by steps, ends at min(i + n, bound) and never past the bound |
| `Cursors.CacheableMeansStepping` | include/dd/slice_view.hpp:41-45 | The caching rule restated through the approximation of `sized_sentinel_for` as random-access and sized: a range is cached exactly when it is forward and its bounded advance does not jump |
| `NonPropagating.Cache.constructor` | include/dd/non_propagating_cache.hpp:41 | A default-constructed cache is empty |
| `NonPropagating.Cache.Copy` | include/dd/non_propagating_cache.hpp:47-51 | Copy construction gives an empty cache and leaves the source's value unchanged |
| `NonPropagating.Cache.Move` | include/dd/non_propagating_cache.hpp:57-61 | Move construction leaves both the new cache and the source empty |
| `NonPropagating.Cache.CopyAssign` | include/dd/non_propagating_cache.hpp:68-76 | Copy assignment from another cache empties the destination and leaves the source unchanged; self copy-assignment changes nothing |
| `NonPropagating.Cache.MoveAssign` | include/dd/non_propagating_cache.hpp:83-89 | Move assignment empties both caches, and self move-assignment empties the cache |
| `NonPropagating.Cache.Value` | include/dd/non_propagating_cache.hpp:95-101 | value() and operator* are defined only when a value is stored, and give that value |
| `NonPropagating.Cache.Emplace` | include/dd/non_propagating_cache.hpp:120-125 | After emplace(v) the cache has a value and it is v, whatever was stored before; v is returned |
| `NonPropagating.Cache.HasValue` | include/dd/non_propagating_cache.hpp:107 | Definition of has_value(): the slot is filled; see `NonPropagating.HasValueAgreesWithBool` |
| `NonPropagating.Cache.AsBool` | include/dd/non_propagating_cache.hpp:113 | Definition of operator bool: the slot is filled; see `NonPropagating.HasValueAgreesWithBool` |
| `NonPropagating.HasValueAgreesWithBool` | include/dd/non_propagating_cache.hpp:107-113 | has_value() and operator bool always agree, and both hold exactly when the slot is filled |
| `NonPropagating.LifeCycle` | include/dd/non_propagating_cache.hpp:41-89 | On a filled cache: a copy is empty and the source keeps its value; a move empties both; self copy-assignment keeps the value; self move-assignment drops it |
| `Slice.UseCachedIterators` | include/dd/slice_view.hpp:43-45 | Definition of use_cached_iterators_; see `Slice.UseCachedIteratorsIsCacheable` |
| `Slice.CursorSlot` | include/dd/slice_view.hpp:163-166 | Definition of the type of begin_ and end_: maybe_present_t of std::optional; see `Slice.CursorSlotIsPlainOptional` |
| `Slice.UseCachedIteratorsIsCacheable` | include/dd/slice_view.hpp:43-45 | slice_view's use_cached_iterators_ is the same predicate as cacheable_range |
| `Slice.CursorSlotIsPlainOptional` | include/dd/slice_view.hpp:48 | slice_view's slots are plain optionals, never non-propagating caches; they are present exactly when maybe_cached_iterator_t would be a cache |
| `Slice.Clamp` | include/dd/slice_view.hpp:119-121 | std::clamp gives a value within [lo, hi]; it is x when x is in range, otherwise the bound that x passes |
| `Slice.SliceSize` | include/dd/slice_view.hpp:114-123 | The size is never negative and never exceeds L; for 0 <= start <= end it is min(end, L) - min(start, L); it is 0 when start >= L or end <= start |
| `Slice.Traverse` | tests/test_slice_view.cpp:19-29 | Walking a cursor from one position to another meets exactly as many elements as the positions are apart; see `Slice.TraverseIsSubsequence` |
| `Slice.TraverseIsSubsequence` | tests/test_slice_view.cpp:19-29 | Walking a cursor from one position to another visits exactly the base's elements between them |
| `Slice.Window` | tests/test_slice_view.cpp:67-76 | Iterating a slice gives SliceSize elements, the i-th being base[min(start, L) + i]; it is empty when start >= L |
| `Slice.SliceView.CursorOrder` | include/dd/slice_view.hpp:92-107 | begin is at min(start, L) and end at min(end, L), both derived from the base's begin; begin <= end <= L |
| `Slice.SliceView.constructor` | include/dd/slice_view.hpp:68-74 | The constructor requires start >= 0, end >= 0 and end >= start, stores base and bounds, and leaves both slots empty |
| `Slice.SliceView.Default` | include/dd/slice_view.hpp:59-61 | The defaulted constructor gives an empty base, bounds 0 and 0, and empty slots |
| `Slice.SliceView.Copy` | include/dd/slice_view.hpp:159-166 | The implicit copy shares the base and bounds and copies both memoised cursors as they are |
| `Slice.SliceView.Base` | include/dd/slice_view.hpp:81-85 | base() returns the stored base unchanged |
| `Slice.SliceView.Next` | include/dd/slice_view.hpp:140-157 | next gives min(n, L). When caching is on, a filled slot is returned unchanged and an empty one is filled with the result. When it is off, the slot is handed back untouched |
| `Slice.SliceView.Begin` | include/dd/slice_view.hpp:92-96 | begin() gives min(start, L), changes only the begin slot, and memoises the cursor exactly when caching is on |
| `Slice.SliceView.End` | include/dd/slice_view.hpp:103-107 | end() gives min(end, L) independently of begin(), changes only the end slot, and memoises exactly when caching is on |
| `Slice.SliceView.Size` | include/dd/slice_view.hpp:114-123 | For a sized range, size() is the distance from begin to end, and 0 when start == end |
| `Slice.SliceView.Elements` | include/dd/slice_view.hpp:92-107 | The view presents end - begin elements, the i-th being the base element at begin + i |
| `Slice.SliceView.Iterate` | tests/test_slice_view.cpp:19-29 | Iterating yields base[min(start, L) .. min(end, L)] and leaves both cursors memoised when caching is on |
| `Slice.SliceView.WriteAt` | tests/test_slice_view.cpp:44-55 | Writing x through the view's i-th element sets base[begin + i] to x and leaves every other base element unchanged |
| `Slice.SliceRangeAdaptor.Apply` | include/dd/slice_view.hpp:211-218 | Applying the adaptor to r builds a view of r with the adaptor's bounds and empty slots |
| `Slice.SliceFn` | include/dd/slice_view.hpp:233-238 | slice(start, end) gives an adaptor that holds exactly those bounds |
| `Slice.AdaptorMatchesConstructor` | include/dd/slice_view.hpp:201-218 | slice(a, b) applied to r gives the same view as slice_view(r, a, b): same base, bounds, slots and elements |
| `SliceScenarios.BasicSlicing` | tests/test_slice_view.cpp:19-29 | [10..14] sliced by (1, 4) iterates as [11, 12, 13] and has size 3 |
| `SliceScenarios.AdaptorSlicing` | tests/test_slice_view.cpp:31-42 | [0..5] piped into slice(2, 5) iterates as [2, 3, 4] and has size 3 |
| `SliceScenarios.MutationThroughView` | tests/test_slice_view.cpp:44-55 | Adding 10 to each element of slice(1, 4) over [1..5] leaves the base as [1, 12, 13, 14, 5] |
| `SliceScenarios.ConstRangeSlicing` | tests/test_slice_view.cpp:57-65 | [5, 6, 7, 8] sliced by (1, 3) iterates as [6, 7] and has size 2 |
| `SliceScenarios.OutOfRangeIsEmpty` | tests/test_slice_view.cpp:67-76 | slice(10, 12) over three elements has begin == end and size 0 |
| `SliceScenarios.BaseIsWholeRange` | tests/test_slice_view.cpp:78-89 | base() of a slice over [1..5] presents all of [1, 2, 3, 4, 5] |
| `SliceScenarios.BoundsAreClamped` | tests/test_slice_view.cpp:91-108 | (3, 10) over [10..14] is clamped to [13, 14] with size 2; (10, 10) is empty |
| `SliceScenarios.ListUsesCachedCursors` | examples/basic.cpp:62-63 | A slice (2, 5) constructed over a list engages caching, as the example's list slice does. The repeated begin(), which gives the same memoised position, and the iteration as [30, 40, 50] are this model's own scenario; the example never iterates the list slice |
| `SliceScenarios.CopyKeepsMemoisedCursor` | include/dd/slice_view.hpp:48 | A copy of a list slice whose begin is memoised holds that memoised cursor too |

## Left out

- `include/dd/type_traits.hpp` is not part of this model: it computes const, volatile and reference qualifiers at compile time and has no run-time behaviour.
- `include/dd/maybe_present.hpp`: its zero-size placeholder is modelled only as the `EmptyPlaceholder` slot type and as a slot that stays `None`. Storage layout, `[[no_unique_address]]` and unique lambda-tagged empty types have no counterpart in Dafny.
- `std::ranges` iterators, sentinels and `std::ranges::next` become positions in the base. `sized_sentinel_for`, which decides whether the bounded advance can jump, is approximated as "random-access and sized".
- C++ mechanics become plain values: deducing-this overloads, `std::forward_like`, const and rvalue qualification of `base()`, the `views::all_t` deduction guide, `viewable_range`, `constexpr` and the pipe syntax of `range_adaptor_closure`.
- Slice.SliceView.Next: the base's length is fixed after construction, so a memoised cursor is never stale. In the source the view shares the caller's container; if a cached base such as a `std::list` is resized after `end()` was memoised, the stored cursor is returned as it is (include/dd/slice_view.hpp:144-147) while `size()` is recomputed (include/dd/slice_view.hpp:118-121), and the two can disagree. That stale cursor is not modelled.
- Slice.SliceView.Copy: the base is always an array shared with the caller, i.e. the `ref_view` case. An `owning_view` base, which is move-only and carries its container with it, is not modelled. A view's move is not modelled separately, because for a shared base it is the same as a copy.
- The defaulted copy and move assignment operators of `slice_view` are not modelled; the model's bounds and base are fixed after construction.
- Slice.SliceView.Size: requires a sized range, as the source's constraint does. The `size()` that `view_interface` may supply for other ranges is not modelled.
- Slice.SliceView.Default: models a default-constructed base as an empty array (the case of an owning view over a default vector). The `default_initializable<R>` constraint is not modelled.
- Slice.SliceRangeAdaptor.Apply: bounds are unbounded integers. The `static_cast` of the adaptor's integral type to the range's difference type, which can narrow, is not modelled. `difference_type` arithmetic cannot overflow in `size()`, because both clamped values lie in `[0, L]`.
- NonPropagating.Cache.Value: gives the stored value. Writing through the reference that `value()` and `operator*` return is not modelled. `Emplace` takes a finished value rather than constructor arguments.
- Thread safety of the mutable slots: the view is single-threaded.
- The console output and `sizeof` printing of `examples/basic.cpp`, and `tests/test_main.cpp` and `tests/test_non_propagating_cache.cpp`, which hold no behaviour.
