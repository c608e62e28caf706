/**
 * The behaviour the repository's test cases and example program exercise,
 * stated as client methods of the model: each one builds the views the test
 * builds and promises what the test checks.
 */
module SliceScenarios {
  import opened Wrappers
  import opened CachedIterator
  import opened Cursors
  import opened Slice

  /** [10..14] sliced by (1, 4) iterates as [11, 12, 13] and has size 3. */
  method BasicSlicing() returns (elems: seq<int>, size: nat)
    ensures elems == [11, 12, 13] && size == 3
  {
    var a := new int[] [10, 11, 12, 13, 14];
    var sv := new SliceView(StdVector, a, 1, 4);
    elems := sv.Iterate();
    size := sv.Size();
  }

  /** [0..5] piped into slice(2, 5) iterates as [2, 3, 4] and has size 3. */
  method AdaptorSlicing() returns (elems: seq<int>, size: nat)
    ensures elems == [2, 3, 4] && size == 3
  {
    var a := new int[] [0, 1, 2, 3, 4, 5];
    var sv := SliceFn(2, 5).Apply(StdVector, a);
    elems := sv.Iterate();
    size := sv.Size();
  }

  /** Adding 10 to each element of slice(1, 4) of [1..5] changes the base to [1, 12, 13, 14, 5]. */
  method MutationThroughView() returns (a: array<int>)
    ensures a[..] == [1, 12, 13, 14, 5]
  {
    a := new int[] [1, 2, 3, 4, 5];
    var sv: SliceView<int> := SliceFn(1, 4).Apply(StdVector, a);
    sv.CursorOrder();
    var i := 0;
    while i < 3
      invariant 0 <= i <= 3
      invariant sv.Valid() && sv.base == a && sv.startIndex == 1 && sv.endIndex == 4
      invariant a[..] == [1] + seq(i, k => k + 12) + seq(3 - i, k => k + 2 + i) + [5]
      modifies sv`beginCache, a
    {
      sv.WriteAt(i, a[1 + i] + 10);
      i := i + 1;
    }
  }

  /** [5, 6, 7, 8] sliced by (1, 3) iterates as [6, 7] and has size 2. */
  method ConstRangeSlicing() returns (elems: seq<int>, size: nat)
    ensures elems == [6, 7] && size == 2
  {
    var a := new int[] [5, 6, 7, 8];
    var sv := SliceFn(1, 3).Apply(StdVector, a);
    elems := sv.Iterate();
    size := sv.Size();
  }

  /** A slice starting past the end is empty: begin equals end and the size is 0. */
  method OutOfRangeIsEmpty() returns (first: nat, last: nat, size: nat)
    ensures first == last && size == 0
  {
    var a := new int[] [10, 11, 12];
    var sv := SliceFn(10, 12).Apply(StdVector, a);
    first := sv.Begin();
    last := sv.End();
    size := sv.Size();
  }

  /** base() of slice(0, 3) over [1..5] is the whole base. */
  method BaseIsWholeRange() returns (b: seq<int>)
    ensures b == [1, 2, 3, 4, 5]
  {
    var a := new int[] [1, 2, 3, 4, 5];
    var sv := SliceFn(0, 3).Apply(StdVector, a);
    b := sv.Base()[..];
  }

  /** (3, 10) over [10..14] is clamped to [13, 14], size 2; (10, 10) is empty. */
  method BoundsAreClamped() returns (upper: seq<int>, upperSize: nat, both: seq<int>)
    ensures upper == [13, 14] && upperSize == 2
    ensures both == []
  {
    var a := new int[] [10, 11, 12, 13, 14];
    var sv := new SliceView(StdVector, a, 3, 10);
    upper := sv.Iterate();
    upperSize := sv.Size();
    var empty := new SliceView(StdVector, a, 10, 10);
    both := empty.Iterate();
  }

  /**
   * A std::list sliced by (2, 5) memoises its cursors: the second begin()
   * is the stored one, and the elements are [30, 40, 50].
   */
  method ListUsesCachedCursors() returns (elems: seq<int>, first: nat, again: nat, cached: bool)
    ensures elems == [30, 40, 50]
    ensures first == again == 2
    ensures cached
  {
    var a := new int[] [10, 20, 30, 40, 50];
    var sv := new SliceView(StdList, a, 2, 5);
    first := sv.Begin();
    cached := sv.beginCache == Some(first);
    again := sv.Begin();
    elems := sv.Iterate();
    cached := cached && sv.beginCache == Some(2) && sv.endCache == Some(5);
  }

  /**
   * Copying a std::list slice whose begin cursor is memoised gives a copy
   * that holds that cursor too: the view's slots are plain optionals.
   */
  method CopyKeepsMemoisedCursor() returns (copyCached: bool, copyFirst: nat)
    ensures copyCached && copyFirst == 2
  {
    var a := new int[] [10, 20, 30, 40, 50];
    var sv := new SliceView(StdList, a, 2, 5);
    var _ := sv.Begin();
    var copy := new SliceView.Copy(sv);
    copyCached := copy.beginCache == Some(2);
    copyFirst := copy.Begin();
  }
}
