/**
 * An index model of std::ranges::next(it, n, bound) as slice_view uses it.
 *
 * A cursor into a base of length L is a position 0 <= i <= L; the base's
 * begin is 0 and its end is L. Advancing never passes the bound.
 */
module Cursors {
  import opened CachedIterator

  function Min(a: int, b: int): (r: int)
    ensures r <= a && r <= b && (r == a || r == b)
  {
    if a <= b then a else b
  }

  function Max(a: int, b: int): (r: int)
    ensures r >= a && r >= b && (r == a || r == b)
  {
    if a <= b then b else a
  }

  /** Whether a bounded advance can jump in one step (a sized sentinel). */
  predicate ConstantTimeAdvance(c: Capabilities) {
    c.randomAccess && c.sized
  }

  /** Advancing one position at a time, stopping early at the bound. */
  function Step(i: nat, n: nat, bound: nat): (r: nat)
    requires i <= bound
    ensures i <= r <= bound
    ensures r - i <= n
    decreases n
  {
    if n == 0 || i == bound then i else Step(i + 1, n - 1, bound)
  }

  /** Stepping n times from i ends at i + n, or at the bound if that comes first. */
  lemma {:induction false} StepStopsAtBound(i: nat, n: nat, bound: nat)
    requires i <= bound
    ensures Step(i, n, bound) == Min(i + n, bound)
    decreases n
  {
    if n != 0 && i != bound {
      StepStopsAtBound(i + 1, n - 1, bound);
    }
  }

  /** Advancing in one jump: compare n with the distance to the bound. */
  function Jump(i: nat, n: nat, bound: nat): (r: nat)
    requires i <= bound
    ensures r == Min(i + n, bound)
  {
    if n < bound - i then i + n else bound
  }

  /**
   * std::ranges::next(it, n, bound): jumps when the sentinel is sized,
   * steps otherwise; either way the result is min(i + n, bound).
   */
  function Advance(c: Capabilities, i: nat, n: nat, bound: nat): (r: nat)
    requires i <= bound
    ensures r == Min(i + n, bound)
    ensures i <= r <= bound
  {
    if ConstantTimeAdvance(c) then
      Jump(i, n, bound)
    else
      StepStopsAtBound(i, n, bound);
      Step(i, n, bound)
  }

  /**
   * Caching is engaged only for forward ranges whose advance steps one
   * position at a time: the ranges for which re-deriving a cursor costs O(n).
   */
  lemma CacheableMeansStepping(c: Capabilities)
    ensures CacheableRange(c) <==> c.forward && !ConstantTimeAdvance(c)
  {
  }
}
