/**
 The randomised neighbour window of `UpdateJob.Execute`: a start index drawn
 from the buffer, an end index drawn at most `SearchRange` past it, and the
 end clamped back into the buffer.
 */
module NeighbourWindow {
  import Int32

  /**
   `r` is a value `Random.NextInt(lo, hi)` can return: the half-open range
   `[lo, hi)`, the bound itself when the range is empty, and any `int` when
   `lo > hi`, where the generator gives no guarantee.
   */
  predicate NextIntDraw(lo: int, hi: int, r: int) {
    if lo < hi then lo <= r < hi
    else if lo == hi then r == lo
    else Int32.InRange(r)
  }

  /** The scanned index range `[start, end)`. */
  datatype Window = Window(start: int, end: int) {
    function Size(): int {
      if start < end then end - start else 0
    }
  }

  /** The upper bound of the end-index draw, computed in 32-bit arithmetic. */
  function EndBound(start: int, searchRange: int): int {
    Int32.Wrap(start + 1 + searchRange)
  }

  /** The two draws fit the bounds the source passes to `NextInt`. */
  predicate ValidDraws(length: int, searchRange: int, startDraw: int, endDraw: int) {
    && NextIntDraw(0, length, startDraw)
    && NextIntDraw(startDraw + 1, EndBound(startDraw, searchRange), endDraw)
  }

  /** No 32-bit overflow in `startIndex + 1 + SearchRange`. */
  predicate NoOverflow(length: int, searchRange: int) {
    length + searchRange <= Int32.Max
  }

  /**
   The window `Execute` scans. Every index it covers lies in the buffer; with
   at least one boid, a search range of at least one and no overflow, it is
   non-empty and no longer than the search range.
   */
  function SelectWindow(length: int, searchRange: int, startDraw: int, endDraw: int): (w: Window)
    requires 0 <= length <= Int32.Max
    requires ValidDraws(length, searchRange, startDraw, endDraw)
    ensures w.start == startDraw
    ensures 0 <= w.start && w.end <= length
    ensures length == 0 ==> w.Size() == 0
    ensures 1 <= length && 1 <= searchRange && NoOverflow(length, searchRange) ==>
              0 <= w.start < w.end <= length && 1 <= w.end - w.start <= searchRange
  {
    Window(startDraw, Int32.Clamp(endDraw, 0, length))
  }

  /**
   Conversely, every non-empty in-bounds window of at most `searchRange`
   indices is chosen by some pair of draws.
   */
  lemma EveryShortWindowIsReachable(length: int, searchRange: int, s: int, e: int)
    requires length <= Int32.Max && NoOverflow(length, searchRange)
    requires 0 <= s < e <= length && e - s <= searchRange
    ensures ValidDraws(length, searchRange, s, e)
    ensures SelectWindow(length, searchRange, s, e) == Window(s, e)
  {
  }
}
