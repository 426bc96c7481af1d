/** Half-open time intervals `[start, end)` in epoch milliseconds, the unit every part of the
    reservation engine compares. */
module Intervals {
  import opened Sorting

  datatype Interval = Interval(start: int, end: int)

  /** `Math.min` and `Math.max` on integers. */
  function Min(a: int, b: int): int {
    if a < b then a else b
  }

  function Max(a: int, b: int): int {
    if a < b then b else a
  }

  /** The interval holds at least one instant. */
  predicate NonEmpty(iv: Interval) {
    iv.start < iv.end
  }

  predicate Contains(iv: Interval, t: int) {
    iv.start <= t < iv.end
  }

  predicate Within(inner: Interval, outer: Interval) {
    outer.start <= inner.start && inner.end <= outer.end
  }

  /** The overlap test used throughout the source: `iv.start < end && start < iv.end`. */
  predicate OverlapsRange(iv: Interval, start: int, end: int) {
    iv.start < end && start < iv.end
  }

  predicate Overlaps(a: Interval, b: Interval) {
    OverlapsRange(a, b.start, b.end)
  }

  /** On non-empty intervals the overlap test is exactly "the two intervals share an instant". */
  lemma OverlapsIffCommonInstant(a: Interval, b: Interval)
    requires NonEmpty(a) && NonEmpty(b)
    ensures Overlaps(a, b) <==> exists t :: Contains(a, t) && Contains(b, t)
  {
    if Overlaps(a, b) {
      var t := if a.start < b.start then b.start else a.start;
      assert Contains(a, t) && Contains(b, t);
    }
  }

  function StartOf(iv: Interval): int {
    iv.start
  }

  /** Stable ascending sort by start, as `sort((a, b) => a.start - b.start)`. */
  function SortByStart(s: seq<Interval>): (r: seq<Interval>)
    ensures |r| == |s| && multiset(r) == multiset(s)
    ensures forall i, j :: 0 <= i < j < |r| ==> r[i].start <= r[j].start
  {
    var r := SortBy(s, StartOf);
    assert forall i, j :: 0 <= i < j < |r| ==> StartOf(r[i]) <= StartOf(r[j]);
    r
  }
}
