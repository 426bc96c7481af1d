/** Interval subtraction, the step that turns a room's open hours into its free time
    (src/features/availability/server.ts, `subtractInterval` and `subtractIntervals`). */
module Subtraction {
  import opened Intervals

  /** Some interval of the list holds instant `t`. */
  predicate Covered(s: seq<Interval>, t: int) {
    exists p :: p in s && Contains(p, t)
  }

  /** What is left of `iv` once `sub` is taken out: `iv` itself when they do not overlap,
      otherwise the non-empty part left of `sub` and the non-empty part right of it. */
  function SubtractInterval(iv: Interval, sub: Interval): (r: seq<Interval>)
    ensures !Overlaps(iv, sub) ==> r == [iv]
    ensures |r| <= 2
    ensures forall p :: p in r ==> Within(p, iv) && !Overlaps(p, sub)
    ensures Overlaps(iv, sub) ==> forall p :: p in r ==> NonEmpty(p)
    ensures |r| == 2 ==> r[0].start < r[1].start && (NonEmpty(sub) ==> r[0].end < r[1].start)
  {
    if sub.end <= iv.start || sub.start >= iv.end then [iv]
    else
      var leftEnd := Min(sub.start, iv.end);
      var rightStart := Max(sub.end, iv.start);
      var left := if sub.start > iv.start && iv.start < leftEnd then [Interval(iv.start, leftEnd)] else [];
      var right := if sub.end < iv.end && rightStart < iv.end then [Interval(rightStart, iv.end)] else [];
      left + right
  }

  /** The pieces hold exactly the instants of `iv` that are not in `sub`. */
  lemma SubtractIntervalCovers(iv: Interval, sub: Interval, t: int)
    ensures Covered(SubtractInterval(iv, sub), t) <==> Contains(iv, t) && !Contains(sub, t)
  {
    var r := SubtractInterval(iv, sub);
    if Contains(iv, t) && !Contains(sub, t) {
      if !Overlaps(iv, sub) {
        assert iv in r;
      } else if t < sub.start {
        assert Interval(iv.start, Min(sub.start, iv.end)) in r;
      } else {
        assert Interval(Max(sub.end, iv.start), iv.end) in r;
      }
    }
  }

  /** One pass of the outer loop: every interval minus one subtractor, in order. */
  function SubtractFromEach(ivs: seq<Interval>, sub: Interval): seq<Interval> {
    if ivs == [] then []
    else SubtractFromEach(ivs[..|ivs| - 1], sub) + SubtractInterval(ivs[|ivs| - 1], sub)
  }

  /** The subtractors taken out one after another, in the given order. */
  function SubtractAll(ivs: seq<Interval>, subs: seq<Interval>): seq<Interval> {
    if subs == [] then ivs
    else SubtractFromEach(SubtractAll(ivs, subs[..|subs| - 1]), subs[|subs| - 1])
  }

  /** `subtractIntervals`: a copy of the input when either list is empty, otherwise the
      subtractors taken out in ascending order of start. */
  function SubtractionOf(ivs: seq<Interval>, subs: seq<Interval>): seq<Interval> {
    if ivs == [] || subs == [] then ivs else SubtractAll(ivs, SortByStart(subs))
  }

  lemma {:induction false} FromEachMembers(ivs: seq<Interval>, sub: Interval, p: Interval)
    ensures p in SubtractFromEach(ivs, sub) ==> exists q :: q in ivs && p in SubtractInterval(q, sub)
  {
    if ivs != [] {
      var init := ivs[..|ivs| - 1];
      FromEachMembers(init, sub, p);
      if p in SubtractFromEach(init, sub) {
        var q :| q in init && p in SubtractInterval(q, sub);
        assert q in ivs;
      } else if p in SubtractFromEach(ivs, sub) {
        assert ivs[|ivs| - 1] in ivs;
      }
    }
  }

  /** An instant is covered by a concatenation when either part covers it. */
  lemma CoveredAppend(a: seq<Interval>, b: seq<Interval>, t: int)
    ensures Covered(a + b, t) <==> Covered(a, t) || Covered(b, t)
  {
    if Covered(a + b, t) {
      var p :| p in a + b && Contains(p, t);
      if p in a {
        assert Covered(a, t);
      } else {
        assert Covered(b, t);
      }
    }
    if Covered(a, t) {
      var p :| p in a && Contains(p, t);
      assert p in a + b;
    }
    if Covered(b, t) {
      var p :| p in b && Contains(p, t);
      assert p in a + b;
    }
  }

  lemma CoveredSingle(iv: Interval, t: int)
    ensures Covered([iv], t) <==> Contains(iv, t)
  {
    if Contains(iv, t) {
      assert iv in [iv];
    }
  }

  lemma {:induction false} FromEachCovers(ivs: seq<Interval>, sub: Interval, t: int)
    ensures Covered(SubtractFromEach(ivs, sub), t) <==> Covered(ivs, t) && !Contains(sub, t)
  {
    if ivs != [] {
      var init := ivs[..|ivs| - 1];
      var last := ivs[|ivs| - 1];
      var a, b := SubtractFromEach(init, sub), SubtractInterval(last, sub);
      assert Covered(a, t) <==> Covered(init, t) && !Contains(sub, t) by {
        FromEachCovers(init, sub, t);
      }
      assert Covered(b, t) <==> Contains(last, t) && !Contains(sub, t) by {
        SubtractIntervalCovers(last, sub, t);
      }
      assert Covered(a + b, t) <==> Covered(a, t) || Covered(b, t) by {
        CoveredAppend(a, b, t);
      }
      assert Covered(ivs, t) <==> Covered(init, t) || Contains(last, t) by {
        assert ivs == init + [last];
        CoveredAppend(init, [last], t);
        CoveredSingle(last, t);
      }
    }
  }

  /** No subtractor holds instant `t`. */
  predicate Untouched(subs: seq<Interval>, t: int) {
    forall s :: s in subs ==> !Contains(s, t)
  }

  lemma UntouchedSnoc(init: seq<Interval>, last: Interval, t: int)
    ensures Untouched(init + [last], t) <==> Untouched(init, t) && !Contains(last, t)
  {
    if Untouched(init, t) && !Contains(last, t) {
      forall s | s in init + [last] ensures !Contains(s, t) {
        if s != last {
          assert s in init;
        }
      }
    }
  }

  /** The result holds exactly the instants of the input that no subtractor holds. */
  lemma {:induction false} SubtractAllCovers(ivs: seq<Interval>, subs: seq<Interval>, t: int)
    ensures Covered(SubtractAll(ivs, subs), t) <==> Covered(ivs, t) && Untouched(subs, t)
  {
    if subs != [] {
      var init := subs[..|subs| - 1];
      var last := subs[|subs| - 1];
      var before := SubtractAll(ivs, init);
      assert Covered(before, t) <==> Covered(ivs, t) && Untouched(init, t) by {
        SubtractAllCovers(ivs, init, t);
      }
      assert Covered(SubtractFromEach(before, last), t) <==> Covered(before, t) && !Contains(last, t) by {
        FromEachCovers(before, last, t);
      }
      assert Untouched(subs, t) <==> Untouched(init, t) && !Contains(last, t) by {
        assert subs == init + [last];
        UntouchedSnoc(init, last, t);
      }
    }
  }

  /** Every result interval lies inside an input interval and overlaps no subtractor. */
  lemma {:induction false} SubtractAllSound(ivs: seq<Interval>, subs: seq<Interval>, p: Interval)
    requires p in SubtractAll(ivs, subs)
    ensures exists q :: q in ivs && Within(p, q)
    ensures forall s :: s in subs ==> !Overlaps(p, s)
  {
    if subs == [] {
      assert Within(p, p);
    } else {
      var init := subs[..|subs| - 1];
      var last := subs[|subs| - 1];
      FromEachMembers(SubtractAll(ivs, init), last, p);
      var q :| q in SubtractAll(ivs, init) && p in SubtractInterval(q, last);
      SubtractAllSound(ivs, init, q);
      var q0 :| q0 in ivs && Within(q, q0);
      assert Within(p, q0);
      forall s | s in subs ensures !Overlaps(p, s) {
        if s != last {
          assert s in init;
          WithinKeepsApart(p, q, s);
        }
      }
    }
  }

  /** Shrinking an interval can only remove overlaps. */
  lemma WithinKeepsApart(inner: Interval, outer: Interval, other: Interval)
    requires Within(inner, outer) && !Overlaps(outer, other)
    ensures !Overlaps(inner, other)
  {
  }

  lemma {:induction false} EmptyStaysEmpty(ivs: seq<Interval>, subs: seq<Interval>, i: int)
    requires 0 <= i <= |subs| && SubtractAll(ivs, subs[..i]) == []
    ensures SubtractAll(ivs, subs) == []
    decreases |subs| - i
  {
    if i == |subs| {
      assert subs[..i] == subs;
    } else {
      assert subs[..i + 1][..i] == subs[..i];
      assert SubtractFromEach([], subs[i]) == [];
      EmptyStaysEmpty(ivs, subs, i + 1);
    }
  }

  lemma FromEachStep(ivs: seq<Interval>, sub: Interval, j: int)
    requires 0 <= j < |ivs|
    ensures SubtractFromEach(ivs[..j + 1], sub) == SubtractFromEach(ivs[..j], sub) + SubtractInterval(ivs[j], sub)
  {
    assert ivs[..j + 1][..j] == ivs[..j];
  }

  lemma SubtractAllStep(ivs: seq<Interval>, subs: seq<Interval>, i: int)
    requires 0 <= i < |subs|
    ensures SubtractAll(ivs, subs[..i + 1]) == SubtractFromEach(SubtractAll(ivs, subs[..i]), subs[i])
  {
    assert subs[..i + 1][..i] == subs[..i];
  }

  /** The inner loop of `subtractIntervals`: every remaining interval replaced by its pieces. */
  method SubtractFromAll(intervals: seq<Interval>, subtractor: Interval) returns (next: seq<Interval>)
    ensures next == SubtractFromEach(intervals, subtractor)
  {
    next := [];
    for j := 0 to |intervals|
      invariant next == SubtractFromEach(intervals[..j], subtractor)
    {
      FromEachStep(intervals, subtractor, j);
      next := next + SubtractInterval(intervals[j], subtractor);
    }
    assert intervals[..|intervals|] == intervals;
  }

  /** `subtractIntervals`: for each subtractor in ascending order of start, every remaining
      interval is replaced by its pieces; the walk stops once nothing remains. */
  method SubtractIntervals(intervals: seq<Interval>, subtractors: seq<Interval>) returns (result: seq<Interval>)
    ensures result == SubtractionOf(intervals, subtractors)
  {
    if |intervals| == 0 || |subtractors| == 0 {
      return intervals;
    }
    var sorted := SortByStart(subtractors);
    result := intervals;
    for i := 0 to |sorted|
      invariant result == SubtractAll(intervals, sorted[..i])
    {
      SubtractAllStep(intervals, sorted, i);
      result := SubtractFromAll(result, sorted[i]);
      if |result| == 0 {
        EmptyStaysEmpty(intervals, sorted, i + 1);
        return;
      }
    }
    assert sorted[..|sorted|] == sorted;
  }

  /** `subtractIntervals` keeps exactly the instants of the intervals that no subtractor holds,
      whatever the subtractors' order. */
  lemma SubtractionCovers(ivs: seq<Interval>, subs: seq<Interval>, t: int)
    ensures Covered(SubtractionOf(ivs, subs), t) <==> Covered(ivs, t) && Untouched(subs, t)
  {
    if ivs != [] && subs != [] {
      var sorted := SortByStart(subs);
      SubtractAllCovers(ivs, sorted, t);
      forall s ensures s in sorted <==> s in subs {
        Sorting.SameElements(sorted, subs, s);
      }
    }
  }

  /** Every interval `subtractIntervals` returns lies inside one of the intervals and overlaps
      none of the subtractors. */
  lemma SubtractionSound(ivs: seq<Interval>, subs: seq<Interval>, p: Interval)
    requires p in SubtractionOf(ivs, subs)
    ensures exists q :: q in ivs && Within(p, q)
    ensures forall s :: s in subs ==> !Overlaps(p, s)
  {
    if ivs == [] || subs == [] {
      assert Within(p, p);
    } else {
      var sorted := SortByStart(subs);
      SubtractAllSound(ivs, sorted, p);
      forall s | s in subs ensures !Overlaps(p, s) {
        Sorting.SameElements(sorted, subs, s);
      }
    }
  }
}
