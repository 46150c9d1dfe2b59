/**
 Merging byte ranges for progress reports: the merged ranges hold the same bytes, are sorted, and
 have real gaps between them.
 */
module RangeMerging {
  import opened Planner
  import opened PlannerGaps

  /** Ranges in ascending order of their starts. */
  ghost predicate StartsAscend(ranges: seq<Range>) {
    forall i, j | 0 <= i < j < |ranges| :: ranges[i].start <= ranges[j].start
  }

  /** Sorted, and every range ends before the next one starts. */
  ghost predicate GapsBetween(ranges: seq<Range>) {
    && StartsAscend(ranges)
    && forall i, j | 0 <= i < j < |ranges| :: ranges[i].end < ranges[j].start
  }

  /** Non-empty, pairwise disjoint ranges in any order. */
  ghost predicate NoOverlap(ranges: seq<Range>) {
    && (forall i | 0 <= i < |ranges| :: ranges[i].start < ranges[i].end)
    && (forall i, j | 0 <= i < j < |ranges| :: ranges[i].Disjoint(ranges[j]))
  }

  /** The stable insertion behind `sort_by_key(|r| r.start)`. */
  function InsertByStart(r: Range, sorted: seq<Range>): (s: seq<Range>)
    ensures |s| == |sorted| + 1
    ensures multiset(s) == multiset{r} + multiset(sorted)
  {
    if sorted == [] || r.start <= sorted[0].start then
      [r] + sorted
    else
      assert sorted == [sorted[0]] + sorted[1..];
      [sorted[0]] + InsertByStart(r, sorted[1..])
  }

  function SortByStart(ranges: seq<Range>): (s: seq<Range>)
    ensures |s| == |ranges|
    ensures multiset(s) == multiset(ranges)
  {
    if ranges == [] then [] else
      assert ranges == [ranges[0]] + ranges[1..];
      InsertByStart(ranges[0], SortByStart(ranges[1..]))
  }

  lemma {:induction false} InsertKeepsOrder(r: Range, sorted: seq<Range>)
    requires StartsAscend(sorted)
    ensures StartsAscend(InsertByStart(r, sorted))
    ensures SumLen(InsertByStart(r, sorted)) == r.Len() + SumLen(sorted)
  {
    if sorted == [] || r.start <= sorted[0].start {
      assert ([r] + sorted)[1..] == sorted;
    } else {
      InsertKeepsOrder(r, sorted[1..]);
      var tail := InsertByStart(r, sorted[1..]);
      assert ([sorted[0]] + tail)[1..] == tail;
      forall x | x in tail ensures sorted[0].start <= x.start {
        assert x in multiset(tail);
        assert x == r || x in sorted[1..];
      }
      PrependKeepsOrder(sorted[0], tail);
    }
  }

  lemma PrependKeepsOrder(r: Range, tail: seq<Range>)
    requires StartsAscend(tail) && forall x | x in tail :: r.start <= x.start
    ensures StartsAscend([r] + tail)
  {
    assert forall i | 0 <= i < |tail| :: tail[i] in tail;
  }

  lemma {:induction false} SortSorts(ranges: seq<Range>)
    ensures StartsAscend(SortByStart(ranges))
    ensures SumLen(SortByStart(ranges)) == SumLen(ranges)
  {
    if ranges != [] {
      SortSorts(ranges[1..]);
      InsertKeepsOrder(ranges[0], SortByStart(ranges[1..]));
    }
  }

  lemma SameBytes(a: seq<Range>, b: seq<Range>, x: nat)
    requires multiset(a) == multiset(b) && InSome(a, x)
    ensures InSome(b, x)
  {
    var i :| 0 <= i < |a| && a[i].Contains(x);
    assert a[i] in multiset(b);
    var j :| 0 <= j < |b| && b[j] == a[i];
  }

  /** Two disjoint positions stay disjoint wherever sorting puts them. */
  lemma {:induction false} NoOverlapPermutes(a: seq<Range>, b: seq<Range>)
    requires multiset(a) == multiset(b) && NoOverlap(a)
    ensures NoOverlap(b)
  {
    forall i | 0 <= i < |b| ensures b[i].start < b[i].end {
      assert b[i] in multiset(a);
    }
    forall i, j | 0 <= i < j < |b| ensures b[i].Disjoint(b[j]) {
      if b[i] == b[j] {
        assert multiset(b)[b[i]] >= 2 by {
          assert b == b[..j] + [b[j]] + b[j + 1..];
          assert b[..j][i] == b[i];
          assert b[i] in multiset(b[..j]);
        }
        TwoPositions(a, b[i]);
      } else {
        assert b[i] in multiset(a) && b[j] in multiset(a);
        var k :| 0 <= k < |a| && a[k] == b[i];
        var l :| 0 <= l < |a| && a[l] == b[j];
      }
    }
  }

  lemma TwoPositions(a: seq<Range>, r: Range)
    requires multiset(a)[r] >= 2
    ensures exists i, j :: 0 <= i < j < |a| && a[i] == r && a[j] == r
  {
    assert r in multiset(a);
    var i :| 0 <= i < |a| && a[i] == r;
    var rest := a[..i] + a[i + 1..];
    assert a == a[..i] + [a[i]] + a[i + 1..];
    assert multiset(rest)[r] >= 1;
    assert r in multiset(rest);
    var j :| 0 <= j < |rest| && rest[j] == r;
    if j < i {
      assert a[j] == r;
    } else {
      assert a[j + 1] == r;
    }
  }

  lemma SumLenSnoc(ranges: seq<Range>, r: Range)
    ensures SumLen(ranges + [r]) == SumLen(ranges) + r.Len()
  {
    SumLenConcat(ranges, [r]);
  }

  lemma InSomeOne(r: Range, x: nat)
    ensures InSome([r], x) <==> r.Contains(x)
  {
    assert [r][0] == r;
  }

  /** What the loop makes of the merged ranges and the next one. */
  ghost function MergedWith(merged: seq<Range>, r: Range): seq<Range>
    requires merged != []
  {
    var last := merged[|merged| - 1];
    if last.end >= r.start
    then merged[..|merged| - 1] + [Range(last.start, if last.end > r.end then last.end else r.end)]
    else merged + [r]
  }

  lemma MergedBytes(merged: seq<Range>, r: Range, x: nat)
    requires merged != [] && merged[|merged| - 1].start <= r.start
    ensures InSome(MergedWith(merged, r), x) <==> InSome(merged, x) || r.Contains(x)
  {
    var front, last := merged[..|merged| - 1], merged[|merged| - 1];
    assert merged == front + [last];
    InSomeConcat(front, [last], x);
    InSomeOne(last, x);
    InSomeOne(r, x);
    var wide := Range(last.start, if last.end > r.end then last.end else r.end);
    InSomeConcat(front, [wide], x);
    InSomeOne(wide, x);
    InSomeConcat(merged, [r], x);
  }

  lemma MergedLength(merged: seq<Range>, r: Range)
    requires merged != [] && merged[|merged| - 1].start < merged[|merged| - 1].end <= r.start < r.end
    ensures SumLen(MergedWith(merged, r)) == SumLen(merged) + r.Len()
  {
    var front, last := merged[..|merged| - 1], merged[|merged| - 1];
    assert merged == front + [last];
    SumLenSnoc(front, last);
    SumLenSnoc(front, Range(last.start, r.end));
    SumLenSnoc(merged, r);
  }

  /** What holds of the merged form of the sorted ranges seen so far. */
  ghost predicate Merges(merged: seq<Range>, seen: seq<Range>) {
    && merged != [] && seen != []
    && merged[|merged| - 1].start <= seen[|seen| - 1].start
    && (forall x: nat :: InSome(merged, x) <==> InSome(seen, x))
    && GapsBetween(merged)
    && (NoOverlap(seen) ==>
          && SumLen(merged) == SumLen(seen)
          && merged[|merged| - 1].start < merged[|merged| - 1].end == seen[|seen| - 1].end)
  }

  lemma MergeStepBytes(merged: seq<Range>, seen: seq<Range>, r: Range, x: nat)
    requires merged != [] && merged[|merged| - 1].start <= r.start && (InSome(merged, x) <==> InSome(seen, x))
    ensures InSome(MergedWith(merged, r), x) <==> InSome(seen + [r], x)
  {
    MergedBytes(merged, r, x);
    InSomeConcat(seen, [r], x);
    InSomeOne(r, x);
  }

  lemma MergeStepGaps(merged: seq<Range>, r: Range)
    requires merged != [] && GapsBetween(merged) && merged[|merged| - 1].start <= r.start
    ensures GapsBetween(MergedWith(merged, r)) && MergedWith(merged, r)[|MergedWith(merged, r)| - 1].start <= r.start
  {
  }

  lemma MergeStep(merged: seq<Range>, seen: seq<Range>, r: Range)
    requires Merges(merged, seen) && StartsAscend(seen + [r])
    ensures Merges(MergedWith(merged, r), seen + [r])
  {
    var more := seen + [r];
    assert more[|seen| - 1].start <= more[|seen|].start;
    forall x: nat ensures InSome(MergedWith(merged, r), x) <==> InSome(more, x) {
      MergeStepBytes(merged, seen, r, x);
    }
    MergeStepGaps(merged, r);
    if NoOverlap(more) {
      SeenStaysApart(seen, r);
      MergedLength(merged, r);
      SumLenSnoc(seen, r);
    }
  }

  lemma SeenStaysApart(seen: seq<Range>, r: Range)
    requires seen != [] && NoOverlap(seen + [r]) && StartsAscend(seen + [r])
    ensures NoOverlap(seen) && seen[|seen| - 1].end <= r.start < r.end
  {
    var more := seen + [r];
    assert forall i | 0 <= i < |seen| :: more[i] == seen[i];
    assert more[|seen|] == r;
    assert more[|seen| - 1].Disjoint(more[|seen|]);
  }

  ghost function MergeAll(sorted: seq<Range>): (merged: seq<Range>)
    requires sorted != []
    ensures merged != []
  {
    if |sorted| == 1 then sorted else MergedWith(MergeAll(sorted[..|sorted| - 1]), sorted[|sorted| - 1])
  }

  lemma {:induction false} MergeAllMerges(sorted: seq<Range>)
    requires sorted != [] && StartsAscend(sorted)
    ensures Merges(MergeAll(sorted), sorted)
  {
    if |sorted| > 1 {
      var front, r := sorted[..|sorted| - 1], sorted[|sorted| - 1];
      assert sorted == front + [r];
      MergeAllMerges(front);
      MergeStep(MergeAll(front), front, r);
    }
  }

  lemma SortedBytes(ranges: seq<Range>)
    ensures forall x: nat :: InSome(SortByStart(ranges), x) <==> InSome(ranges, x)
  {
    forall x: nat ensures InSome(SortByStart(ranges), x) <==> InSome(ranges, x) {
      if InSome(ranges, x) { SameBytes(ranges, SortByStart(ranges), x); }
      if InSome(SortByStart(ranges), x) { SameBytes(SortByStart(ranges), ranges, x); }
    }
  }

  /** The merged form of any ranges: the same bytes, sorted, with real gaps, nothing counted twice. */
  lemma MergedIsExact(ranges: seq<Range>)
    requires ranges != []
    ensures var merged := MergeAll(SortByStart(ranges));
            && (forall x: nat :: InSome(merged, x) <==> InSome(ranges, x))
            && GapsBetween(merged)
            && (NoOverlap(ranges) ==> SumLen(merged) == SumLen(ranges))
  {
    SortSorts(ranges);
    MergeAllMerges(SortByStart(ranges));
    SortedBytes(ranges);
    if NoOverlap(ranges) {
      NoOverlapPermutes(ranges, SortByStart(ranges));
    }
  }

  method MergeAdjacentRanges(ranges: seq<Range>) returns (merged: seq<Range>)
    ensures forall x: nat :: InSome(merged, x) <==> InSome(ranges, x)
    ensures GapsBetween(merged)
    ensures NoOverlap(ranges) ==> SumLen(merged) == SumLen(ranges)
  {
    if ranges == [] {
      return ranges;
    }
    var sorted := SortByStart(ranges);
    merged := [sorted[0]];
    assert sorted[..1] == [sorted[0]];
    for i := 1 to |sorted|
      invariant merged == MergeAll(sorted[..i])
    {
      var range := sorted[i];
      var last := merged[|merged| - 1];
      assert sorted[..i + 1][..i] == sorted[..i];
      if last.end >= range.start {
        merged := merged[..|merged| - 1] + [Range(last.start, if last.end > range.end then last.end else range.end)];
      } else {
        merged := merged + [range];
      }
    }
    assert sorted[..|sorted|] == sorted;
    MergedIsExact(ranges);
  }
}
