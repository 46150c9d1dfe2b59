/**
 The gaps between chunks are exact: ordered, maximal, and together with the chunks a partition
 of `0..total`. From this follow the gap form of the allocation check and what a complete plan
 has downloaded.
 */
module PlannerGaps {
  import opened OrderedKeys
  import opened Planner
  import opened PlannerLaws

  // ----- Sums over chunks

  type Measure = ChunkState -> nat

  function AllocatedLen(c: ChunkState): nat { c.span.Len() }

  function DownloadedLen(c: ChunkState): nat { c.downloaded.Len() }

  /** The sum of a measure over all chunks. */
  ghost function Sum(chunks: map<nat, ChunkState>, f: Measure): nat
    decreases |chunks|
  {
    if chunks == map[] then 0 else
      var k :| k in chunks;
      f(chunks[k]) + Sum(chunks - {k}, f)
  }

  lemma {:induction false} SumRemove(chunks: map<nat, ChunkState>, f: Measure, k: nat)
    requires k in chunks
    ensures Sum(chunks, f) == f(chunks[k]) + Sum(chunks - {k}, f)
    decreases |chunks|
  {
    var j :| j in chunks && Sum(chunks, f) == f(chunks[j]) + Sum(chunks - {j}, f);
    if j != k {
      SumRemove(chunks - {j}, f, k);
      SumRemove(chunks - {k}, f, j);
      assert chunks - {j} - {k} == chunks - {k} - {j};
    }
  }

  function SumAlong(chunks: map<nat, ChunkState>, keys: seq<nat>, f: Measure): nat
    requires forall k | k in keys :: k in chunks
  {
    if keys == [] then 0 else f(chunks[keys[0]]) + SumAlong(chunks, keys[1..], f)
  }

  lemma {:induction false} SumAlongIgnoresOthers(chunks: map<nat, ChunkState>, more: map<nat, ChunkState>,
      keys: seq<nat>, f: Measure)
    requires forall k | k in keys :: k in chunks && k in more && chunks[k] == more[k]
    ensures SumAlong(chunks, keys, f) == SumAlong(more, keys, f)
  {
    if keys != [] {
      SumAlongIgnoresOthers(chunks, more, keys[1..], f);
    }
  }

  /** The unordered sum is the sum taken in key order. */
  lemma {:induction false} SumInOrder(chunks: map<nat, ChunkState>, keys: seq<nat>, f: Measure)
    requires Ascending(keys)
    requires forall k :: k in keys <==> k in chunks
    ensures Sum(chunks, f) == SumAlong(chunks, keys, f)
    decreases |keys|
  {
    if keys == [] {
      assert chunks == map[];
    } else {
      var rest := chunks - {keys[0]};
      forall k ensures k in keys[1..] <==> k in rest {
        assert k in keys <==> k == keys[0] || k in keys[1..];
      }
      SumInOrder(rest, keys[1..], f);
      SumAlongIgnoresOthers(rest, chunks, keys[1..], f);
      SumRemove(chunks, f, keys[0]);
    }
  }

  /** Emptying one chunk's downloaded part. */
  lemma ClearBytes(chunks: map<nat, ChunkState>, total: nat, k: nat)
    requires WellFormed(chunks, total) && PairwiseDisjoint(chunks) && k in chunks
    ensures |DownloadedBytes(chunks)| == DownloadedLen(chunks[k]) + |DownloadedBytes(chunks - {k})|
  {
    var c, none := chunks[k], chunks[k].(downloaded := Range(k, k));
    var rest := chunks - {k};
    var base := rest[k := none];
    assert base == chunks[k := none] && base[k := c] == chunks;
    ShrinkKeepsOrder(chunks, total, k, none);
    InsertNoBytes(rest, k, none);
    GrowBytes(base, total, k, c);
  }

  /** The accepted bytes are the sum of the downloaded lengths. */
  lemma {:induction false} SumIsCount(chunks: map<nat, ChunkState>, total: nat)
    requires WellFormed(chunks, total) && PairwiseDisjoint(chunks)
    ensures Sum(chunks, DownloadedLen) == |DownloadedBytes(chunks)|
    decreases |chunks|
  {
    if chunks == map[] {
      assert DownloadedBytes(chunks) == {};
    } else {
      var k :| k in chunks;
      ClearBytes(chunks, total, k);
      SumIsCount(chunks - {k}, total);
      SumRemove(chunks, DownloadedLen, k);
    }
  }

  // ----- Gaps

  ghost predicate InSome(ranges: seq<Range>, b: nat) {
    exists i :: 0 <= i < |ranges| && ranges[i].Contains(b)
  }

  function SumLen(ranges: seq<Range>): nat {
    if ranges == [] then 0 else ranges[0].Len() + SumLen(ranges[1..])
  }

  lemma {:induction false} SumLenConcat(a: seq<Range>, b: seq<Range>)
    ensures SumLen(a + b) == SumLen(a) + SumLen(b)
  {
    if a == [] {
      assert a + b == b;
    } else {
      assert (a + b)[1..] == a[1..] + b;
      SumLenConcat(a[1..], b);
    }
  }

  /** Non-empty ranges in ascending order with at least one byte between neighbours. */
  ghost predicate Separated(ranges: seq<Range>) {
    && (forall i | 0 <= i < |ranges| :: ranges[i].start < ranges[i].end)
    && (forall i, j | 0 <= i < j < |ranges| :: ranges[i].end < ranges[j].start)
  }

  /** `keys` are chunks of `chunks` in order, all at or after `cursor`. */
  ghost predicate Suffix(chunks: map<nat, ChunkState>, keys: seq<nat>, cursor: nat, total: nat) {
    && cursor <= total
    && (forall k | k in keys :: k in chunks && cursor <= k && chunks[k].WellFormed(k, total))
    && (forall i, j | 0 <= i < j < |keys| :: chunks[keys[i]].span.end <= keys[j])
  }

  lemma SuffixTail(chunks: map<nat, ChunkState>, keys: seq<nat>, cursor: nat, total: nat)
    requires Suffix(chunks, keys, cursor, total) && keys != []
    ensures Suffix(chunks, keys[1..], chunks[keys[0]].span.end, total)
  {
    forall k | k in keys[1..] ensures chunks[keys[0]].span.end <= k {
      var j :| 0 <= j < |keys[1..]| && keys[1..][j] == k;
      assert keys[j + 1] == k;
    }
  }

  lemma InOrderSuffix(p: Plan)
    requires Inv(p)
    ensures Suffix(p.chunks, InOrder(p.chunks.Keys), 0, p.total)
  {
    var keys := InOrder(p.chunks.Keys);
    InOrderAscends(p.chunks.Keys);
    forall i, j | 0 <= i < j < |keys| ensures p.chunks[keys[i]].span.end <= keys[j] {
      assert keys[i] in p.chunks.Keys && keys[j] in p.chunks.Keys;
    }
  }

  lemma {:induction false} GapsSeparated(chunks: map<nat, ChunkState>, keys: seq<nat>, cursor: nat, total: nat)
    requires Suffix(chunks, keys, cursor, total)
    ensures Separated(GapsFrom(chunks, keys, cursor, total))
    ensures forall i | 0 <= i < |GapsFrom(chunks, keys, cursor, total)| ::
              cursor <= GapsFrom(chunks, keys, cursor, total)[i].start
              && GapsFrom(chunks, keys, cursor, total)[i].end <= total
    decreases |keys|
  {
    if keys != [] {
      var c := chunks[keys[0]];
      SuffixTail(chunks, keys, cursor, total);
      GapsSeparated(chunks, keys[1..], c.span.end, total);
      var tail := GapsFrom(chunks, keys[1..], c.span.end, total);
      var head := if cursor < c.span.start then [Range(cursor, c.span.start)] else [];
      assert GapsFrom(chunks, keys, cursor, total) == head + tail;
    }
  }

  /** A gap reaches as far as it can: to the next chunk or the end. */
  ghost predicate ReachesOut(chunks: map<nat, ChunkState>, cursor: nat, total: nat, gap: Range) {
    && (gap.end == total || gap.end in chunks)
    && (gap.start == cursor || exists k :: k in chunks && chunks[k].span.end == gap.start)
  }

  lemma {:induction false} GapsMaximal(chunks: map<nat, ChunkState>, keys: seq<nat>, cursor: nat, total: nat)
    requires Suffix(chunks, keys, cursor, total)
    ensures forall i | 0 <= i < |GapsFrom(chunks, keys, cursor, total)| ::
              ReachesOut(chunks, cursor, total, GapsFrom(chunks, keys, cursor, total)[i])
    decreases |keys|
  {
    if keys != [] {
      var c := chunks[keys[0]];
      SuffixTail(chunks, keys, cursor, total);
      GapsMaximal(chunks, keys[1..], c.span.end, total);
      var tail := GapsFrom(chunks, keys[1..], c.span.end, total);
      var all := GapsFrom(chunks, keys, cursor, total);
      var head := if cursor < c.span.start then [Range(cursor, c.span.start)] else [];
      assert all == head + tail;
      forall i | 0 <= i < |all| ensures ReachesOut(chunks, cursor, total, all[i]) {
        if i < |head| {
          assert all[i] == Range(cursor, keys[0]);
        } else {
          assert all[i] == tail[i - |head|];
        }
      }
    }
  }

  ghost predicate InSomeChunk(chunks: map<nat, ChunkState>, keys: seq<nat>, b: nat)
    requires forall k | k in keys :: k in chunks
  {
    exists i :: 0 <= i < |keys| && chunks[keys[i]].span.Contains(b)
  }

  lemma InSomeConcat(a: seq<Range>, b: seq<Range>, x: nat)
    ensures InSome(a + b, x) <==> InSome(a, x) || InSome(b, x)
  {
    if InSome(a, x) {
      var i :| 0 <= i < |a| && a[i].Contains(x);
      assert (a + b)[i] == a[i];
    }
    if InSome(b, x) {
      var i :| 0 <= i < |b| && b[i].Contains(x);
      assert (a + b)[|a| + i] == b[i];
    }
  }

  lemma InSomeChunkCons(chunks: map<nat, ChunkState>, keys: seq<nat>, x: nat)
    requires keys != [] && forall k | k in keys :: k in chunks
    ensures InSomeChunk(chunks, keys, x) <==> chunks[keys[0]].span.Contains(x) || InSomeChunk(chunks, keys[1..], x)
  {
    if InSomeChunk(chunks, keys[1..], x) {
      var i :| 0 <= i < |keys[1..]| && chunks[keys[1..][i]].span.Contains(x);
      assert keys[i + 1] == keys[1..][i];
    }
    if InSomeChunk(chunks, keys, x) {
      var i :| 0 <= i < |keys| && chunks[keys[i]].span.Contains(x);
      assert i > 0 ==> keys[1..][i - 1] == keys[i];
    }
  }

  /** Nothing of a suffix lies before its cursor. */
  lemma NothingBefore(chunks: map<nat, ChunkState>, keys: seq<nat>, cursor: nat, total: nat, x: nat)
    requires Suffix(chunks, keys, cursor, total) && x < cursor
    ensures !InSome(GapsFrom(chunks, keys, cursor, total), x) && !InSomeChunk(chunks, keys, x)
  {
    GapsSeparated(chunks, keys, cursor, total);
    forall i | 0 <= i < |keys| ensures !chunks[keys[i]].span.Contains(x) {
      assert keys[i] in keys;
    }
  }

  /** Every byte from the cursor on is in a gap or in a chunk, and never in both. */
  lemma {:induction false} GapsPartition(chunks: map<nat, ChunkState>, keys: seq<nat>, cursor: nat, total: nat, b: nat)
    requires Suffix(chunks, keys, cursor, total) && cursor <= b < total
    ensures InSome(GapsFrom(chunks, keys, cursor, total), b) <==> !InSomeChunk(chunks, keys, b)
    decreases |keys|
  {
    if keys == [] {
      assert GapsFrom(chunks, keys, cursor, total)[0].Contains(b);
    } else {
      var c := chunks[keys[0]];
      SuffixTail(chunks, keys, cursor, total);
      var head := if cursor < c.span.start then [Range(cursor, c.span.start)] else [];
      InSomeConcat(head, GapsFrom(chunks, keys[1..], c.span.end, total), b);
      InSomeChunkCons(chunks, keys, b);
      if c.span.end <= b {
        GapsPartition(chunks, keys[1..], c.span.end, total, b);
      } else {
        NothingBefore(chunks, keys[1..], c.span.end, total, b);
        assert b < c.span.start ==> head[0].Contains(b);
      }
    }
  }

  /** The gaps' lengths and the chunks' lengths add up. */
  lemma {:induction false} GapsFillUp(chunks: map<nat, ChunkState>, keys: seq<nat>, cursor: nat, total: nat)
    requires Suffix(chunks, keys, cursor, total)
    ensures SumLen(GapsFrom(chunks, keys, cursor, total)) + SumAlong(chunks, keys, AllocatedLen) == total - cursor
    decreases |keys|
  {
    if keys != [] {
      var c := chunks[keys[0]];
      SuffixTail(chunks, keys, cursor, total);
      GapsFillUp(chunks, keys[1..], c.span.end, total);
      var head := if cursor < c.span.start then [Range(cursor, c.span.start)] else [];
      SumLenConcat(head, GapsFrom(chunks, keys[1..], c.span.end, total));
    }
  }

  // ----- Main results

  /** The gaps are ordered, maximal, and with the chunks partition `0..total`. */
  lemma GapsExact(p: Plan)
    requires Inv(p)
    ensures Separated(Gaps(p))
    ensures forall i | 0 <= i < |Gaps(p)| :: ReachesOut(p.chunks, 0, p.total, Gaps(p)[i])
    ensures forall b: nat :: InSome(Gaps(p), b) <==> b < p.total && !Allocated(p, b)
    ensures SumLen(Gaps(p)) + Sum(p.chunks, AllocatedLen) == p.total
  {
    var keys := InOrder(p.chunks.Keys);
    InOrderSuffix(p);
    GapsSeparated(p.chunks, keys, 0, p.total);
    GapsMaximal(p.chunks, keys, 0, p.total);
    GapsFillUp(p.chunks, keys, 0, p.total);
    InOrderAscends(p.chunks.Keys);
    SumInOrder(p.chunks, keys, AllocatedLen);
    forall b: nat ensures InSome(Gaps(p), b) <==> b < p.total && !Allocated(p, b) {
      if b < p.total {
        GapsPartition(p.chunks, keys, 0, p.total, b);
        if Allocated(p, b) {
          var k :| k in p.chunks && p.chunks[k].span.Contains(b);
          assert k in keys;
          assert InSomeChunk(p.chunks, keys, b);
        }
        if InSomeChunk(p.chunks, keys, b) {
          var i :| 0 <= i < |keys| && p.chunks[keys[i]].span.Contains(b);
          assert keys[i] in p.chunks.Keys;
        }
      }
    }
  }

  ghost predicate InsideGap(p: Plan, range: Range, i: nat) {
    i < |Gaps(p)| && Gaps(p)[i].start <= range.start && range.end <= Gaps(p)[i].end
  }

  lemma FreeRangeHasGap(p: Plan, range: Range) returns (i: nat)
    requires Inv(p) && range.start < range.end <= p.total
    requires forall k | k in p.chunks :: p.chunks[k].span.Disjoint(range)
    ensures InsideGap(p, range, i)
  {
    assert !Allocated(p, range.start);
    assert InSome(Gaps(p), range.start) by { GapsExact(p); }
    i :| 0 <= i < |Gaps(p)| && Gaps(p)[i].Contains(range.start);
    assert ReachesOut(p.chunks, 0, p.total, Gaps(p)[i]) by { GapsExact(p); }
    var end := Gaps(p)[i].end;
    assert end in p.chunks ==> p.chunks[end].span.Contains(end);
  }

  lemma GapIsFree(p: Plan, range: Range, i: nat, k: nat)
    requires Inv(p) && range.start < range.end && InsideGap(p, range, i) && k in p.chunks
    ensures p.chunks[k].span.Disjoint(range)
  {
    var b := if k < range.start then range.start else k;
    if Gaps(p)[i].Contains(b) {
      assert InSome(Gaps(p), b);
      assert !Allocated(p, b) by { GapsExact(p); }
    }
  }

  lemma GapEndsInside(p: Plan, i: nat)
    requires Inv(p) && i < |Gaps(p)|
    ensures Gaps(p)[i].end <= p.total
  {
    InOrderSuffix(p);
    GapsSeparated(p.chunks, InOrder(p.chunks.Keys), 0, p.total);
  }

  /** With room left, a range is accepted exactly when it is non-empty and lies inside one gap. */
  lemma AcceptsIffInOneGap(p: Plan, range: Range)
    requires Inv(p) && HasRoom(p)
    ensures Accepts(p, range) <==> range.start < range.end && exists i :: InsideGap(p, range, i)
  {
    AcceptsIffDisjoint(p, range);
    if Accepts(p, range) {
      var i := FreeRangeHasGap(p, range);
    }
    if range.start < range.end && exists i :: InsideGap(p, range, i) {
      var i :| InsideGap(p, range, i);
      GapEndsInside(p, i);
      forall k | k in p.chunks ensures p.chunks[k].span.Disjoint(range) {
        GapIsFree(p, range, i, k);
      }
    }
  }

  lemma {:induction false} SumsAgree(chunks: map<nat, ChunkState>, f: Measure, g: Measure)
    requires forall k | k in chunks :: f(chunks[k]) == g(chunks[k])
    ensures Sum(chunks, f) == Sum(chunks, g)
    decreases |chunks|
  {
    if chunks != map[] {
      var k :| k in chunks;
      SumsAgree(chunks - {k}, f, g);
      SumRemove(chunks, f, k);
      SumRemove(chunks, g, k);
    }
  }

  /** There is no gap exactly when every byte is allocated. */
  lemma NoGapsIffAllocated(p: Plan)
    requires Inv(p)
    ensures Gaps(p) == [] <==> forall b: nat | b < p.total :: Allocated(p, b)
  {
    GapsExact(p);
    if Gaps(p) != [] {
      var b := Gaps(p)[0].start;
      assert Gaps(p)[0].Contains(b);
      assert InSome(Gaps(p), b);
    }
    if b: nat :| b < p.total && !Allocated(p, b) {
      assert InSome(Gaps(p), b);
    }
  }

  lemma NoGapMeansAllocated(p: Plan, b: nat)
    requires Inv(p) && Gaps(p) == [] && b < p.total
    ensures Allocated(p, b)
  {
    GapsExact(p);
    assert !InSome(Gaps(p), b);
  }

  lemma FullChunks(chunks: map<nat, ChunkState>, total: nat)
    requires WellFormed(chunks, total) && PairwiseDisjoint(chunks)
    requires forall k | k in chunks :: chunks[k].IsComplete()
    ensures |DownloadedBytes(chunks)| == Sum(chunks, AllocatedLen)
    ensures forall k | k in chunks :: chunks[k].downloaded == chunks[k].span
  {
    SumIsCount(chunks, total);
    SumsAgree(chunks, AllocatedLen, DownloadedLen);
  }

  /** A plan without gaps whose chunks are all fully downloaded has downloaded every byte, once. */
  lemma CompleteMeansEverything(p: Plan)
    requires Inv(p) && Gaps(p) == []
    requires forall k | k in p.chunks :: p.chunks[k].IsComplete()
    ensures p.accepted == p.total
    ensures forall b: nat | b < p.total :: Downloaded(p, b)
  {
    assert Sum(p.chunks, AllocatedLen) == p.total by { GapsExact(p); }
    FullChunks(p.chunks, p.total);
    forall b: nat | b < p.total ensures Downloaded(p, b) {
      NoGapMeansAllocated(p, b);
    }
  }
}
