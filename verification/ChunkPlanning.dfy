/**
 The chunk planner as an object: its maps and counter change in place, each method computing one
 transition of `Planner` and keeping the representation invariant.
 */
module ChunkPlanning {
  import opened Wrappers
  import opened Numbers
  import opened OrderedKeys
  import opened Planner
  import opened PlannerLaws
  import opened PlannerGaps
  import opened RangeMerging

  class ChunkPlanner {
    const total: nat
    var minChunkSize: nat
    var maxChunkCount: Option<nat>
    var chunks: map<nat, ChunkState>
    var runnerToChunk: map<RunnerId, nat>
    var acceptedBytes: nat

    ghost function View(): Plan
      reads this
    {
      Plan(total, minChunkSize, maxChunkCount, chunks, runnerToChunk, acceptedBytes)
    }

    ghost predicate Valid()
      reads this
    {
      Inv(View())
    }

    constructor (total: nat)
      requires total <= U64_MAX
      ensures View() == NewPlan(total) && Valid()
    {
      this.total := total;
      minChunkSize := 1024 * 1024;
      maxChunkCount := None;
      chunks := map[];
      runnerToChunk := map[];
      acceptedBytes := 0;
    }

    /** Allocate a pending chunk for a runner, or an idle one for nobody. */
    method AllocateChunk(range: Range, runner: Option<RunnerId>) returns (ok: bool)
      requires Valid()
      modifies this
      ensures ok == Accepts(old(View()), range)
      ensures View() == Allocate(old(View()), range, runner, if runner.Some? then Pending else Idle)
      ensures Valid() <==> !ok || runner.None? || Reassignable(old(View()), runner.value)
    {
      match runner {
        case Some(r) =>
          AllocatePendingKeepsInv(View(), range, r);
          ok := AllocateInner(range, runner, Pending);
        case None =>
          AllocateIdleKeepsInv(View(), range);
          ok := AllocateInner(range, runner, Idle);
      }
    }

    method AllocateInner(range: Range, runner: Option<RunnerId>, status: ChunkStatus) returns (ok: bool)
      requires Valid()
      modifies this
      ensures ok == Accepts(old(View()), range)
      ensures View() == Allocate(old(View()), range, runner, status)
    {
      if range.start >= range.end || range.end > total {
        return false;
      }
      if maxChunkCount.Some? && |chunks| >= maxChunkCount.value {
        return false;
      }
      var pred := LastBelow(chunks.Keys, range.end);
      if pred.Some? && chunks[pred.value].span.end > range.start {
        return false;
      }
      chunks := chunks[range.start := NewChunk(range, runner, status)];
      if runner.Some? {
        runnerToChunk := runnerToChunk[runner.value := range.start];
      }
      return true;
    }

    /** Accept a runner's next bytes, clipped to its chunk; the accepted range is returned. */
    method UpdateProgress(r: RunnerId, bytes: nat) returns (res: Result<Range, Error>)
      requires Valid()
      modifies this
      ensures (View(), res) == Advance(old(View()), r, bytes)
      ensures Valid()
    {
      AdvanceKeepsInv(View(), r, bytes);
      res := Grow(r, bytes);
    }

    method Grow(r: RunnerId, bytes: nat) returns (res: Result<Range, Error>)
      requires WellFormed(chunks, total)
      modifies this
      ensures (View(), res) == Advance(old(View()), r, bytes)
    {
      if r !in runnerToChunk {
        return Err(RunnerNotFound(r));
      }
      var key := runnerToChunk[r];
      if key !in chunks {
        return Err(ChunkNotFound(r));
      }
      var chunk := chunks[key];
      var remaining := chunk.Remaining();
      var newEnd := chunk.downloaded.end + if bytes < remaining then bytes else remaining;
      var previousEnd := chunk.downloaded.end;
      chunk := chunk.(downloaded := Range(chunk.downloaded.start, newEnd));
      acceptedBytes := acceptedBytes + (newEnd - previousEnd);
      if chunk.IsComplete() {
        chunk := chunk.(status := Finished);
      }
      chunks := chunks[key := chunk];
      return Ok(Range(previousEnd, newEnd));
    }

    /** `pending` is what a debug build asserts: the chunk that starts was pending. */
    method SetRunning(r: RunnerId) returns (res: Result<(), Error>, pending: bool)
      requires Valid()
      modifies this
      ensures (View(), res) == MarkRunning(old(View()), r)
      ensures pending <==> (res.Ok? ==> old(chunks)[old(runnerToChunk)[r]].status == Pending)
      ensures Valid()
    {
      MarkRunningKeepsInv(View(), r);
      if r !in runnerToChunk {
        return Err(RunnerNotFound(r)), true;
      }
      var key := runnerToChunk[r];
      if key !in chunks {
        return Err(ChunkNotFound(r)), true;
      }
      pending := chunks[key].status == Pending;
      chunks := chunks[key := chunks[key].(status := Running)];
      return Ok(()), pending;
    }

    method SetFinished(r: RunnerId) returns (res: Result<(), Error>)
      requires Valid()
      modifies this
      ensures (View(), res) == MarkFinished(old(View()), r)
      ensures Valid()
    {
      MarkFinishedKeepsInv(View(), r);
      if r !in runnerToChunk {
        return Err(RunnerNotFound(r));
      }
      var key := runnerToChunk[r];
      runnerToChunk := runnerToChunk - {r};
      if key !in chunks {
        return Err(ChunkNotFound(r));
      }
      chunks := chunks[key := chunks[key].(status := Finished)];
      return Ok(());
    }

    /** Release a failed runner's chunk, keeping the downloaded part; the rest is returned. */
    method SetFailed(r: RunnerId) returns (res: Result<Range, Error>)
      requires Valid()
      modifies this
      ensures (View(), res) == MarkFailed(old(View()), r)
      ensures Valid()
    {
      MarkFailedKeepsInv(View(), r);
      res := Release(r);
    }

    method Release(r: RunnerId) returns (res: Result<Range, Error>)
      modifies this
      ensures (View(), res) == MarkFailed(old(View()), r)
    {
      if r !in runnerToChunk {
        return Err(RunnerNotFound(r));
      }
      var key := runnerToChunk[r];
      runnerToChunk := runnerToChunk - {r};
      if key !in chunks {
        return Err(ChunkNotFound(r));
      }
      var chunk := chunks[key];
      ghost var whole := chunks;
      chunks := chunks - {key};
      if chunk.downloaded.start == chunk.downloaded.end {
        return Ok(chunk.span);
      }
      var unfinished := Range(chunk.downloaded.end, chunk.span.end);
      chunk := chunk.(span := Range(chunk.span.start, chunk.downloaded.end));
      chunk := chunk.(status := Finished, runnerId := None);
      chunks := chunks[key := chunk];
      assert chunks == whole[key := chunk];
      return Ok(unfinished);
    }

    /** Cut a runner's chunk at `at` and give the second part to another runner. */
    method SplitChunk(r: RunnerId, at: nat, newcomer: RunnerId) returns (res: Result<Range, Error>)
      requires Valid()
      modifies this
      ensures (View(), res) == Split(old(View()), r, at, newcomer)
      ensures Valid() <==> res.Err? || Reassignable(old(View()), newcomer)
    {
      SplitKeepsInv(View(), r, at, newcomer);
      res := Cut(r, at, newcomer);
    }

    method Cut(r: RunnerId, at: nat, newcomer: RunnerId) returns (res: Result<Range, Error>)
      requires WellFormed(chunks, total)
      modifies this
      ensures (View(), res) == Split(old(View()), r, at, newcomer)
    {
      if r !in runnerToChunk {
        return Err(RunnerNotFound(r));
      }
      ghost var mapping, whole := runnerToChunk, chunks;
      var key := runnerToChunk[r];
      runnerToChunk := runnerToChunk - {r};
      if key !in chunks {
        return Err(ChunkNotFound(r));
      }
      var chunk := chunks[key];
      chunks := chunks - {key};
      if at <= chunk.downloaded.end || at >= chunk.span.end {
        chunks := chunks[key := chunk];
        runnerToChunk := runnerToChunk[r := key];
        assert chunks == whole && runnerToChunk == mapping;
        return Err(InvalidSplitPosition(at));
      }
      var second := NewChunk(Range(at, chunk.span.end), Some(newcomer), Running);
      chunk := chunk.(span := Range(chunk.span.start, at));
      chunks := chunks[chunk.span.start := chunk];
      assert chunks == whole[key := chunk];
      chunks := chunks[at := second];
      runnerToChunk := runnerToChunk[r := chunk.span.start];
      assert runnerToChunk == mapping[r := key];
      runnerToChunk := runnerToChunk[newcomer := at];
      return Ok(second.span);
    }

    /** Leave a runner's chunk `newSize` bytes to download, if it has more. */
    method ResizeRunnerState(r: RunnerId, newSize: nat) returns (res: Result<Resize, Error>)
      requires Valid()
      modifies this
      ensures (View(), res) == ResizeChunk(old(View()), r, newSize)
      ensures Valid()
    {
      ResizeKeepsInv(View(), r, newSize);
      res := ShrinkChunk(r, newSize);
    }

    method ShrinkChunk(r: RunnerId, newSize: nat) returns (res: Result<Resize, Error>)
      modifies this
      ensures (View(), res) == ResizeChunk(old(View()), r, newSize)
    {
      if r !in runnerToChunk {
        return Err(RunnerNotFound(r));
      }
      var start := runnerToChunk[r];
      if start !in chunks {
        return Err(ChunkNotFound(r));
      }
      var state := chunks[start];
      var newEnd := ResizedEnd(state, newSize);
      if newEnd == Some(state.span.end) {
        return Ok(Unchanged);
      }
      if newEnd.None? || !(state.span.start < newEnd.value < state.span.end) {
        return Err(InvalidResize(r, newSize));
      }
      chunks := chunks[start := state.(span := Range(state.span.start, newEnd.value))];
      return Ok(Shrunk(newEnd.value - state.span.start));
    }

    // ----- Queries

    method GetAvailableRanges() returns (ranges: seq<Range>)
      ensures ranges == Gaps(View())
    {
      ranges := [];
      var cursor: nat := 0;
      var all, keys := chunks, InOrder(chunks.Keys);
      ghost var gaps := GapsFrom(all, keys, 0, total);
      for i := 0 to |keys|
        invariant forall k | k in keys :: k in all
        invariant gaps == ranges + GapsFrom(all, keys[i..], cursor, total)
      {
        var chunk := all[keys[i]];
        GapsStep(ranges, all, keys[i..], cursor, total);
        assert keys[i..][1..] == keys[i + 1..];
        if cursor < chunk.span.start {
          ranges := ranges + [Range(cursor, chunk.span.start)];
        }
        cursor := chunk.span.end;
      }
      if cursor < total {
        ranges := ranges + [Range(cursor, total)];
      }
    }

    /** The downloaded bytes as merged ranges; their lengths are the accepted bytes. */
    method GetDownloadedRanges() returns (ranges: seq<Range>)
      requires Valid()
      ensures forall b: nat :: InSome(ranges, b) <==> Downloaded(View(), b)
      ensures GapsBetween(ranges)
      ensures SumLen(ranges) == acceptedBytes
    {
      var parts := CollectDownloaded();
      PartsAreDownloaded(View());
      ranges := MergeAdjacentRanges(parts);
    }

    method CollectDownloaded() returns (parts: seq<Range>)
      ensures parts == DownloadedParts(chunks, InOrder(chunks.Keys))
    {
      var all, keys := chunks, InOrder(chunks.Keys);
      parts := [];
      for i := 0 to |keys|
        invariant forall k | k in keys :: k in all
        invariant parts == DownloadedParts(all, keys[..i])
      {
        var chunk := all[keys[i]];
        PartsStep(all, keys, i);
        if chunk.downloaded.start < chunk.downloaded.end {
          parts := parts + [chunk.downloaded];
        }
      }
      assert keys[..|keys|] == keys;
    }

    /**
     Where new work can come from: the first gap that fits, cut to size, else the largest gap,
     else the running chunk with the most left to do. `overflow` tells that the suggested end wrapped, at
     which a debug build stops.
     */
    method FindChunkToSplit(requiredSize: nat) returns (found: Option<(Option<RunnerId>, Range)>, overflow: bool)
      requires Valid() && requiredSize <= U64_MAX
      ensures Gaps(View()) != [] ==>
                && found.Some? && found.value.0 == None && GapChoice(Gaps(View()), requiredSize, found.value.1)
                && !overflow
      ensures Gaps(View()) == [] ==>
                (found.None? <==> forall k | k in chunks :: !Splittable(chunks[k], minChunkSize))
      ensures Gaps(View()) == [] && found.Some? ==>
                exists k :: MostRemaining(chunks, minChunkSize, k) && found.value.0 == chunks[k].runnerId
                            && found.value.1 == SplitSuggestion(chunks[k], requiredSize)
      ensures Gaps(View()) == [] ==>
                (overflow <==> found.Some? && found.value.1.start + requiredSize > U64_MAX)
    {
      var gaps := GetAvailableRanges();
      if gaps != [] {
        assert Separated(gaps) by { GapsExact(View()); }
        var range := PickGap(gaps, requiredSize);
        return Some((None, range)), false;
      }
      found, overflow := FindRunning(requiredSize);
    }

    method FindRunning(requiredSize: nat) returns (found: Option<(Option<RunnerId>, Range)>, overflow: bool)
      requires requiredSize <= U64_MAX
      ensures found.None? <==> forall k | k in chunks :: !Splittable(chunks[k], minChunkSize)
      ensures found.Some? ==>
                exists k :: MostRemaining(chunks, minChunkSize, k) && found.value.0 == chunks[k].runnerId
                            && found.value.1 == SplitSuggestion(chunks[k], requiredSize)
      ensures overflow <==> found.Some? && found.value.1.start + requiredSize > U64_MAX
    {
      InOrderAscends(chunks.Keys);
      var best := PickRunning(chunks, InOrder(chunks.Keys), minChunkSize);
      if best.None? {
        return None, false;
      }
      var chunk := chunks[best.value];
      return Some((chunk.runnerId, SplitSuggestion(chunk, requiredSize))),
             chunk.downloaded.end + requiredSize > U64_MAX;
    }

    method IsDone() returns (done: bool)
      ensures done == IsComplete(View())
    {
      var gaps := GetAvailableRanges();
      return chunks != map[] && (forall k | k in chunks :: chunks[k].status == Finished) && gaps == [];
    }
  }

  lemma GapsStep(found: seq<Range>, chunks: map<nat, ChunkState>, keys: seq<nat>, cursor: nat, total: nat)
    requires keys != [] && forall k | k in keys :: k in chunks
    ensures var c := chunks[keys[0]];
            found + GapsFrom(chunks, keys, cursor, total)
            == (if cursor < c.span.start then found + [Range(cursor, c.span.start)] else found)
               + GapsFrom(chunks, keys[1..], c.span.end, total)
  {
    var c := chunks[keys[0]];
    var tail := GapsFrom(chunks, keys[1..], c.span.end, total);
    if cursor < c.span.start {
      assert found + ([Range(cursor, c.span.start)] + tail) == (found + [Range(cursor, c.span.start)]) + tail;
    } else {
      assert [] + tail == tail;
    }
  }

  // ----- Choosing where new work comes from

  /** The first gap that holds `n` bytes, cut to size; if none does, the last of the largest gaps. */
  ghost predicate GapChoice(gaps: seq<Range>, n: nat, choice: Range) {
    || (exists i: nat :: FirstFit(gaps, n, i) && choice == Range(gaps[i].start, gaps[i].start + n))
    || ((forall i | 0 <= i < |gaps| :: gaps[i].Len() < n) && exists i: nat :: LastLargest(gaps, i) && choice == gaps[i])
  }

  ghost predicate FirstFit(gaps: seq<Range>, n: nat, i: nat) {
    i < |gaps| && n <= gaps[i].Len() && forall j | 0 <= j < i :: gaps[j].Len() < n
  }

  ghost predicate LastLargest(gaps: seq<Range>, i: nat) {
    && i < |gaps|
    && forall j | 0 <= j < |gaps| :: gaps[j].Len() <= gaps[i].Len() && (i < j ==> gaps[j].Len() < gaps[i].Len())
  }

  method PickGap(gaps: seq<Range>, n: nat) returns (choice: Range)
    requires gaps != [] && forall i | 0 <= i < |gaps| :: gaps[i].start <= gaps[i].end
    ensures GapChoice(gaps, n, choice)
  {
    var found: Option<Range> := None;
    ghost var at := 0;
    for i := 0 to |gaps|
      invariant forall j | 0 <= j < i :: gaps[j].Len() < n
      invariant found.None? <==> i == 0
      invariant found.Some? ==> at < i && found.value == gaps[at]
      invariant found.Some? ==> LastLargest(gaps[..i], at)
    {
      var range := gaps[i];
      if range.end - range.start >= n {
        assert FirstFit(gaps, n, i);
        return Range(range.start, range.start + n);
      } else if found.None? || found.value.end - found.value.start <= range.end - range.start {
        found, at := Some(range), i;
      }
    }
    assert gaps[..|gaps|] == gaps;
    return found.value;
  }

  /** A running chunk with enough left may give some of it away. */
  predicate Splittable(c: ChunkState, minChunkSize: nat) {
    c.status == Running && c.runnerId.Some? && c.downloaded.end <= c.span.end && c.Remaining() >= minChunkSize
  }

  /** Splittable are exactly the chunks that their mapped runner runs, with at least the minimum left of them. */
  lemma SplittableIff(p: Plan, k: nat, minChunkSize: nat)
    requires Inv(p) && k in p.chunks
    ensures Splittable(p.chunks[k], minChunkSize) <==>
            && p.chunks[k].status == Running && p.chunks[k].downloaded.end + minChunkSize <= p.chunks[k].span.end
            && exists r :: r in p.owners && p.owners[r] == k && p.chunks[k].runnerId == Some(r)
  {
    assert ActiveAt(p.chunks, p.owners, k);
    assert p.chunks[k].WellFormed(k, p.total);
  }

  ghost predicate MostRemaining(chunks: map<nat, ChunkState>, minChunkSize: nat, k: nat) {
    && k in chunks && Splittable(chunks[k], minChunkSize)
    && forall j | j in chunks && Splittable(chunks[j], minChunkSize) ::
         chunks[j].Remaining() <= chunks[k].Remaining() && (k < j ==> chunks[j].Remaining() < chunks[k].Remaining())
  }

  /** The last of the chunks with the most left, as `max_by_key` returns it. */
  method PickRunning(all: map<nat, ChunkState>, keys: seq<nat>, minChunkSize: nat) returns (best: Option<nat>)
    requires Ascending(keys) && forall k :: k in keys <==> k in all
    ensures best.None? <==> forall k | k in all :: !Splittable(all[k], minChunkSize)
    ensures best.Some? ==> MostRemaining(all, minChunkSize, best.value)
  {
    best := None;
    for i := 0 to |keys|
      invariant best.None? <==> forall j | 0 <= j < i :: !Splittable(all[keys[j]], minChunkSize)
      invariant best.Some? ==>
                  && best.value in keys[..i] && Splittable(all[best.value], minChunkSize)
                  && forall j | 0 <= j < i && Splittable(all[keys[j]], minChunkSize) ::
                       && all[keys[j]].Remaining() <= all[best.value].Remaining()
                       && (best.value < keys[j] ==> all[keys[j]].Remaining() < all[best.value].Remaining())
    {
      assert keys[..i + 1] == keys[..i] + [keys[i]];
      var chunk := all[keys[i]];
      if Splittable(chunk, minChunkSize) && (best.None? || all[best.value].Remaining() <= chunk.Remaining()) {
        best := Some(keys[i]);
      }
    }
    assert keys[..|keys|] == keys;
    forall k | k in all ensures exists j :: 0 <= j < |keys| && keys[j] == k {
      assert k in keys;
    }
  }

  /** The suggested range ends `requiredSize` bytes on, in wrapping `u64` arithmetic, whatever the chunk's end. */
  function SplitSuggestion(c: ChunkState, requiredSize: nat): Range {
    Range(c.downloaded.end, (c.downloaded.end + requiredSize) % (U64_MAX + 1))
  }

  /** The suggestion lies in what the runner has left exactly when that is at least the required size. */
  lemma SuggestionInsideIff(p: Plan, k: nat, requiredSize: nat)
    requires Inv(p) && k in p.chunks && requiredSize <= U64_MAX
    ensures var c, s := p.chunks[k], SplitSuggestion(p.chunks[k], requiredSize);
            c.downloaded.end <= s.start <= s.end <= c.span.end <==> requiredSize <= c.Remaining()
    ensures var c, s := p.chunks[k], SplitSuggestion(p.chunks[k], requiredSize);
            && (forall b: nat | c.span.start <= b < s.start :: c.downloaded.Contains(b))
            && !c.downloaded.Contains(s.start)
            && (requiredSize <= c.Remaining() ==> s.Len() == requiredSize)
  {
    var c := p.chunks[k];
    assert c.WellFormed(k, p.total);
    var sum := c.downloaded.end + requiredSize;
    if sum > U64_MAX {
      assert sum % (U64_MAX + 1) == sum - (U64_MAX + 1);
    }
  }

  /** A new planner whose only chunk, the whole file, was given to runner 0, which started. */
  function WholeFile(total: nat): Plan { MarkRunning(Allocate(NewPlan(total), Range(0, total), Some(0), Pending), 0).0 }

  /**
   Asked for more than the file has, the planner suggests more: of any file of at least the planner's own
   minimum, whose only runner just started, every larger size is suggested as it was asked for.
   */
  lemma SuggestionMayOverrun(total: nat, requiredSize: nat)
    requires NewPlan(total).minChunkSize <= total < requiredSize <= U64_MAX
    ensures var p := WholeFile(total);
            && Inv(p) && Gaps(p) == [] && MostRemaining(p.chunks, p.minChunkSize, 0)
            && p.chunks[0].runnerId == Some(0) && p.chunks[0].span == Range(0, total)
            && SplitSuggestion(p.chunks[0], requiredSize) == Range(0, requiredSize)
  {
    var pending := OneChunk(total, total, 0);
    var p := WholeFile(total);
    assert p.chunks == map[0 := ChunkState(Range(0, total), Range(0, 0), Some(0), Running)];
    MarkRunningKeepsInv(pending, 0);
    NoGapsIffAllocated(p);
    forall b: nat | b < total ensures Allocated(p, b) {
      assert 0 in p.chunks && p.chunks[0].span.Contains(b);
    }
  }

  function DownloadedPart(c: ChunkState): seq<Range> {
    if c.downloaded.start < c.downloaded.end then [c.downloaded] else []
  }

  /** The non-empty downloaded parts in key order. */
  ghost function DownloadedParts(chunks: map<nat, ChunkState>, keys: seq<nat>): seq<Range>
    requires forall k | k in keys :: k in chunks
  {
    if keys == [] then [] else
      var front := keys[..|keys| - 1];
      var c := chunks[keys[|keys| - 1]];
      assert keys[|keys| - 1] in keys;
      DownloadedParts(chunks, front) + DownloadedPart(c)
  }

  lemma PartsStep(chunks: map<nat, ChunkState>, keys: seq<nat>, i: nat)
    requires i < |keys| && forall k | k in keys :: k in chunks
    ensures var c := chunks[keys[i]];
            DownloadedParts(chunks, keys[..i + 1])
            == DownloadedParts(chunks, keys[..i]) + DownloadedPart(c)
  {
    assert keys[..i + 1][..i] == keys[..i];
  }

  lemma {:induction false} PartsApart(chunks: map<nat, ChunkState>, total: nat, keys: seq<nat>, bound: nat)
    requires WellFormed(chunks, total) && PairwiseDisjoint(chunks)
    requires Ascending(keys) && forall k | k in keys :: k in chunks && chunks[k].span.end <= bound
    ensures NoOverlap(DownloadedParts(chunks, keys))
    ensures forall i | 0 <= i < |DownloadedParts(chunks, keys)| :: DownloadedParts(chunks, keys)[i].end <= bound
  {
    if keys != [] {
      var front, last := keys[..|keys| - 1], keys[|keys| - 1];
      assert keys == front + [last] && last in keys;
      forall k | k in front ensures chunks[k].span.end <= last {
        assert k in keys && k < last;
      }
      PartsApart(chunks, total, front, last);
    }
  }

  lemma {:induction false} PartsLength(chunks: map<nat, ChunkState>, total: nat, keys: seq<nat>)
    requires WellFormed(chunks, total) && forall k | k in keys :: k in chunks
    ensures SumLen(DownloadedParts(chunks, keys)) == SumAlong(chunks, keys, DownloadedLen)
  {
    if keys != [] {
      var front, last := keys[..|keys| - 1], keys[|keys| - 1];
      assert keys == front + [last] && last in keys;
      PartsLength(chunks, total, front);
      var c := chunks[last];
      SumLenConcat(DownloadedParts(chunks, front), DownloadedPart(c));
      SumAlongSnoc(chunks, front, last, DownloadedLen);
    }
  }

  ghost predicate InSomePart(chunks: map<nat, ChunkState>, keys: seq<nat>, b: nat) {
    exists k :: k in keys && k in chunks && chunks[k].downloaded.Contains(b)
  }

  lemma {:induction false} PartsBytes(chunks: map<nat, ChunkState>, keys: seq<nat>, b: nat)
    requires forall k | k in keys :: k in chunks
    ensures InSome(DownloadedParts(chunks, keys), b) <==> InSomePart(chunks, keys, b)
  {
    if keys != [] {
      var front, last := keys[..|keys| - 1], keys[|keys| - 1];
      assert keys == front + [last] && last in keys;
      PartsBytes(chunks, front, b);
      var c := chunks[last];
      InSomeConcat(DownloadedParts(chunks, front), DownloadedPart(c), b);
      InSomeOne(c.downloaded, b);
      if InSomePart(chunks, keys, b) {
        var k :| k in keys && k in chunks && chunks[k].downloaded.Contains(b);
        assert k == last || k in front;
      }
    }
  }

  lemma {:induction false} SumAlongSnoc(chunks: map<nat, ChunkState>, keys: seq<nat>, k: nat, f: Measure)
    requires k in chunks && forall j | j in keys :: j in chunks
    ensures SumAlong(chunks, keys + [k], f) == SumAlong(chunks, keys, f) + f(chunks[k])
  {
    if keys == [] {
      assert [k][1..] == [];
    } else {
      assert (keys + [k])[1..] == keys[1..] + [k];
      SumAlongSnoc(chunks, keys[1..], k, f);
    }
  }

  /** The downloaded parts in order hold every downloaded byte once. */
  lemma PartsOfChunks(chunks: map<nat, ChunkState>, total: nat, keys: seq<nat>)
    requires WellFormed(chunks, total) && PairwiseDisjoint(chunks)
    requires Ascending(keys) && forall k :: k in keys <==> k in chunks
    ensures NoOverlap(DownloadedParts(chunks, keys))
    ensures SumLen(DownloadedParts(chunks, keys)) == |DownloadedBytes(chunks)|
    ensures forall b: nat :: InSome(DownloadedParts(chunks, keys), b) <==> InSomePart(chunks, keys, b)
  {
    PartsApart(chunks, total, keys, total);
    PartsLength(chunks, total, keys);
    SumInOrder(chunks, keys, DownloadedLen);
    SumIsCount(chunks, total);
    forall b: nat ensures InSome(DownloadedParts(chunks, keys), b) <==> InSomePart(chunks, keys, b) {
      PartsBytes(chunks, keys, b);
    }
  }

  lemma PartsAreDownloaded(p: Plan)
    requires Inv(p)
    ensures var parts := DownloadedParts(p.chunks, InOrder(p.chunks.Keys));
            && NoOverlap(parts)
            && SumLen(parts) == p.accepted
            && forall b: nat :: InSome(parts, b) <==> Downloaded(p, b)
  {
    InOrderAscends(p.chunks.Keys);
    PartsOfChunks(p.chunks, p.total, InOrder(p.chunks.Keys));
  }

  /** A change to the planner that is undone unless committed. */
  class PlannerGuard {
    const planner: ChunkPlanner
    const snapshot: Plan
    var committed: bool

    constructor (planner: ChunkPlanner)
      ensures this.planner == planner && snapshot == planner.View() && !committed
    {
      this.planner := planner;
      snapshot := Plan(planner.total, planner.minChunkSize, planner.maxChunkCount,
                       planner.chunks, planner.runnerToChunk, planner.acceptedBytes);
      committed := false;
    }

    method Commit()
      modifies this
      ensures committed
    {
      committed := true;
    }

    /** Dropping the guard keeps a committed change and undoes any other exactly. */
    method Drop()
      requires snapshot.total == planner.total
      modifies planner
      ensures planner.View() == if committed then old(planner.View()) else snapshot
    {
      if !committed {
        planner.minChunkSize := snapshot.minChunkSize;
        planner.maxChunkCount := snapshot.maxChunkCount;
        planner.chunks := snapshot.chunks;
        planner.runnerToChunk := snapshot.owners;
        planner.acceptedBytes := snapshot.accepted;
      }
    }
  }
}
