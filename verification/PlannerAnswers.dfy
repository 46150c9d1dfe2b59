/**
 What the planner's operations answer: when each is accepted, which error each refusal gives, and
 what of the plan an accepted one changes, told by the bytes and the chunks it is about.
 */
module PlannerAnswers {
  import opened Wrappers
  import opened Numbers
  import opened Planner
  import opened PlannerLaws
  import opened PlannerGaps

  /** Two plans that differ in the chunks under `keys`, in their owners and in what was accepted at most. */
  ghost predicate SameElsewhere(p: Plan, q: Plan, keys: set<nat>) {
    && q == p.(chunks := q.chunks, owners := q.owners, accepted := q.accepted)
    && q.chunks - keys == p.chunks - keys
  }

  // ----- Allocation

  /** A range is accepted exactly if it is not empty, lies in the file, overlaps no chunk, and has room for a chunk. */
  lemma AcceptedIff(p: Plan, range: Range)
    requires Inv(p)
    ensures Accepts(p, range) <==>
            && range.start < range.end <= p.total
            && (forall k | k in p.chunks :: p.chunks[k].span.Disjoint(range))
            && (p.maxChunkCount.None? || |p.chunks| + 1 <= p.maxChunkCount.value)
  {
    if HasRoom(p) {
      AcceptsIffDisjoint(p, range);
    }
  }

  /** The plan `q` has one chunk more: all of `range`, nothing of it downloaded. */
  ghost predicate Added(p: Plan, range: Range, runner: Option<RunnerId>, status: ChunkStatus, q: Plan) {
    && SameElsewhere(p, q, {range.start}) && range.start !in p.chunks && range.start in q.chunks
    && var c := q.chunks[range.start];
    && c.span == range && Bytes(c.downloaded) == {} && c.runnerId == runner && c.status == status
    && q.accepted == p.accepted
    && (runner.Some? ==> runner.value in q.owners && q.owners[runner.value] == range.start)
    && q.owners - OwnersIn(runner) == p.owners - OwnersIn(runner)
  }

  lemma PutAdds(p: Plan, range: Range, runner: Option<RunnerId>, status: ChunkStatus)
    requires Accepts(p, range) && range.start !in p.chunks
    ensures Added(p, range, runner, status, Allocate(p, range, runner, status))
  {
  }

  /** A refused allocation changes nothing, an accepted one gives the runner exactly the range. */
  lemma AllocationAnswers(p: Plan, range: Range, runner: Option<RunnerId>, status: ChunkStatus, q: Plan)
    requires Inv(p) && q == Allocate(p, range, runner, status)
    ensures if Accepts(p, range) then Added(p, range, runner, status, q) else q == p
  {
    if Accepts(p, range) {
      AcceptedIsNew(p, range);
      PutAdds(p, range, runner, status);
    }
  }

  function OwnersIn(runner: Option<RunnerId>): set<RunnerId> {
    match runner case None => {} case Some(r) => {r}
  }

  // ----- Progress

  /** The chunk `d` is the chunk `c` with the bytes of `more` behind what it had. */
  ghost predicate Progressed(c: ChunkState, n: nat, d: ChunkState, more: Range)
    requires c.downloaded.end <= c.span.end
  {
    var left := c.span.end - c.downloaded.end;
    && more.start == c.downloaded.end <= more.end && more.Len() == Min(n, left)
    && d.span == c.span && d.runnerId == c.runnerId
    && d.downloaded == Range(c.downloaded.start, more.end)
    && d.status == (if n >= left then Finished else c.status)
  }

  lemma ProgressChanges(p: Plan, r: RunnerId, n: nat, q: Plan, result: Result<Range, Error>)
    requires WellFormed(p.chunks, p.total) && Advance(p, r, n) == (q, result)
    requires r in p.owners && p.owners[r] in p.chunks
    ensures var k := p.owners[r];
            && p.chunks[k].downloaded.end <= p.chunks[k].span.end
            && result.Ok? && SameElsewhere(p, q, {k}) && q.owners == p.owners && k in q.chunks
            && q.chunks == p.chunks[k := q.chunks[k]] && Progressed(p.chunks[k], n, q.chunks[k], result.value)
            && q.accepted == p.accepted + result.value.Len()
  {
    assert p.chunks[p.owners[r]].WellFormed(p.owners[r], p.total);
  }

  lemma ProgressBytes(p: Plan, k: nat, n: nat, after: map<nat, ChunkState>, more: Range)
    requires Inv(p) && k in p.chunks && k in after && after == p.chunks[k := after[k]]
    requires p.chunks[k].WellFormed(k, p.total) && Progressed(p.chunks[k], n, after[k], more)
    ensures Bytes(more) !! DownloadedBytes(p.chunks)
    ensures DownloadedBytes(after) == DownloadedBytes(p.chunks) + Bytes(more)
  {
    GrowBytes(p.chunks, p.total, k, after[k]);
    assert more == Range(p.chunks[k].downloaded.end, after[k].downloaded.end);
  }

  /**
   A frame is accepted for every runner with a chunk and for no other: at most as many bytes as the frame has and
   the chunk lacks, directly after those it has, none of them downloaded before. The chunk is finished with its last
   byte and not before.
   */
  lemma ProgressAnswers(p: Plan, r: RunnerId, n: nat, q: Plan, result: Result<Range, Error>)
    requires Inv(p) && Advance(p, r, n) == (q, result)
    ensures r !in p.owners ==> q == p && result == Err(RunnerNotFound(r))
    ensures r in p.owners ==>
              && var k := p.owners[r];
              && result.Ok? && SameElsewhere(p, q, {k}) && q.owners == p.owners && k in q.chunks
              && Progressed(p.chunks[k], n, q.chunks[k], result.value)
              && Bytes(result.value) !! DownloadedBytes(p.chunks)
              && DownloadedBytes(q.chunks) == DownloadedBytes(p.chunks) + Bytes(result.value)
              && q.accepted == p.accepted + result.value.Len()
  {
    if r in p.owners {
      assert p.chunks[p.owners[r]].WellFormed(p.owners[r], p.total);
      ProgressChanges(p, r, n, q, result);
      ProgressBytes(p, p.owners[r], n, q.chunks, result.value);
    }
  }

  // ----- Start, completion, failure

  /** The chunk under `k` has the status `status`, and nothing else of it changed. */
  ghost predicate Restated(p: Plan, q: Plan, k: nat, status: ChunkStatus) {
    && SameElsewhere(p, q, {k}) && q.accepted == p.accepted && k in p.chunks && k in q.chunks
    && q.chunks[k].status == status
    && q.chunks[k].span == p.chunks[k].span && q.chunks[k].downloaded == p.chunks[k].downloaded
    && q.chunks[k].runnerId == p.chunks[k].runnerId
  }

  /** Starting answers for every runner with a chunk, and its chunk runs. */
  lemma StartAnswers(p: Plan, r: RunnerId, q: Plan, result: Result<(), Error>)
    requires Inv(p) && MarkRunning(p, r) == (q, result)
    ensures r !in p.owners ==> q == p && result == Err(RunnerNotFound(r))
    ensures r in p.owners ==> result.Ok? && Restated(p, q, p.owners[r], Running) && q.owners == p.owners
  {
  }

  /** A completed runner no longer owns its chunk, which is finished as it is. */
  lemma CompletionAnswers(p: Plan, r: RunnerId, q: Plan, result: Result<(), Error>)
    requires Inv(p) && MarkFinished(p, r) == (q, result)
    ensures r !in p.owners ==> q == p && result == Err(RunnerNotFound(r))
    ensures r in p.owners ==> result.Ok? && Restated(p, q, p.owners[r], Finished) && q.owners == p.owners - {r}
  {
  }

  /**
   A failed runner no longer owns a chunk. The bytes it downloaded stay as a finished chunk without a runner, unless
   there are none; the answer is the range of the others.
   */
  lemma FailureAnswers(p: Plan, r: RunnerId, q: Plan, result: Result<Range, Error>)
    requires Inv(p) && MarkFailed(p, r) == (q, result)
    ensures r !in p.owners ==> q == p && result == Err(RunnerNotFound(r))
    ensures r in p.owners ==>
              && var k := p.owners[r]; var c := p.chunks[k];
              && result == Ok(Range(c.downloaded.end, c.span.end))
              && SameElsewhere(p, q, {k}) && q.owners == p.owners - {r} && q.accepted == p.accepted
              && (k in q.chunks <==> Bytes(c.downloaded) != {})
              && (k in q.chunks ==>
                    && q.chunks[k].span == q.chunks[k].downloaded == c.downloaded
                    && q.chunks[k].status == Finished && q.chunks[k].runnerId == None)
  {
    if r in p.owners {
      var c := p.chunks[p.owners[r]];
      assert c.WellFormed(p.owners[r], p.total);
      assert c.downloaded.start < c.downloaded.end ==> c.downloaded.start in Bytes(c.downloaded);
    }
  }

  // ----- Splitting and resizing

  /**
   A split is accepted exactly strictly between what the runner downloaded and the end of its chunk, and answers the
   part given away; a refused split changes nothing.
   */
  lemma SplitAnswers(p: Plan, r: RunnerId, at: nat, newcomer: RunnerId, q: Plan, result: Result<Range, Error>)
    requires Inv(p) && Split(p, r, at, newcomer) == (q, result)
    ensures r !in p.owners ==> q == p && result == Err(RunnerNotFound(r))
    ensures r in p.owners ==>
              && var k := p.owners[r]; var c := p.chunks[k];
              && (result.Ok? <==> c.downloaded.end < at < c.span.end)
              && (result.Err? ==> q == p && result.error == InvalidSplitPosition(at))
              && (result.Ok? ==>
                    && result.value == Range(at, c.span.end) && SameElsewhere(p, q, {k, at})
                    && k in q.chunks && q.chunks[k] == c.(span := Range(c.span.start, at))
                    && at in q.chunks && q.chunks[at].status == Running && q.chunks[at].runnerId == Some(newcomer)
                    && newcomer in q.owners && q.owners[newcomer] == at
                    && q.owners - {newcomer} == p.owners - {newcomer})
  {
    if result.Ok? {
      SplitMakes(p, r, at, newcomer, q);
    }
  }

  /** The planner refuses the new size: more than is left, or nothing of a chunk that has nothing. */
  ghost predicate SizeRefused(c: ChunkState, newSize: nat) {
    newSize > c.span.end - c.downloaded.end || (newSize == 0 && Bytes(c.downloaded) == {})
  }

  lemma ResizeDecides(p: Plan, r: RunnerId, newSize: nat)
    requires Inv(p) && r in p.owners
    ensures var c := p.chunks[p.owners[r]];
            ResizeChunk(p, r, newSize).1 ==
            if SizeRefused(c, newSize) then Err(InvalidResize(r, newSize))
            else if newSize == c.span.end - c.downloaded.end then Ok(Unchanged)
            else Ok(Shrunk(c.downloaded.end + newSize - c.span.start))
  {
    var c := p.chunks[p.owners[r]];
    assert c.WellFormed(p.owners[r], p.total);
    assert c.downloaded.start < c.downloaded.end ==> c.downloaded.start in Bytes(c.downloaded);
  }

  lemma ResizeChanges(p: Plan, r: RunnerId, newSize: nat, q: Plan)
    requires r in p.owners && p.owners[r] in p.chunks && q == ResizeChunk(p, r, newSize).0
    ensures var k := p.owners[r]; var c := p.chunks[k];
            if ResizeChunk(p, r, newSize).1.Err? then q == p
            else
              && SameElsewhere(p, q, {k}) && q.owners == p.owners && q.accepted == p.accepted && k in q.chunks
              && q.chunks[k] == c.(span := Range(c.span.start, c.downloaded.end + newSize))
  {
  }

  /**
   A resize is accepted exactly if the runner is left with no more than it has, and, if it has downloaded nothing,
   with a byte at least. What is left is the new size, and the answer is the length of the whole chunk.
   */
  lemma ResizeAnswers(p: Plan, r: RunnerId, newSize: nat, q: Plan, result: Result<Resize, Error>)
    requires Inv(p) && ResizeChunk(p, r, newSize) == (q, result)
    ensures r !in p.owners ==> q == p && result == Err(RunnerNotFound(r))
    ensures r in p.owners ==>
              && var k := p.owners[r]; var c := p.chunks[k];
              if SizeRefused(c, newSize) then q == p && result == Err(InvalidResize(r, newSize))
              else
                && SameElsewhere(p, q, {k}) && q.owners == p.owners && q.accepted == p.accepted && k in q.chunks
                && q.chunks[k] == c.(span := Range(c.span.start, c.downloaded.end + newSize))
                && result == Ok(if newSize == c.span.end - c.downloaded.end then Unchanged
                                else Shrunk(q.chunks[k].span.Len()))
  {
    if r in p.owners {
      ResizeDecides(p, r, newSize);
      ResizeChanges(p, r, newSize, q);
    }
  }

  // ----- Completion

  /** A plan is complete exactly if there is a chunk, every chunk is finished, and every byte is in one. */
  lemma CompleteIff(p: Plan)
    requires Inv(p)
    ensures IsComplete(p) <==>
            && p.chunks != map[]
            && (forall k | k in p.chunks :: p.chunks[k].status == Finished)
            && (forall b: nat | b < p.total :: Allocated(p, b))
  {
    GapsExact(p);
    if Gaps(p) == [] {
      forall b: nat | b < p.total ensures Allocated(p, b) {
        assert !InSome(Gaps(p), b);
      }
    } else {
      var gap := Gaps(p)[0];
      assert InSome(Gaps(p), gap.start);
    }
  }
}
