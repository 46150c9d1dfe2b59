/**
 Splitting a runner's incomplete range: the runner is shrunk to the first half, a new runner is
 spawned for the second. The loop expects the spawn to find an id and room for the range.
 */
module Splitting {
  import opened Wrappers
  import opened Numbers
  import opened Planner
  import opened PlannerLaws
  import opened ChunkPlanning
  import opened Manager
  import opened EngineSteps
  import Ids = IdGeneration

  function IncompleteRange(c: ChunkState): Range { Range(c.downloaded.end, c.span.end) }

  datatype SplitOutcome = Skipped(error: ResizeError) | SplitOff(newcomer: RunnerId) | ExpectFailed

  function SplitRunner(m: Manager, r: RunnerId, incomplete: Range, accepted: bool): (Manager, SplitOutcome) {
    var half := incomplete.Len() / 2;
    var (n, resized) := ResizeRunner(m, r, half);
    if resized.Err? then (n, Skipped(resized.error))
    else
      var (q, id) := SpawnRunner(n, Range(incomplete.start + half, incomplete.end), accepted);
      if id.None? then (q, ExpectFailed) else (q, SplitOff(id.value))
  }

  ghost predicate IdFree(m: Manager) { exists id: nat :: id < |m.ids.bits| && !Ids.IsAllocated(m.ids, id) }

  /** The runner reads limits, and what its chunk would be cut to is not empty. */
  ghost predicate Halvable(m: Manager, r: RunnerId, c: ChunkState)
    requires c.downloaded.end <= c.span.end
  {
    && r in m.mail && m.mail[r].receiver
    && (c.Remaining() >= 2 || c.downloaded.Len() > 0)
  }

  lemma HalfCuts(m: Manager, r: RunnerId)
    requires Planner.Inv(m.plan) && r in m.plan.owners && m.plan.chunks[m.plan.owners[r]].Remaining() > 0
    ensures var c := m.plan.chunks[m.plan.owners[r]];
            ShrinkSent(m, r, c.Remaining() / 2) <==> Halvable(m, r, c)
  {
    assert m.plan.chunks[m.plan.owners[r]].WellFormed(m.plan.owners[r], m.plan.total);
  }

  /** The second half is free once the chunk was cut. */
  lemma SecondHalfFits(p: Plan, r: RunnerId, end: nat, q: Plan)
    requires Planner.Inv(p) && r in p.owners && q == CutPlan(p, r, end) && p.maxChunkCount.None?
    requires var c := p.chunks[p.owners[r]]; c.span.start < end < c.span.end && c.downloaded.end <= end
    ensures Planner.Inv(q) && Accepts(q, Range(end, p.chunks[p.owners[r]].span.end))
  {
    var k := p.owners[r];
    CutKeepsInv(p, r, end, q);
    AcceptsIffDisjoint(q, Range(end, p.chunks[k].span.end));
    TailIsFree(p.chunks, p.total, k, end, q.chunks);
  }

  lemma TailIsFree(chunks: map<nat, ChunkState>, total: nat, k: nat, end: nat, after: map<nat, ChunkState>)
    requires WellFormed(chunks, total) && PairwiseDisjoint(chunks) && k in chunks && k < end < chunks[k].span.end
    requires after == chunks[k := chunks[k].(span := Range(k, end))]
    ensures forall j | j in after :: after[j].span.Disjoint(Range(end, chunks[k].span.end))
  {
  }

  /**
   The loop's `expect` fails exactly when the runner has nothing left to download, or when it can be
   halved but every runner id is taken.
   */
  lemma SplitFailsIff(m: Manager, r: RunnerId, accepted: bool)
    requires Planner.Inv(m.plan) && m.plan.maxChunkCount.None? && Ids.Inv(m.ids) && r in m.plan.owners
    ensures var c := m.plan.chunks[m.plan.owners[r]];
            SplitRunner(m, r, IncompleteRange(c), accepted).1.ExpectFailed? <==>
            c.Remaining() == 0 || (Halvable(m, r, c) && !IdFree(m))
  {
    var k := m.plan.owners[r];
    var c := m.plan.chunks[k];
    var half := c.Remaining() / 2;
    ResizeAllOrNothing(m, r, half);
    Ids.NextIdIsFree(m.ids);
    if c.Remaining() > 0 {
      HalfCuts(m, r);
      SplitOfIncomplete(m, r, accepted, half);
    } else {
      NothingToSplit(m, r, accepted);
    }
  }

  lemma NothingToSplit(m: Manager, r: RunnerId, accepted: bool)
    requires r in m.plan.owners && m.plan.owners[r] in m.plan.chunks
    requires var c := m.plan.chunks[m.plan.owners[r]]; c.downloaded.end == c.span.end <= U64_MAX
    ensures SplitRunner(m, r, IncompleteRange(m.plan.chunks[m.plan.owners[r]]), accepted).1.ExpectFailed?
  {
  }

  lemma SplitOfIncomplete(m: Manager, r: RunnerId, accepted: bool, half: nat)
    requires Planner.Inv(m.plan) && m.plan.maxChunkCount.None? && r in m.plan.owners
    requires var c := m.plan.chunks[m.plan.owners[r]]; c.Remaining() > 0 && half == c.Remaining() / 2
    ensures var c := m.plan.chunks[m.plan.owners[r]];
            SplitRunner(m, r, IncompleteRange(c), accepted).1.ExpectFailed? <==>
            ShrinkSent(m, r, half) && Ids.NextId(m.ids).1.None?
  {
    SplitUnfolds(m, r, IncompleteRange(m.plan.chunks[m.plan.owners[r]]), accepted, half);
    HalfThenSpawn(m, r, accepted, half);
  }

  lemma HalfThenSpawn(m: Manager, r: RunnerId, accepted: bool, half: nat)
    requires Planner.Inv(m.plan) && m.plan.maxChunkCount.None? && r in m.plan.owners
    requires half < m.plan.chunks[m.plan.owners[r]].Remaining()
    ensures var c := m.plan.chunks[m.plan.owners[r]];
            var (n, resized) := ResizeRunner(m, r, half);
            resized.Ok? && SpawnRunner(n, Range(c.downloaded.end + half, c.span.end), accepted).1.None? <==>
            ShrinkSent(m, r, half) && Ids.NextId(m.ids).1.None?
  {
    if ShrinkSent(m, r, half) {
      ResizeAllOrNothing(m, r, half);
      CutThenSpawn(m, r, m.plan.chunks[m.plan.owners[r]].downloaded.end + half, ResizeRunner(m, r, half).0, accepted);
    } else {
      ResizeRefused(m, r, half);
    }
  }

  lemma SplitUnfolds(m: Manager, r: RunnerId, range: Range, accepted: bool, half: nat)
    requires half == range.Len() / 2
    ensures SplitRunner(m, r, range, accepted).1.ExpectFailed? <==>
            && ResizeRunner(m, r, half).1.Ok?
            && SpawnRunner(ResizeRunner(m, r, half).0, Range(range.start + half, range.end), accepted).1.None?
  {
  }

  lemma CutThenSpawn(m: Manager, r: RunnerId, end: nat, n: Manager, accepted: bool)
    requires Planner.Inv(m.plan) && m.plan.maxChunkCount.None? && CutTo(m, r, end, n)
    ensures SpawnRunner(n, Range(end, m.plan.chunks[m.plan.owners[r]].span.end), accepted).1.None? <==>
            Ids.NextId(m.ids).1.None?
  {
    SecondHalfFits(m.plan, r, end, n.plan);
    SpawnNeedsId(n, Range(end, m.plan.chunks[m.plan.owners[r]].span.end), accepted);
  }

  lemma SpawnNeedsId(m: Manager, range: Range, accepted: bool)
    requires Accepts(m.plan, range)
    ensures SpawnRunner(m, range, accepted).1.None? <==> Ids.NextId(m.ids).1.None?
  {
  }

  lemma ResizeRefused(m: Manager, r: RunnerId, newSize: nat)
    requires r in m.plan.owners && m.plan.owners[r] in m.plan.chunks
    requires var c := m.plan.chunks[m.plan.owners[r]]; c.downloaded.end + newSize != c.span.end
    requires !ShrinkSent(m, r, newSize)
    ensures ResizeRunner(m, r, newSize).1.Err?
  {
  }

  // ----- Spawning without splitting

  /** Any spawn, of a strategy's task too, gives no runner exactly if no id is free or the range is not accepted. */
  lemma SpawnFailsIff(m: Manager, range: Range, accepted: bool)
    requires Ids.Inv(m.ids)
    ensures SpawnRunner(m, range, accepted).1.None? <==> !IdFree(m) || !Accepts(m.plan, range)
  {
    Ids.NextIdIsFree(m.ids);
  }

  /**
   Of the runners a strategy may pick, with some minimum left to download, a split fails exactly if the
   runner still reads limits and every id is taken.
   */
  lemma PickedSplitFailsIff(m: Manager, r: RunnerId, minimum: nat, accepted: bool)
    requires Planner.Inv(m.plan) && m.plan.maxChunkCount.None? && Ids.Inv(m.ids) && r in m.plan.owners
    requires minimum >= 2 && Splittable(m.plan.chunks[m.plan.owners[r]], minimum)
    ensures var c := m.plan.chunks[m.plan.owners[r]];
            SplitRunner(m, r, IncompleteRange(c), accepted).1.ExpectFailed? <==>
            r in m.mail && m.mail[r].receiver && !IdFree(m)
  {
    SplitFailsIff(m, r, accepted);
  }

  lemma SplitSpawns(m: Manager, r: RunnerId, range: Range, half: nat, cut: Manager, rest: Range, accepted: bool,
      n: Manager, newcomer: RunnerId)
    requires (n, SplitOff(newcomer)) == SplitRunner(m, r, range, accepted) && half == range.Len() / 2
    requires cut == ResizeRunner(m, r, half).0 && rest == Range(range.start + half, range.end)
    ensures ResizeRunner(m, r, half) == (cut, Ok(())) && (n, Some(newcomer)) == SpawnRunner(cut, rest, accepted)
  {
  }

  /** The plan once `r` is cut at `middle` and the newcomer has the rest. */
  ghost predicate DealtOut(p: Plan, r: RunnerId, middle: nat, newcomer: RunnerId, q: Plan) {
    && r in p.owners && p.owners[r] in p.chunks && newcomer !in p.owners && q.accepted == p.accepted
    && var c := p.chunks[p.owners[r]];
       && q.chunks == p.chunks[p.owners[r] := c.(span := Range(c.span.start, middle))]
                              [middle := NewChunk(Range(middle, c.span.end), Some(newcomer), Pending)]
       && q.owners == p.owners[newcomer := middle]
  }

  lemma AllocatedIsDealtOut(p: Plan, r: RunnerId, middle: nat, newcomer: RunnerId, cut: Plan, q: Plan)
    requires r in p.owners && p.owners[r] in p.chunks && newcomer !in p.owners && cut == CutPlan(p, r, middle)
    requires Accepts(cut, Range(middle, p.chunks[p.owners[r]].span.end))
    requires q == Allocate(cut, Range(middle, p.chunks[p.owners[r]].span.end), Some(newcomer), Pending)
    ensures DealtOut(p, r, middle, newcomer, q)
  {
  }

  lemma CutThenHired(m: Manager, r: RunnerId, middle: nat, cut: Manager, range: Range, accepted: bool, n: Manager,
      newcomer: RunnerId)
    requires Planner.Inv(m.plan) && m.plan.maxChunkCount.None? && Ids.Inv(m.ids) && OwnersAllocated(m)
    requires CutTo(m, r, middle, cut) && range == Range(middle, m.plan.chunks[m.plan.owners[r]].span.end)
    requires (n, Some(newcomer)) == SpawnRunner(cut, range, accepted)
    ensures DealtOut(m.plan, r, middle, newcomer, n.plan)
  {
    SecondHalfFits(m.plan, r, middle, cut.plan);
    Ids.NextIdIsFree(cut.ids);
    AcceptedIsNew(cut.plan, range);
    PlacedSpawn(cut, range, accepted, newcomer, n);
    AllocatedIsDealtOut(m.plan, r, middle, newcomer, cut.plan, n.plan);
  }

  lemma OkMeansSent(m: Manager, r: RunnerId, newSize: nat)
    requires r in m.plan.owners && m.plan.owners[r] in m.plan.chunks && ResizeRunner(m, r, newSize).1.Ok?
    requires var c := m.plan.chunks[m.plan.owners[r]]; c.downloaded.end + newSize != c.span.end
    ensures ShrinkSent(m, r, newSize)
  {
    if !ShrinkSent(m, r, newSize) {
      ResizeRefused(m, r, newSize);
    }
  }

  lemma OkMeansCut(m: Manager, r: RunnerId, newSize: nat, end: nat, cut: Manager)
    requires OwnersValid(m.plan.chunks, m.plan.owners) && r in m.plan.owners
    requires var c := m.plan.chunks[m.plan.owners[r]]; end == c.downloaded.end + newSize != c.span.end
    requires ResizeRunner(m, r, newSize) == (cut, Ok(()))
    ensures CutTo(m, r, end, cut)
  {
    OkMeansSent(m, r, newSize);
    ResizeAllOrNothing(m, r, newSize);
  }

  lemma HalvedThenHired(m: Manager, r: RunnerId, c: ChunkState, half: nat, cut: Manager, rest: Range, accepted: bool,
      n: Manager, newcomer: RunnerId)
    requires Planner.Inv(m.plan) && m.plan.maxChunkCount.None? && Ids.Inv(m.ids) && OwnersAllocated(m)
    requires r in m.plan.owners && c == m.plan.chunks[m.plan.owners[r]]
    requires rest == Range(c.downloaded.end + half, c.span.end) && rest.start < rest.end
    requires ResizeRunner(m, r, half) == (cut, Ok(())) && (n, Some(newcomer)) == SpawnRunner(cut, rest, accepted)
    ensures DealtOut(m.plan, r, rest.start, newcomer, n.plan)
  {
    OkMeansCut(m, r, half, rest.start, cut);
    CutThenHired(m, r, rest.start, cut, rest, accepted, n, newcomer);
  }

  /** A split gives the second half of what is left to the newcomer, neither more nor less. */
  lemma SplitHalves(m: Manager, r: RunnerId, c: ChunkState, half: nat, cut: Manager, rest: Range, accepted: bool,
      n: Manager, newcomer: RunnerId)
    requires Planner.Inv(m.plan) && m.plan.maxChunkCount.None? && Ids.Inv(m.ids) && OwnersAllocated(m)
    requires r in m.plan.owners && c == m.plan.chunks[m.plan.owners[r]]
    requires IncompleteRange(c).Len() >= 2 && half == IncompleteRange(c).Len() / 2
    requires cut == ResizeRunner(m, r, half).0 && rest == Range(c.downloaded.end + half, c.span.end)
    requires (n, SplitOff(newcomer)) == SplitRunner(m, r, IncompleteRange(c), accepted)
    ensures DealtOut(m.plan, r, rest.start, newcomer, n.plan)
  {
    SplitSpawns(m, r, IncompleteRange(c), half, cut, rest, accepted, n, newcomer);
    HalvedThenHired(m, r, c, half, cut, rest, accepted, n, newcomer);
  }
}
