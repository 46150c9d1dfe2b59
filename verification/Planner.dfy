/**
 The planner of one download: which part of `0..total` belongs to which runner and how much of
 it was accepted. Values and transition functions; `ChunkPlanning.dfy` holds the object whose
 methods compute them in place, `PlannerLaws.dfy` what they keep.
 */
module Planner {
  import opened Wrappers
  import opened Numbers
  import opened OrderedKeys

  type RunnerId = nat

  /** A half-open byte range. */
  datatype Range = Range(start: nat, end: nat) {
    predicate Contains(b: nat) { start <= b < end }

    function Len(): nat { if start <= end then end - start else 0 }

    predicate Disjoint(other: Range) { end <= other.start || other.end <= start }
  }

  datatype ChunkStatus = Idle | Running | Pending | Finished | Failed {
    predicate IsActive() { Running? || Pending? }
  }

  datatype ChunkState = ChunkState(span: Range, downloaded: Range, runnerId: Option<RunnerId>, status: ChunkStatus) {
    /** A chunk is stored under its start, is not empty, and its downloaded part is a prefix of it. */
    predicate WellFormed(key: nat, total: nat) {
      && key == span.start == downloaded.start
      && key < span.end <= total
      && key <= downloaded.end <= span.end
    }

    function Remaining(): nat
      requires downloaded.end <= span.end
    {
      span.end - downloaded.end
    }

    predicate IsComplete() { downloaded.end >= span.end }

    predicate OwnedBy(r: RunnerId) {
      && runnerId == Some(r)
      && (status.IsActive() || (status == Finished && IsComplete()))
    }
  }

  function NewChunk(range: Range, runner: Option<RunnerId>, status: ChunkStatus): ChunkState {
    ChunkState(range, Range(range.start, range.start), runner, status)
  }

  datatype Error =
    | RunnerNotFound(runner: RunnerId)
    | ChunkNotFound(runner: RunnerId)
    | InvalidSplitPosition(position: nat)
    | InvalidResize(runner: RunnerId, newSize: nat)

  datatype Resize = Unchanged | Shrunk(limit: nat)

  datatype Plan = Plan(
    total: nat,
    minChunkSize: nat,
    maxChunkCount: Option<nat>,
    chunks: map<nat, ChunkState>,
    owners: map<RunnerId, nat>,
    accepted: nat)

  function NewPlan(total: nat): Plan {
    Plan(total, 1024 * 1024, None, map[], map[], 0)
  }

  // ----- What a plan stands for

  /** The bytes of a range. */
  ghost function Bytes(r: Range): set<nat> {
    set b: nat | b < r.end && r.Contains(b)
  }

  ghost function DownloadedBytes(chunks: map<nat, ChunkState>): set<nat> {
    set k, b | k in chunks && b in Bytes(chunks[k].downloaded) :: b
  }

  ghost predicate Allocated(p: Plan, b: nat) {
    exists k :: k in p.chunks && p.chunks[k].span.Contains(b)
  }

  ghost predicate Downloaded(p: Plan, b: nat) {
    exists k :: k in p.chunks && p.chunks[k].downloaded.Contains(b)
  }

  // ----- The representation invariant

  ghost predicate WellFormed(chunks: map<nat, ChunkState>, total: nat) {
    forall k | k in chunks :: chunks[k].WellFormed(k, total)
  }

  ghost predicate PairwiseDisjoint(chunks: map<nat, ChunkState>) {
    forall j, k | j in chunks && k in chunks && j < k :: chunks[j].span.end <= k
  }

  /** A mapped runner's chunk exists, names that runner, and is active or fully downloaded. */
  ghost predicate OwnersValid(chunks: map<nat, ChunkState>, owners: map<RunnerId, nat>) {
    forall r {:trigger owners[r]} | r in owners :: owners[r] in chunks && chunks[owners[r]].OwnedBy(r)
  }

  /** An active chunk belongs to a runner that is mapped to it. */
  ghost predicate ActiveAt(chunks: map<nat, ChunkState>, owners: map<RunnerId, nat>, k: nat)
    requires k in chunks
  {
    chunks[k].status.IsActive() ==>
      && chunks[k].runnerId.Some?
      && chunks[k].runnerId.value in owners
      && owners[chunks[k].runnerId.value] == k
  }

  ghost predicate ActiveOwned(chunks: map<nat, ChunkState>, owners: map<RunnerId, nat>) {
    forall k {:trigger ActiveAt(chunks, owners, k)} | k in chunks :: ActiveAt(chunks, owners, k)
  }

  ghost predicate Inv(p: Plan) {
    && p.total <= U64_MAX
    && WellFormed(p.chunks, p.total)
    && PairwiseDisjoint(p.chunks)
    && OwnersValid(p.chunks, p.owners)
    && ActiveOwned(p.chunks, p.owners)
    && p.accepted == |DownloadedBytes(p.chunks)|
  }

  // ----- Operations

  predicate HasRoom(p: Plan) {
    p.maxChunkCount.Some? ==> |p.chunks| < p.maxChunkCount.value
  }

  /** Only the last chunk that starts before `range.end` is looked at. */
  predicate Accepts(p: Plan, range: Range) {
    && range.start < range.end <= p.total
    && HasRoom(p)
    && var pred := LastBelow(p.chunks.Keys, range.end);
       (pred.Some? ==> p.chunks[pred.value].span.end <= range.start)
  }

  function Allocate(p: Plan, range: Range, runner: Option<RunnerId>, status: ChunkStatus): Plan {
    if !Accepts(p, range) then p else
      p.(chunks := p.chunks[range.start := NewChunk(range, runner, status)],
         owners := if runner.Some? then p.owners[runner.value := range.start] else p.owners)
  }

  /** The range a runner's next `n` bytes are accepted into, clipped to its chunk. */
  function AcceptedRange(c: ChunkState, n: nat): Range
    requires c.downloaded.end <= c.span.end
  {
    Range(c.downloaded.end, c.downloaded.end + if n < c.Remaining() then n else c.Remaining())
  }

  function AdvanceChunk(c: ChunkState, n: nat): ChunkState
    requires c.downloaded.end <= c.span.end
  {
    var grown := c.(downloaded := Range(c.downloaded.start, AcceptedRange(c, n).end));
    if grown.IsComplete() then grown.(status := Finished) else grown
  }

  function Advance(p: Plan, r: RunnerId, n: nat): (Plan, Result<Range, Error>)
    requires WellFormed(p.chunks, p.total)
  {
    if r !in p.owners then (p, Err(RunnerNotFound(r)))
    else if p.owners[r] !in p.chunks then (p, Err(ChunkNotFound(r)))
    else
      var k := p.owners[r];
      var range := AcceptedRange(p.chunks[k], n);
      (p.(chunks := p.chunks[k := AdvanceChunk(p.chunks[k], n)], accepted := p.accepted + range.Len()), Ok(range))
  }

  function MarkRunning(p: Plan, r: RunnerId): (Plan, Result<(), Error>) {
    if r !in p.owners then (p, Err(RunnerNotFound(r)))
    else if p.owners[r] !in p.chunks then (p, Err(ChunkNotFound(r)))
    else
      var k := p.owners[r];
      (p.(chunks := p.chunks[k := p.chunks[k].(status := Running)]), Ok(()))
  }

  function MarkFinished(p: Plan, r: RunnerId): (Plan, Result<(), Error>) {
    if r !in p.owners then (p, Err(RunnerNotFound(r)))
    else
      var k := p.owners[r];
      var q := p.(owners := p.owners - {r});
      if k !in p.chunks then (q, Err(ChunkNotFound(r)))
      else (q.(chunks := p.chunks[k := p.chunks[k].(status := Finished)]), Ok(()))
  }

  /** What stays of a failed runner's chunk: the downloaded part, if any. */
  function KeepDownloaded(c: ChunkState): ChunkState {
    c.(span := Range(c.span.start, c.downloaded.end), status := Finished, runnerId := None)
  }

  function MarkFailed(p: Plan, r: RunnerId): (Plan, Result<Range, Error>) {
    if r !in p.owners then (p, Err(RunnerNotFound(r)))
    else
      var k := p.owners[r];
      var q := p.(owners := p.owners - {r});
      if k !in p.chunks then (q, Err(ChunkNotFound(r)))
      else
        var c := p.chunks[k];
        if c.downloaded.start == c.downloaded.end then (q.(chunks := p.chunks - {k}), Ok(c.span))
        else (q.(chunks := p.chunks[k := KeepDownloaded(c)]), Ok(Range(c.downloaded.end, c.span.end)))
  }

  function Split(p: Plan, r: RunnerId, at: nat, newcomer: RunnerId): (Plan, Result<Range, Error>) {
    if r !in p.owners then (p, Err(RunnerNotFound(r)))
    else
      var k := p.owners[r];
      if k !in p.chunks then (p.(owners := p.owners - {r}), Err(ChunkNotFound(r)))
      else
        var c := p.chunks[k];
        if at <= c.downloaded.end || c.span.end <= at then (p, Err(InvalidSplitPosition(at)))
        else
          var first := c.(span := Range(c.span.start, at));
          var second := NewChunk(Range(at, c.span.end), Some(newcomer), Running);
          (p.(chunks := p.chunks[c.span.start := first][at := second],
              owners := p.owners[r := c.span.start][newcomer := at]),
           Ok(second.span))
  }

  /** Where a resize to `newSize` more bytes ends, if it does not overflow `u64`. */
  function ResizedEnd(c: ChunkState, newSize: nat): Option<nat> {
    if c.downloaded.end + newSize <= U64_MAX then Some(c.downloaded.end + newSize) else None
  }

  function ResizeChunk(p: Plan, r: RunnerId, newSize: nat): (Plan, Result<Resize, Error>) {
    if r !in p.owners then (p, Err(RunnerNotFound(r)))
    else if p.owners[r] !in p.chunks then (p, Err(ChunkNotFound(r)))
    else
      var k := p.owners[r];
      var c := p.chunks[k];
      match ResizedEnd(c, newSize)
      case None => (p, Err(InvalidResize(r, newSize)))
      case Some(end) =>
        if end == c.span.end then (p, Ok(Unchanged))
        else if c.span.start < end < c.span.end then
          (p.(chunks := p.chunks[k := c.(span := Range(c.span.start, end))]),
           Ok(Shrunk(end - c.span.start)))
        else (p, Err(InvalidResize(r, newSize)))
  }

  // ----- Queries

  /** The gaps from `cursor` on, given the remaining chunks in order. */
  function GapsFrom(chunks: map<nat, ChunkState>, keys: seq<nat>, cursor: nat, total: nat): seq<Range>
    requires forall k | k in keys :: k in chunks
  {
    if keys == [] then
      if cursor < total then [Range(cursor, total)] else []
    else
      var c := chunks[keys[0]];
      (if cursor < c.span.start then [Range(cursor, c.span.start)] else [])
      + GapsFrom(chunks, keys[1..], c.span.end, total)
  }

  function Gaps(p: Plan): seq<Range> {
    GapsFrom(p.chunks, InOrder(p.chunks.Keys), 0, p.total)
  }

  predicate IsComplete(p: Plan) {
    && p.chunks != map[]
    && (forall k | k in p.chunks :: p.chunks[k].status == Finished)
    && Gaps(p) == []
  }
}
