/**
 The manager's ticks keep the invariant: a runner starts, stops, is lost or was never spawned, or
 delivers a frame. None of the manager's `expect`s and debug assertions fails.
 */
module EngineTicks {
  import opened Planner
  import opened PlannerLaws
  import opened Manager
  import opened Engine
  import opened EngineLocal
  import opened EngineInvariant
  import opened EngineCrew
  import opened EngineSteps
  import Ids = IdGeneration
  import Runner

  // ----- A runner leaves, and its chunk is completed or given up

  /** The plan once `r` gave up its chunk, or completed one that is fully downloaded. */
  ghost predicate Released(p: Plan, r: RunnerId, q: Plan) {
    && r in p.owners && p.owners[r] in p.chunks
    && (q == MarkFailed(p, r).0 || (p.chunks[p.owners[r]].IsComplete() && q == MarkFinished(p, r).0))
  }

  ghost predicate LeftSystem(s: System, r: RunnerId, t: System) {
    && Released(s.mgr.plan, r, t.mgr.plan)
    && (r in s.mgr.spawnFailures ==> s.mgr.spawnFailures[0] == r)
    && t.mgr == ReleaseRunner(s.mgr.(plan := t.mgr.plan, spawnFailures := t.mgr.spawnFailures), r)
    && t.mgr.spawnFailures == (if r in s.mgr.spawnFailures then s.mgr.spawnFailures[1..] else s.mgr.spawnFailures)
    && t == s.(mgr := t.mgr, procs := s.procs - {r}, reported := t.reported, finished := t.finished)
    && (t.finished ==> IsComplete(t.mgr.plan))
  }

  lemma ReleasedOnlyOne(p: Plan, r: RunnerId, q: Plan)
    requires Released(p, r, q)
    ensures q.owners == p.owners - {r}
    ensures q.chunks - {p.owners[r]} == p.chunks - {p.owners[r]}
  {
  }

  /** A released chunk that is still there is complete. */
  lemma ReleasedSettled(p: Plan, r: RunnerId, q: Plan)
    requires Settled(p.chunks) && Released(p, r, q)
    ensures Settled(q.chunks)
  {
    var k := p.owners[r];
    forall j | j in q.chunks && !q.chunks[j].status.IsActive()
      ensures q.chunks[j].status == Finished && q.chunks[j].IsComplete()
    {
      if j != k {
        assert q.chunks[j] == p.chunks[j];
      }
    }
  }

  lemma ReleasedKeepsInv(p: Plan, r: RunnerId, q: Plan)
    requires Planner.Inv(p) && Released(p, r, q)
    ensures Planner.Inv(q) && DownloadedBytes(q.chunks) == DownloadedBytes(p.chunks)
  {
    if q == MarkFailed(p, r).0 {
      MarkFailedKeepsInv(p, r);
    } else {
      MarkFinishedKeepsInv(p, r);
    }
  }

  lemma ReleasedKeepsPlan(source: seq<Byte>, written: seq<Write>, p: Plan, r: RunnerId, q: Plan)
    requires PlanOk(source, p) && WritesCover(written, p.chunks) && Released(p, r, q)
    ensures PlanOk(source, q) && WritesCover(written, q.chunks)
  {
    ReleasedKeepsInv(p, r, q);
    ReleasedSettled(p, r, q);
    SameBytesSameWrites(written, p.chunks, q.chunks);
  }

  lemma LeavingKeepsSystem(s: System, r: RunnerId, t: System)
    requires SystemOk(s) && LeftSystem(s, r, t)
    ensures SystemOk(t)
  {
    ReleasedOnlyOne(s.mgr.plan, r, t.mgr.plan);
    ReleasedKeepsPlan(s.source, s.written, s.mgr.plan, r, t.mgr.plan);
    LeavingKeepsCrew(s.source, s.mgr, s.procs, t.mgr, r);
    SystemOkParts(t);
  }

  /** The runner is forgotten, its id is free, and exactly what was not downloaded of its chunk is unallocated again. */
  ghost predicate GivenUp(s: System, r: RunnerId, t: System) {
    && r in s.mgr.plan.owners && s.mgr.plan.owners[r] in s.mgr.plan.chunks
    && r !in t.procs && r !in t.mgr.mail && r !in t.mgr.plan.owners && !Ids.IsAllocated(t.mgr.ids, r)
    && r !in t.mgr.lifecycles && r !in t.mgr.connecting && r !in t.mgr.streams && r !in t.mgr.spawnFailures
    && var c := s.mgr.plan.chunks[s.mgr.plan.owners[r]];
       forall b: nat :: Allocated(t.mgr.plan, b) <==>
                        Allocated(s.mgr.plan, b) && !Range(c.downloaded.end, c.span.end).Contains(b)
  }

  lemma LeavingGivesUp(s: System, r: RunnerId, t: System)
    requires IdsAgree(s.mgr) && Distinct(s.mgr.spawnFailures) && Planner.Inv(s.mgr.plan)
    requires LeftSystem(s, r, t) && t.mgr.plan == MarkFailed(s.mgr.plan, r).0
    ensures GivenUp(s, r, t)
  {
    Ids.ReleaseFrees(s.mgr.ids, r);
    var c := s.mgr.plan.chunks[s.mgr.plan.owners[r]];
    forall b: nat ensures Allocated(t.mgr.plan, b) <==>
                          Allocated(s.mgr.plan, b) && !Range(c.downloaded.end, c.span.end).Contains(b) {
      FailureFreesItsRange(s.mgr.plan, r, b);
      assert MarkFailed(s.mgr.plan, r).1.value.Contains(b) <==> Range(c.downloaded.end, c.span.end).Contains(b) by {
        assert c.WellFormed(s.mgr.plan.owners[r], s.mgr.plan.total);
      }
    }
  }

  // ----- A rejected spawn

  lemma SpawnFailureNext(s: System, t: System)
    requires Engine.Steps(s, SpawnFailureTick, t)
    requires RejectedOk(s.mgr)
    ensures LeftSystem(s, s.mgr.spawnFailures[0], t)
    ensures t.mgr.plan == MarkFailed(s.mgr.plan, s.mgr.spawnFailures[0]).0
  {
    var r := s.mgr.spawnFailures[0];
    assert RejectedAt(s.mgr, r);
  }

  /** A rejected spawn is undone: all of its range is unallocated again. */
  lemma RejectionIsUndone(s: System, t: System)
    requires SystemOk(s) && Engine.Steps(s, SpawnFailureTick, t)
    ensures GivenUp(s, s.mgr.spawnFailures[0], t)
    ensures var c := s.mgr.plan.chunks[s.mgr.plan.owners[s.mgr.spawnFailures[0]]];
            c.downloaded.end == c.span.start && s.mgr.spawnFailures == [s.mgr.spawnFailures[0]] + t.mgr.spawnFailures
  {
    var r := s.mgr.spawnFailures[0];
    assert RejectedAt(s.mgr, r);
    SpawnFailureNext(s, t);
    LeavingGivesUp(s, r, t);
    assert s.mgr.plan.chunks[s.mgr.plan.owners[r]].WellFormed(s.mgr.plan.owners[r], s.mgr.plan.total);
  }

  lemma SpawnFailureKeepsInv(s: System, t: System)
    requires SystemOk(s) && Engine.Steps(s, SpawnFailureTick, t)
    ensures SystemOk(t)
  {
    SpawnFailureNext(s, t);
    LeavingKeepsSystem(s, s.mgr.spawnFailures[0], t);
  }

  // ----- A lost runner

  lemma LostNext(s: System, r: RunnerId, t: System)
    requires Engine.Steps(s, LostTick(r), t)
    requires ProcAt(s.source, s.mgr, s.procs[r], r) && r !in s.mgr.spawnFailures
    ensures LeftSystem(s, r, t) && t.mgr.plan == MarkFailed(s.mgr.plan, r).0
  {
  }

  /** Whatever a lost runner still had to download is unallocated again, and nothing else. */
  lemma LossIsGivenUp(s: System, r: RunnerId, t: System)
    requires SystemOk(s) && Engine.Steps(s, LostTick(r), t)
    ensures GivenUp(s, r, t)
  {
    assert ProcAt(s.source, s.mgr, s.procs[r], r);
    SpawnedNotRejected(s.mgr, s.procs, r);
    LostNext(s, r, t);
    LeavingGivesUp(s, r, t);
  }

  lemma LostKeepsInv(s: System, r: RunnerId, t: System)
    requires SystemOk(s) && Engine.Steps(s, LostTick(r), t)
    ensures SystemOk(t)
  {
    assert ProcAt(s.source, s.mgr, s.procs[r], r);
    SpawnedNotRejected(s.mgr, s.procs, r);
    LostNext(s, r, t);
    LeavingKeepsSystem(s, r, t);
  }

  // ----- A lifecycle event

  /** A stop is an attempt failure, or it is a success and the chunk is complete. */
  lemma StoppedNext(s: System, r: RunnerId, t: System)
    requires Engine.Steps(s, LifecycleTick(r), t)
    requires ProcAt(s.source, s.mgr, s.procs[r], r) && r !in s.mgr.spawnFailures
    requires var p := s.procs[r]; p.loop.lifecycle.sent[p.loop.lifecycle.taken].Stopped?
    ensures LeftSystem(s, r, t)
  {
    var p := s.procs[r];
    var c := s.mgr.plan.chunks[s.mgr.plan.owners[r]];
    var reason := p.loop.lifecycle.sent[p.loop.lifecycle.taken].reason;
    assert s.procs[r := TakeLifecycle(p)] - {r} == s.procs - {r};
    if p.loop.lifecycle.taken == 0 {
      NoSuccessBeforeStart(s.source, c, s.mgr.mail[r], p, r in s.mgr.connecting, r in s.mgr.streams);
    } else if reason == Runner.Finished || reason == Runner.Failed(Runner.ExceededTotalSize) {
      SuccessMeansComplete(s.source, c, s.mgr.mail[r], p, r in s.mgr.connecting, r in s.mgr.streams);
    }
  }

  lemma StartedNext(s: System, r: RunnerId, t: System)
    requires Engine.Steps(s, LifecycleTick(r), t)
    requires ProcAt(s.source, s.mgr, s.procs[r], r)
    requires var p := s.procs[r]; p.loop.lifecycle.sent[p.loop.lifecycle.taken].Started?
    ensures OnlyRunner(s.mgr, t.mgr, r) && ProcAt(s.source, t.mgr, TakeLifecycle(s.procs[r]), r)
    ensures t.mgr.plan == MarkRunning(s.mgr.plan, r).0
    ensures t == s.(mgr := t.mgr, procs := s.procs[r := TakeLifecycle(s.procs[r])])
  {
    var c := s.mgr.plan.chunks[s.mgr.plan.owners[r]];
    StartedKeepsProc(s.source, c, s.mgr.mail[r], s.procs[r], r in s.mgr.connecting, r in s.mgr.streams);
  }

  lemma RunningKeepsPlan(source: seq<Byte>, written: seq<Write>, p: Plan, r: RunnerId, q: Plan)
    requires PlanOk(source, p) && WritesCover(written, p.chunks) && q == MarkRunning(p, r).0
    ensures PlanOk(source, q) && WritesCover(written, q.chunks)
  {
    MarkRunningKeepsInv(p, r);
    SameBytesSameWrites(written, p.chunks, q.chunks);
  }

  lemma StartedKeepsInv(s: System, r: RunnerId, t: System)
    requires SystemOk(s) && Engine.Steps(s, LifecycleTick(r), t)
    requires var p := s.procs[r]; p.loop.lifecycle.sent[p.loop.lifecycle.taken].Started?
    ensures SystemOk(t)
  {
    assert ProcAt(s.source, s.mgr, s.procs[r], r);
    StartedNext(s, r, t);
    RunningKeepsPlan(s.source, s.written, s.mgr.plan, r, t.mgr.plan);
    OneRunnerKeepsCrew(s.source, s.mgr, s.procs, t.mgr, r, TakeLifecycle(s.procs[r]));
    SystemOkParts(t);
  }

  lemma StoppedKeepsInv(s: System, r: RunnerId, t: System)
    requires SystemOk(s) && Engine.Steps(s, LifecycleTick(r), t)
    requires var p := s.procs[r]; p.loop.lifecycle.sent[p.loop.lifecycle.taken].Stopped?
    ensures SystemOk(t)
  {
    assert ProcAt(s.source, s.mgr, s.procs[r], r);
    SpawnedNotRejected(s.mgr, s.procs, r);
    StoppedNext(s, r, t);
    LeavingKeepsSystem(s, r, t);
  }

  // ----- Data

  ghost predicate DataSystem(s: System, r: RunnerId, t: System) {
    && r in s.mgr.plan.owners && s.mgr.plan.owners[r] in s.mgr.plan.chunks && r in s.procs
    && NextFrame(s.procs[r])
    && var k := s.mgr.plan.owners[r];
       var c := s.mgr.plan.chunks[k];
       var frame := s.procs[r].loop.data.sent[s.procs[r].loop.data.taken];
       && c.downloaded.end <= c.span.end
       && var range := AcceptedRange(c, |frame|);
          && t.mgr.plan == s.mgr.plan.(chunks := s.mgr.plan.chunks[k := AdvanceChunk(c, |frame|)],
             accepted := s.mgr.plan.accepted + range.Len())
          && t == s.(mgr := s.mgr.(plan := t.mgr.plan), procs := s.procs[r := TakeFrame(s.procs[r])],
                     written := s.written + [Write(range, Truncate(frame, range.Len()))])
  }

  lemma DataNext(s: System, r: RunnerId, t: System)
    requires Engine.Steps(s, DataTick(r), t)
    requires ProcAt(s.source, s.mgr, s.procs[r], r)
    ensures DataSystem(s, r, t)
  {
  }

  lemma MoreWrites(source: seq<Byte>, written: seq<Write>, chunks: map<nat, ChunkState>, w: Write,
      after: map<nat, ChunkState>)
    requires WritesFaithful(source, written) && WritesCover(written, chunks)
    requires w.range.start <= w.range.end <= |source| && w.bytes == source[w.range.start..w.range.end]
    requires Bytes(w.range) !! DownloadedBytes(chunks)
    requires DownloadedBytes(after) == DownloadedBytes(chunks) + Bytes(w.range)
    ensures WritesFaithful(source, written + [w]) && WritesCover(written + [w], after)
  {
    var more := written + [w];
    forall i | 0 <= i < |written| ensures Bytes(more[i].range) !! Bytes(w.range) {
      forall b | b in Bytes(more[i].range) ensures b !in Bytes(w.range) {
        assert written[i].range.Contains(b);
        assert InWrites(written, b);
      }
    }
    forall b: nat ensures InWrites(more, b) <==> b in DownloadedBytes(after) {
      if InWrites(written, b) {
        var i :| 0 <= i < |written| && written[i].range.Contains(b);
        assert more[i].range.Contains(b);
      }
      assert more[|written|].range.Contains(b) <==> b in Bytes(w.range);
    }
  }

  lemma DataKeepsPlan(s: System, r: RunnerId, t: System)
    requires PlanOk(s.source, s.mgr.plan) && DataSystem(s, r, t)
    ensures PlanOk(s.source, t.mgr.plan)
  {
    var frame := s.procs[r].loop.data.sent[s.procs[r].loop.data.taken];
    AdvanceKeepsInv(s.mgr.plan, r, |frame|);
    assert t.mgr.plan == Advance(s.mgr.plan, r, |frame|).0;
  }

  lemma DataKeepsWrites(s: System, r: RunnerId, t: System)
    requires PlanOk(s.source, s.mgr.plan) && DataSystem(s, r, t)
    requires WritesFaithful(s.source, s.written) && WritesCover(s.written, s.mgr.plan.chunks)
    requires ProcAt(s.source, s.mgr, s.procs[r], r)
    ensures WritesFaithful(s.source, t.written) && WritesCover(t.written, t.mgr.plan.chunks)
  {
    var k := s.mgr.plan.owners[r];
    var c := s.mgr.plan.chunks[k];
    var frame := s.procs[r].loop.data.sent[s.procs[r].loop.data.taken];
    var range := AcceptedRange(c, |frame|);
    FrameHoldsSource(s.source, c, s.mgr.mail[r], s.procs[r], r in s.mgr.connecting, r in s.mgr.streams);
    GrowBytes(s.mgr.plan.chunks, s.mgr.plan.total, k, AdvanceChunk(c, |frame|));
    MoreWrites(s.source, s.written, s.mgr.plan.chunks, Write(range, Truncate(frame, range.Len())), t.mgr.plan.chunks);
  }

  lemma DataKeepsCrew(s: System, r: RunnerId, t: System)
    requires OwnersValid(s.mgr.plan.chunks, s.mgr.plan.owners) && CrewOk(s.source, s.mgr, s.procs)
             && DataSystem(s, r, t)
    requires ProcAt(s.source, s.mgr, s.procs[r], r) && r in s.mgr.streams
    ensures CrewOk(s.source, t.mgr, t.procs)
  {
    var c := s.mgr.plan.chunks[s.mgr.plan.owners[r]];
    FrameKeepsProc(s.source, c, s.mgr.mail[r], s.procs[r], r in s.mgr.connecting, r in s.mgr.streams);
    OneRunnerKeepsCrew(s.source, s.mgr, s.procs, t.mgr, r, TakeFrame(s.procs[r]));
  }

  lemma DataKeepsSystem(s: System, r: RunnerId, t: System)
    requires SystemOk(s) && !s.finished && DataSystem(s, r, t) && r in s.mgr.streams
    requires ProcAt(s.source, s.mgr, s.procs[r], r)
    ensures SystemOk(t)
  {
    DataKeepsPlan(s, r, t);
    DataKeepsWrites(s, r, t);
    DataKeepsCrew(s, r, t);
    SystemOkParts(t);
  }

  lemma DataKeepsInv(s: System, r: RunnerId, t: System)
    requires SystemOk(s) && Engine.Steps(s, DataTick(r), t)
    ensures SystemOk(t)
  {
    assert ProcAt(s.source, s.mgr, s.procs[r], r);
    DataNext(s, r, t);
    DataKeepsSystem(s, r, t);
  }

  lemma DataClosedNext(s: System, r: RunnerId, t: System)
    requires Engine.Steps(s, DataClosedTick(r), t)
    requires ProcAt(s.source, s.mgr, s.procs[r], r)
    ensures OnlyRunner(s.mgr, t.mgr, r) && ProcAt(s.source, t.mgr, s.procs[r], r) && t.mgr.plan == s.mgr.plan
    ensures t == s.(mgr := t.mgr, procs := s.procs[r := s.procs[r]])
  {
    assert s.procs[r := s.procs[r]] == s.procs;
  }

  /** A data end that closed is told of once, after its last frame, and nothing but its removal changes. */
  lemma ClosedOnce(s: System, r: RunnerId, t: System)
    requires Engine.Steps(s, DataClosedTick(r), t)
    ensures !NextFrame(s.procs[r]) && !Enabled(t, DataTick(r)) && !Enabled(t, DataClosedTick(r))
    ensures t == s.(mgr := s.mgr.(streams := t.mgr.streams)) && t.mgr.streams == s.mgr.streams - {r} != s.mgr.streams
  {
    assert r in s.mgr.streams;
  }

  lemma DataClosedKeepsInv(s: System, r: RunnerId, t: System)
    requires SystemOk(s) && Engine.Steps(s, DataClosedTick(r), t)
    ensures SystemOk(t)
  {
    assert ProcAt(s.source, s.mgr, s.procs[r], r);
    DataClosedNext(s, r, t);
    OneRunnerKeepsCrew(s.source, s.mgr, s.procs, t.mgr, r, s.procs[r]);
    SystemOkParts(t);
  }
}
