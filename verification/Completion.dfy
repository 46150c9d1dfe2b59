/**
 When completion is reported, and when it is not although everything was downloaded.

 Only a successful stop and a lost runner are checked for completion. A runner that fails after the
 planner accepted its last byte leaves a complete plan and nobody to report it: the download may still
 fail, but it never succeeds.
 */
module Completion {
  import opened Planner
  import opened PlannerGaps
  import opened PlanCompletion
  import opened Manager
  import opened Engine
  import opened EngineLocal
  import opened EngineInvariant
  import opened EngineSteps
  import opened EngineTicks
  import opened EngineRuns
  import Runner

  // ----- Stranded downloads

  /** Everything was accepted, completion was not reported, and no runner is left to stop. */
  ghost predicate Stranded(s: System) {
    !s.finished && IsComplete(s.mgr.plan) && s.procs == map[]
  }

  /** Nothing fits into a complete plan. */
  lemma CompletePlanIsFull(p: Plan, range: Range)
    requires Planner.Inv(p) && IsComplete(p) && p.maxChunkCount.None?
    ensures !Accepts(p, range)
  {
    AcceptsIffInOneGap(p, range);
  }

  lemma NothingRejectedWhenComplete(m: Manager)
    requires RejectedOk(m) && IsComplete(m.plan)
    ensures m.spawnFailures == []
  {
    assert m.spawnFailures == [] || RejectedAt(m, m.spawnFailures[0]);
  }

  lemma StrandedStepStays(s: System, e: Event, t: System)
    requires SystemOk(s) && Stranded(s) && Engine.Steps(s, e, t)
    ensures Stranded(t)
  {
    NothingRejectedWhenComplete(s.mgr);
    match e
    case Spawn(range, accepted) =>
      CompletePlanIsFull(s.mgr.plan, range);
      SpawnNext(s, range, accepted, t);
    case Shrink(r, newSize) =>
      if r in s.mgr.mail && s.mgr.mail[r].receiver {
        ReaderIsSpawned(s.source, s.mgr, s.procs, r);
      }
      ShrinkNext(s, r, newSize, t);
    case _ =>
  }

  lemma StrandedStep(s: System, t: System)
    requires SystemOk(s) && Stranded(s) && Step(s, t)
    ensures Stranded(t)
  {
    var e :| Engine.Steps(s, e, t);
    StrandedStepStays(s, e, t);
  }

  lemma StrandedNext(source: seq<Byte>, maxConcurrency: nat, run: seq<System>, i: nat)
    requires IsRun(source, maxConcurrency, run) && i + 1 < |run| && Stranded(run[i])
    ensures Stranded(run[i + 1])
  {
    RunSteps(source, maxConcurrency, run, i);
    StrandedStep(run[i], run[i + 1]);
  }

  /** A stranded download never finishes, whatever happens next. */
  lemma {:induction false} StrandedForever(source: seq<Byte>, maxConcurrency: nat, run: seq<System>, i: nat, j: nat)
    requires IsRun(source, maxConcurrency, run) && i <= j < |run| && Stranded(run[i])
    ensures Stranded(run[j])
    decreases j - i
  {
    if i < j {
      StrandedNext(source, maxConcurrency, run, i);
      StrandedForever(source, maxConcurrency, run, i + 1, j);
    }
  }

  function NextEvent(p: Proc): Runner.LifecycleEvent
    requires NextLifecycle(p)
  {
    p.loop.lifecycle.sent[p.loop.lifecycle.taken]
  }

  predicate FailedStop(e: Runner.LifecycleEvent) { e.Stopped? && !Runner.TellsSuccess(e) }

  /** The manager reads a failed stop of a started runner whose chunk is complete, the last runner there is. */
  ghost predicate StrandingEvent(s: System, e: Event) {
    && e.LifecycleTick?
    && s.procs.Keys == {e.runner}
    && NextLifecycle(s.procs[e.runner])
    && FailedStop(NextEvent(s.procs[e.runner]))
    && LastOpen(s.mgr.plan, e.runner)
  }

  // ----- Which events report completion

  /** A tick after which the manager may look for completion: a successful stop, or a lost runner. */
  ghost predicate Concludes(s: System, e: Event) {
    || e.LostTick?
    || (e.LifecycleTick? && e.runner in s.procs && NextLifecycle(s.procs[e.runner])
       && Runner.TellsSuccess(NextEvent(s.procs[e.runner])))
  }

  /** Completion is reported exactly by such a tick that leaves the plan complete. */
  lemma ReportedExactly(s: System, e: Event, t: System)
    requires SystemOk(s) && Engine.Steps(s, e, t)
    ensures t.finished <==> Concludes(s, e) && IsComplete(t.mgr.plan)
  {
    match e
    case LifecycleTick(r) =>
      assert ProcAt(s.source, s.mgr, s.procs[r], r);
      LifecycleReports(s, r, t);
    case LostTick(r) =>
      assert ProcAt(s.source, s.mgr, s.procs[r], r);
      LostReports(s, r, t);
    case _ =>
      OthersReportNothing(s, e, t);
  }

  lemma LostReports(s: System, r: RunnerId, t: System)
    requires Engine.Steps(s, LostTick(r), t)
    requires ProcAt(s.source, s.mgr, s.procs[r], r)
    ensures t.finished <==> IsComplete(t.mgr.plan)
  {
  }

  lemma OthersReportNothing(s: System, e: Event, t: System)
    requires Engine.Steps(s, e, t) && !e.LifecycleTick? && !e.LostTick?
    ensures !t.finished
  {
  }

  lemma LifecycleReports(s: System, r: RunnerId, t: System)
    requires Engine.Steps(s, LifecycleTick(r), t)
    requires ProcAt(s.source, s.mgr, s.procs[r], r)
    ensures t.finished <==> Concludes(s, LifecycleTick(r)) && IsComplete(t.mgr.plan)
  {
    var p := s.procs[r];
    var event := NextEvent(p);
    SentEvents(p.loop);
    if p.loop.lifecycle.taken == 0 && event.Stopped? {
      NoSuccessBeforeStart(s.source, s.mgr.plan.chunks[s.mgr.plan.owners[r]], s.mgr.mail[r], p, r in s.mgr.connecting,
        r in s.mgr.streams);
    }
    StopReports(s.mgr, r, event);
  }

  lemma StopReports(m: Manager, r: RunnerId, event: Runner.LifecycleEvent)
    requires r in m.plan.owners && m.plan.owners[r] in m.plan.chunks
    requires IsConnecting(m, r) ==> !Runner.TellsSuccess(event)
    ensures var (n, tick) := OnLifecycle(m, r, event);
            tick.AllFinished? <==> Runner.TellsSuccess(event) && IsComplete(n.plan)
  {
  }

  // ----- Exactly what strands a download

  /** A failed stop, told by what it does: the plan gives up the chunk and the runner is gone. */
  lemma FailedStopNext(s: System, r: RunnerId, t: System)
    requires Engine.Steps(s, LifecycleTick(r), t)
    requires ProcAt(s.source, s.mgr, s.procs[r], r) && FailedStop(NextEvent(s.procs[r]))
    ensures t.mgr.plan == MarkFailed(s.mgr.plan, r).0 && t.procs == s.procs - {r} && !t.finished
  {
    assert s.procs[r := TakeLifecycle(s.procs[r])] - {r} == s.procs - {r};
  }

  lemma StopStrandsIff(s: System, r: RunnerId, t: System)
    requires SystemOk(s) && Engine.Steps(s, LifecycleTick(r), t)
    requires NextEvent(s.procs[r]).Stopped?
    ensures Stranded(t) <==> StrandingEvent(s, LifecycleTick(r))
  {
    assert ProcAt(s.source, s.mgr, s.procs[r], r);
    ReportedExactly(s, LifecycleTick(r), t);
    if FailedStop(NextEvent(s.procs[r])) {
      FailedStopNext(s, r, t);
      FailureCompletesIff(s.mgr.plan, r);
      NobodyLeft(s.procs, r);
    }
  }

  lemma NobodyLeft(procs: map<RunnerId, Proc>, r: RunnerId)
    requires r in procs
    ensures procs - {r} == map[] <==> procs.Keys == {r}
  {
    if procs - {r} == map[] {
      forall other | other in procs ensures other == r {
        assert other in procs - {r} || other == r;
      }
    }
  }

  /** Starting a runner leaves it there. */
  lemma StartStrandsNothing(s: System, r: RunnerId, t: System)
    requires SystemOk(s) && Engine.Steps(s, LifecycleTick(r), t)
    requires NextEvent(s.procs[r]).Started?
    ensures !Stranded(t)
  {
    assert ProcAt(s.source, s.mgr, s.procs[r], r);
    StartedNext(s, r, t);
    assert r in t.procs;
  }

  /** A rejected spawn leaves the gap it was to fill. */
  lemma RejectionStrandsNothing(s: System, t: System)
    requires SystemOk(s) && Engine.Steps(s, SpawnFailureTick, t)
    ensures !Stranded(t)
  {
    var r := s.mgr.spawnFailures[0];
    assert RejectedAt(s.mgr, r);
    SpawnFailureNext(s, t);
    RejectionLeavesGap(s.mgr.plan, r, t.mgr.plan);
  }

  lemma RejectionLeavesGap(p: Plan, r: RunnerId, q: Plan)
    requires Planner.Inv(p) && Released(p, r, q)
    requires p.chunks[p.owners[r]].downloaded.end == p.chunks[p.owners[r]].downloaded.start
    ensures !IsComplete(q)
  {
    FailureCompletesIff(p, r);
  }

  lemma SpawnStrandsNothing(s: System, range: Range, accepted: bool, t: System)
    requires SystemOk(s) && !Stranded(s)
    requires Engine.Steps(s, Spawn(range, accepted), t)
    ensures !Stranded(t)
  {
    SpawnNext(s, range, accepted, t);
    if !OnlyIds(s, t) {
      var r :| JoinedSystem(s, range, accepted, r, t);
      assert t.mgr.plan.chunks[range.start].status == Pending;
    }
  }

  lemma ShrinkStrandsNothing(s: System, r: RunnerId, newSize: nat, t: System)
    requires SystemOk(s) && !Stranded(s)
    requires Engine.Steps(s, Shrink(r, newSize), t)
    ensures !Stranded(t)
  {
    if r in s.mgr.mail && s.mgr.mail[r].receiver {
      ReaderIsSpawned(s.source, s.mgr, s.procs, r);
    }
    ShrinkNext(s, r, newSize, t);
  }

  lemma OthersStrandNothing(s: System, e: Event, t: System)
    requires !Stranded(s) && Engine.Steps(s, e, t)
    requires e.DataTick? || e.DataClosedTick? || e.RunnerActs? || e.RunnerDies?
    ensures !Stranded(t)
  {
    assert e.runner in t.procs;
  }

  /** A download is stranded by nothing but the failed stop of its last runner after its last byte was accepted. */
  lemma StrandedIff(s: System, e: Event, t: System)
    requires SystemOk(s) && !Stranded(s) && Engine.Steps(s, e, t)
    ensures Stranded(t) <==> StrandingEvent(s, e)
  {
    match e
    case LifecycleTick(r) =>
      if NextEvent(s.procs[r]).Started? {
        StartStrandsNothing(s, r, t);
      } else {
        StopStrandsIff(s, r, t);
      }
    case LostTick(r) => ReportedExactly(s, e, t);
    case Spawn(range, accepted) => SpawnStrandsNothing(s, range, accepted, t);
    case Shrink(r, newSize) => ShrinkStrandsNothing(s, r, newSize, t);
    case SpawnFailureTick => RejectionStrandsNothing(s, t);
    case _ => OthersStrandNothing(s, e, t);
  }
}
