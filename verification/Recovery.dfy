/**
 From where a download can still finish. It cannot once everything was accepted and every runner left has
 a failed stop on the way; from everywhere else it can, by steps as the strategies ask for them.
 */
module Recovery {
  import opened Numbers
  import opened Planner
  import opened PlannerGaps
  import opened PlanCompletion
  import PlannerLaws
  import opened Manager
  import opened Engine
  import opened EngineLocal
  import opened EngineInvariant
  import opened EngineCrew
  import opened EngineSteps
  import opened EngineTicks
  import opened EngineRuns
  import opened Completion
  import opened Splitting
  import opened Strategies
  import opened Delivery
  import Ids = IdGeneration
  import Paths
  import Runner

  /** What the manager reads next of the runner is that it failed. */
  predicate Failing(p: Proc) { NextLifecycle(p) && FailedStop(NextEvent(p)) }

  ghost predicate AllFailing(procs: map<RunnerId, Proc>) { forall r | r in procs :: Failing(procs[r]) }

  /** Everything was accepted, and nobody will say so. */
  ghost predicate Doomed(s: System) {
    !s.finished && s.mgr.plan.accepted == |s.source| && AllFailing(s.procs)
  }

  // ----- A doomed download stays so

  lemma FullTakesNoMore(p: Plan, range: Range)
    requires Planner.Inv(p) && p.accepted == p.total && p.maxChunkCount.None?
    ensures !Accepts(p, range)
  {
    FullIff(p);
    AcceptsIffInOneGap(p, range);
  }

  lemma NothingRejectedWhenFull(s: System)
    requires SystemOk(s) && s.mgr.plan.accepted == |s.source|
    ensures s.mgr.spawnFailures == []
  {
    FullIff(s.mgr.plan);
    assert s.mgr.spawnFailures == [] || RejectedAt(s.mgr, s.mgr.spawnFailures[0]);
  }

  lemma DoomedSpawn(s: System, range: Range, accepted: bool, t: System)
    requires SystemOk(s) && Doomed(s) && Engine.Steps(s, Spawn(range, accepted), t)
    ensures Doomed(t)
  {
    FullTakesNoMore(s.mgr.plan, range);
    SpawnNext(s, range, accepted, t);
  }

  lemma DoomedShrink(s: System, r: RunnerId, newSize: nat, t: System)
    requires SystemOk(s) && Doomed(s) && Engine.Steps(s, Shrink(r, newSize), t)
    ensures Doomed(t)
  {
    FullIff(s.mgr.plan);
    if r in s.mgr.mail && s.mgr.mail[r].receiver {
      ReaderIsSpawned(s.source, s.mgr, s.procs, r);
    }
    ShrinkNext(s, r, newSize, t);
  }

  /** What the manager has still to read of the runner begins as before. */
  ghost predicate SaysTheSame(p: Proc, q: Proc) {
    && q.loop.lifecycle.taken == p.loop.lifecycle.taken
    && p.loop.lifecycle.sent <= q.loop.lifecycle.sent
  }

  lemma NobodyChanges(s: System, t: System)
    requires Doomed(s) && !t.finished && t.source == s.source && t.mgr.plan.accepted == s.mgr.plan.accepted
    requires forall r | r in t.procs :: r in s.procs && SaysTheSame(s.procs[r], t.procs[r])
    ensures Doomed(t)
  {
    forall r | r in t.procs ensures Failing(t.procs[r]) {
      assert NextEvent(t.procs[r]) == NextEvent(s.procs[r]);
    }
  }

  lemma DoomedStop(s: System, r: RunnerId, t: System)
    requires Doomed(s) && Engine.Steps(s, LifecycleTick(r), t)
    requires ProcAt(s.source, s.mgr, s.procs[r], r)
    ensures Doomed(t)
  {
    FailedStopNext(s, r, t);
    NobodyChanges(s, t);
  }

  lemma DoomedData(s: System, r: RunnerId, t: System)
    requires Doomed(s) && Engine.Steps(s, DataTick(r), t)
    requires PlanOk(s.source, s.mgr.plan) && ProcAt(s.source, s.mgr, s.procs[r], r)
    ensures Doomed(t)
  {
    DataNext(s, r, t);
    DataKeepsPlan(s, r, t);
    PlannerLaws.AcceptedWithinTotal(t.mgr.plan);
    DataOnlyTakes(s, r, t);
    NobodyChanges(s, t);
  }

  lemma DataOnlyTakes(s: System, r: RunnerId, t: System)
    requires DataSystem(s, r, t) && t.mgr.plan.accepted <= t.mgr.plan.total == |s.source| == s.mgr.plan.accepted
    ensures t.mgr.plan.accepted == s.mgr.plan.accepted && t.source == s.source && t.finished == s.finished
    ensures forall q | q in t.procs :: q in s.procs && SaysTheSame(s.procs[q], t.procs[q])
  {
  }

  lemma DoomedActs(s: System, r: RunnerId, a: Runner.Action, t: System)
    requires Doomed(s) && Engine.Steps(s, RunnerActs(r, a), t)
    ensures Doomed(t)
  {
    ActsNext(s, r, a, t);
    ActIsSeen(s.procs[r].loop, a);
    NobodyChanges(s, t);
  }

  lemma DoomedOther(s: System, e: Event, t: System)
    requires Doomed(s) && s.mgr.spawnFailures == [] && Engine.Steps(s, e, t)
    requires e.SpawnFailureTick? || e.LostTick? || e.DataClosedTick? || e.RunnerDies?
    ensures Doomed(t)
  {
    NobodyChanges(s, t);
  }

  lemma DoomedStep(s: System, t: System)
    requires SystemOk(s) && Doomed(s) && Step(s, t)
    ensures Doomed(t)
  {
    var e :| Engine.Steps(s, e, t);
    NothingRejectedWhenFull(s);
    match e
    case Spawn(range, accepted) => DoomedSpawn(s, range, accepted, t);
    case Shrink(r, newSize) => DoomedShrink(s, r, newSize, t);
    case LifecycleTick(r) =>
      SpawnedFacts(s, r);
      DoomedStop(s, r, t);
    case DataTick(r) =>
      SpawnedFacts(s, r);
      DoomedData(s, r, t);
    case RunnerActs(r, a) => DoomedActs(s, r, a, t);
    case _ => DoomedOther(s, e, t);
  }

  ghost predicate DoomedOk(s: System) { SystemOk(s) && Doomed(s) }

  /** Whatever happens, a doomed download is never reported complete. */
  lemma DoomedForever(s: System, t: System)
    requires SystemOk(s) && Doomed(s) && Leads(s, t)
    ensures Doomed(t)
  {
    var path :| Paths.Joins(Step, path, s, t);
    forall u, v | DoomedOk(u) && Step(u, v) ensures DoomedOk(v) {
      StepKeepsInv(u, v);
      DoomedStep(u, v);
    }
    Paths.Keeps(Step, DoomedOk, path, |path| - 1);
  }

  /** Nobody left to report is one way of nobody reporting. */
  lemma StrandedIsDoomed(s: System)
    requires SystemOk(s) && Stranded(s)
    ensures Doomed(s)
  {
    CompleteMeansEverything(s.mgr.plan);
  }

  // ----- A runner is let go

  /** Runner `r` is gone, and what was accepted stays accepted. */
  ghost predicate Gone(s: System, t: System, r: RunnerId) {
    && t.procs == s.procs - {r} && t.source == s.source
    && t.mgr.plan.accepted == s.mgr.plan.accepted
    && t.mgr.spawnFailures == s.mgr.spawnFailures
    && |t.mgr.ids.bits| == |s.mgr.ids.bits|
  }

  lemma LeftIsGone(s: System, r: RunnerId, t: System)
    requires LeftSystem(s, r, t) && r !in s.mgr.spawnFailures
    ensures Gone(s, t, r)
  {
  }

  /** The manager reads how the runner stopped. */
  lemma ReadsStop(s: System, r: RunnerId) returns (t: System)
    requires Going(s) && r in s.procs && NextLifecycle(s.procs[r]) && NextEvent(s.procs[r]).Stopped?
    ensures SystemOk(t) && Onward(s, t) && Gone(s, t, r)
    ensures Runner.TellsSuccess(NextEvent(s.procs[r])) ==> (t.finished <==> IsComplete(t.mgr.plan))
  {
    SpawnedFacts(s, r);
    SpawnedNotRejected(s.mgr, s.procs, r);
    t := Engine.Next(s, LifecycleTick(r));
    StoppedNext(s, r, t);
    LeftIsGone(s, r, t);
    LeavingKeepsSystem(s, r, t);
    LifecycleReports(s, r, t);
    Does(s, LifecycleTick(r), t);
  }

  lemma Dies(s: System, r: RunnerId) returns (t: System)
    requires Going(s) && r in s.procs && s.procs[r].alive
    ensures Going(t) && Onward(s, t) && t.procs == s.procs[r := s.procs[r].(alive := false)]
    ensures t.source == s.source && t.mgr.plan == s.mgr.plan && t.mgr.ids == s.mgr.ids
    ensures t.mgr.spawnFailures == s.mgr.spawnFailures
  {
    SpawnedFacts(s, r);
    t := Engine.Next(s, RunnerDies(r));
    DiesKeepsInv(s, r, t);
    Does(s, RunnerDies(r), t);
  }

  /** A dead runner that said nothing more is lost. */
  lemma IsLost(s: System, r: RunnerId) returns (t: System)
    requires Going(s) && r in s.procs && !NextLifecycle(s.procs[r]) && !s.procs[r].alive
    ensures SystemOk(t) && Onward(s, t) && Gone(s, t, r) && (t.finished <==> IsComplete(t.mgr.plan))
  {
    SpawnedFacts(s, r);
    SpawnedNotRejected(s.mgr, s.procs, r);
    t := Engine.Next(s, LostTick(r));
    LostNext(s, r, t);
    LeftIsGone(s, r, t);
    LeavingKeepsSystem(s, r, t);
    LostReports(s, r, t);
    Does(s, LostTick(r), t);
  }

  /** What a started runner has to say is how it stopped. */
  lemma StartedSaysStopped(s: System, r: RunnerId)
    requires SystemOk(s) && r in s.procs && NextLifecycle(s.procs[r]) && s.procs[r].loop.lifecycle.taken > 0
    ensures NextEvent(s.procs[r]).Stopped?
  {
    SpawnedFacts(s, r);
    SentEvents(s.procs[r].loop);
  }

  /** A runner that has not to be read as started can be let go; unless it is failing, its end is looked at. */
  lemma LetGo(s: System, r: RunnerId) returns (t: System)
    requires Going(s) && r in s.procs
    requires NextLifecycle(s.procs[r]) ==> NextEvent(s.procs[r]).Stopped?
    ensures SystemOk(t) && Onward(s, t) && Gone(s, t, r)
    ensures !Failing(s.procs[r]) ==> (t.finished <==> IsComplete(t.mgr.plan))
  {
    if NextLifecycle(s.procs[r]) {
      t := ReadsStop(s, r);
    } else if s.procs[r].alive {
      var dead := Dies(s, r);
      t := IsLost(dead, r);
      DiedThenGone(s, dead, t, r);
      OnwardTrans(s, dead, t);
    } else {
      t := IsLost(s, r);
    }
  }

  lemma DiedThenGone(s: System, dead: System, t: System, r: RunnerId)
    requires r in s.procs && dead.procs == s.procs[r := s.procs[r].(alive := false)]
    requires dead.source == s.source && dead.mgr.plan == s.mgr.plan && dead.mgr.ids == s.mgr.ids
    requires dead.mgr.spawnFailures == s.mgr.spawnFailures && Gone(dead, t, r)
    ensures Gone(s, t, r)
  {
  }

  lemma Dismiss(s: System, r: RunnerId) returns (t: System)
    requires Going(s) && r in s.procs
    ensures SystemOk(t) && Onward(s, t) && Gone(s, t, r)
  {
    if NextLifecycle(s.procs[r]) && NextEvent(s.procs[r]).Started? {
      var started := Starts(s, r);
      if NextLifecycle(started.procs[r]) {
        StartedSaysStopped(started, r);
      }
      t := LetGo(started, r);
      OnwardTrans(s, started, t);
      SpawnedFacts(s, r);
      assert t.procs == s.procs - {r};
    } else {
      t := LetGo(s, r);
    }
  }

  // ----- Once nobody is left

  ghost predicate Deserted(s: System) { s.procs == map[] && s.mgr.spawnFailures == [] }

  /** Then every chunk is finished, and every id is free. */
  lemma DesertedChunks(s: System)
    requires SystemOk(s) && Deserted(s)
    ensures s.mgr.mail == map[] && ActiveChunks(s.mgr.plan.chunks) == {}
    ensures forall k | k in s.mgr.plan.chunks ::
              s.mgr.plan.chunks[k].status == Finished && s.mgr.plan.chunks[k].IsComplete()
  {
    assert Rejected(s.mgr.spawnFailures) == {};
    assert s.mgr.mail.Keys == {};
    forall k | k in s.mgr.plan.chunks ensures !s.mgr.plan.chunks[k].status.IsActive() {
      assert ActiveAt(s.mgr.plan.chunks, s.mgr.plan.owners, k);
    }
  }

  lemma DesertedIsComplete(s: System)
    requires SystemOk(s) && Deserted(s) && |s.source| > 0
    ensures IsComplete(s.mgr.plan) <==> s.mgr.plan.accepted == |s.source|
  {
    DesertedChunks(s);
    FullIff(s.mgr.plan);
    NoGapsIffAllocated(s.mgr.plan);
    assert s.mgr.plan.chunks == map[] ==> !Allocated(s.mgr.plan, 0);
  }

  // ----- Everything was accepted

  /** A runner of a full plan has delivered, so it has started. */
  lemma FullSaysStopped(s: System, r: RunnerId)
    requires SystemOk(s) && s.mgr.plan.accepted == |s.source| && r in s.procs
    ensures |s.source| > 0 && (NextLifecycle(s.procs[r]) ==> NextEvent(s.procs[r]).Stopped?)
  {
    SpawnedFacts(s, r);
    FullIff(s.mgr.plan);
    UnreadIsEmpty(s, r);
    if NextLifecycle(s.procs[r]) {
      StartedSaysStopped(s, r);
    }
  }

  lemma UnreadIsEmpty(s: System, r: RunnerId)
    requires r in s.procs && ProcAt(s.source, s.mgr, s.procs[r], r)
    ensures |s.source| > 0
    ensures s.procs[r].loop.lifecycle.taken == 0 ==> !s.mgr.plan.chunks[s.mgr.plan.owners[r]].IsComplete()
  {
    RangeIsSource(s, r);
    if s.procs[r].loop.lifecycle.taken == 0 {
      assert Received(s.procs[r]) == 0;
    }
  }

  lemma FewerLeft(procs: map<RunnerId, Proc>, r: RunnerId)
    requires r in procs
    ensures |procs - {r}| < |procs|
  {
    assert (procs - {r}).Keys == procs.Keys - {r};
    assert |procs.Keys - {r}| == |procs.Keys| - 1;
  }

  lemma FinishLast(s: System, last: RunnerId) returns (t: System)
    requires Going(s) && s.mgr.plan.accepted == |s.source| && s.procs.Keys == {last} && !Failing(s.procs[last])
    ensures Onward(s, t) && t.finished
  {
    FullSaysStopped(s, last);
    t := LetGo(s, last);
    NothingRejectedWhenFull(t);
    NobodyLeft(s.procs, last);
    DesertedIsComplete(t);
  }

  lemma OtherLeaves(s: System, last: RunnerId, r: RunnerId) returns (t: System)
    requires Going(s) && s.mgr.plan.accepted == |s.source| && last in s.procs && r in s.procs && r != last
    ensures SystemOk(t) && Onward(s, t) && t.mgr.plan.accepted == |t.source|
    ensures last in t.procs && t.procs[last] == s.procs[last] && |t.procs| < |s.procs|
  {
    FullSaysStopped(s, r);
    t := LetGo(s, r);
    GoneLeavesOthers(s, last, r, t);
  }

  lemma GoneLeavesOthers(s: System, last: RunnerId, r: RunnerId, t: System)
    requires Gone(s, t, r) && last in s.procs && r in s.procs && r != last
    ensures last in t.procs && t.procs[last] == s.procs[last] && |t.procs| < |s.procs|
  {
    FewerLeft(s.procs, r);
  }

  /** The others leave; the last to go is one that is not failing, and its end is looked at. */
  lemma {:induction false} FinishFull(s: System, last: RunnerId) returns (t: System)
    requires Going(s) && s.mgr.plan.accepted == |s.source| && last in s.procs && !Failing(s.procs[last])
    ensures Onward(s, t) && t.finished
    decreases |s.procs|
  {
    if r :| r in s.procs && r != last {
      t := OtherLeaves(s, last, r);
      if !t.finished {
        var next := t;
        t := FinishFull(next, last);
        OnwardTrans(s, next, t);
      }
    } else {
      t := FinishLast(s, last);
    }
  }

  // ----- Something is missing

  /** While something is missing, completion is not reported. */
  lemma NotYet(s: System)
    requires SystemOk(s) && s.mgr.plan.accepted < |s.source|
    ensures !s.finished
  {
    if IsComplete(s.mgr.plan) {
      CompleteMeansEverything(s.mgr.plan);
    }
  }

  lemma RejectionLeaves(s: System) returns (t: System)
    requires Going(s) && s.mgr.spawnFailures != [] && s.procs == map[]
    ensures SystemOk(t) && Onward(s, t) && t.procs == map[] && t.source == s.source
    ensures t.mgr.plan.accepted == s.mgr.plan.accepted && |t.mgr.ids.bits| == |s.mgr.ids.bits|
    ensures t.mgr.spawnFailures == s.mgr.spawnFailures[1..]
  {
    t := Engine.Next(s, SpawnFailureTick);
    SpawnFailureNext(s, t);
    LeavingKeepsSystem(s, s.mgr.spawnFailures[0], t);
    Does(s, SpawnFailureTick, t);
  }

  /** Everybody leaves. */
  lemma {:induction false} Clears(s: System) returns (t: System)
    requires SystemOk(s) && s.mgr.plan.accepted < |s.source|
    ensures Going(t) && Onward(s, t) && Deserted(t) && t.source == s.source
    ensures t.mgr.plan.accepted == s.mgr.plan.accepted && |t.mgr.ids.bits| == |s.mgr.ids.bits|
    decreases |s.procs|, |s.mgr.spawnFailures|
  {
    NotYet(s);
    if r :| r in s.procs {
      var next := Dismiss(s, r);
      FewerLeft(s.procs, r);
      t := Clears(next);
      OnwardTrans(s, next, t);
    } else if s.mgr.spawnFailures != [] {
      var next := RejectionLeaves(s);
      t := Clears(next);
      OnwardTrans(s, next, t);
    } else {
      t := s;
      Paths.Stays(AskedStep, s);
    }
  }

  // ----- A gap is filled

  lemma SpareId(m: Manager)
    requires IdsAgree(m) && m.mail == map[] && |m.ids.bits| > 0
    ensures IdFree(m)
  {
    assert !Ids.IsAllocated(m.ids, 0);
  }

  /** A gap of a deserted download gets a runner, as the strategies ask. */
  lemma Staffs(s: System) returns (t: System, r: RunnerId)
    requires Going(s) && Deserted(s) && s.mgr.plan.accepted < |s.source| && |s.mgr.ids.bits| > 0
    ensures Going(t) && Onward(s, t) && Gaps(s.mgr.plan) != []
    ensures Hired(s, Gaps(s.mgr.plan)[0], r, t)
  {
    var p := s.mgr.plan;
    DesertedChunks(s);
    FullIff(p);
    GapIsAccepted(p, 0);
    SpareId(s.mgr);
    t, r := Hires(s, Gaps(p)[0]);
    assert Creates(s, t);
    Paths.OneStep(AskedStep, s, t);
  }

  lemma GapIsAccepted(p: Plan, i: nat)
    requires Planner.Inv(p) && p.maxChunkCount.None? && i < |Gaps(p)|
    ensures Accepts(p, Gaps(p)[i])
  {
    AcceptsIffInOneGap(p, Gaps(p)[i]);
    GapsExact(p);
    assert InsideGap(p, Gaps(p)[i], i);
  }

  lemma MapIsUpdate(before: map<nat, ChunkState>, after: map<nat, ChunkState>, k: nat)
    requires OnlyProgress(before, after, k)
    ensures after == before[k := after[k]]
  {
    forall j | j in before[k := after[k]] ensures j in after && after[j] == before[k := after[k]][j] {
      assert j == k || (j in before - {k} && (before - {k})[j] == before[j] && (after - {k})[j] == after[j]);
    }
    forall j | j in after ensures j in before {
      assert j == k || j in after - {k};
    }
  }

  lemma ProgressCounts(before: map<nat, ChunkState>, after: map<nat, ChunkState>, total: nat, k: nat)
    requires WellFormed(before, total) && WellFormed(after, total) && PairwiseDisjoint(before)
    requires OnlyProgress(before, after, k) && before[k].downloaded == Range(k, k) && after[k].IsComplete()
    ensures |DownloadedBytes(after)| > |DownloadedBytes(before)|
  {
    MapIsUpdate(before, after, k);
    PlannerLaws.GrowBytes(before, total, k, after[k]);
  }

  /** A runner that completed its empty chunk added to what was accepted. */
  lemma DeliveryCounts(s: System, t: System, r: RunnerId)
    requires SystemOk(s) && SystemOk(t) && Frame(s, t, r)
    requires var c := s.mgr.plan.chunks[s.mgr.plan.owners[r]]; c.downloaded == Range(c.span.start, c.span.start)
    requires t.mgr.plan.chunks[s.mgr.plan.owners[r]].IsComplete()
    ensures t.mgr.plan.accepted > s.mgr.plan.accepted
  {
    var k := s.mgr.plan.owners[r];
    assert s.mgr.plan.chunks[k].WellFormed(k, s.mgr.plan.total);
    ProgressCounts(s.mgr.plan.chunks, t.mgr.plan.chunks, s.mgr.plan.total, k);
  }

  /** The only runner there is has nothing of its chunk yet. */
  ghost predicate Beginner(s: System, r: RunnerId) {
    && s.procs.Keys == {r} && s.mgr.spawnFailures == []
    && Fresh(s.procs[r])
    && r in s.mgr.plan.owners && s.mgr.plan.owners[r] in s.mgr.plan.chunks
    && var c := s.mgr.plan.chunks[s.mgr.plan.owners[r]]; c.downloaded == Range(c.span.start, c.span.start)
  }

  lemma HiredIsBeginner(s: System, range: Range, r: RunnerId, t: System)
    requires Deserted(s) && Hired(s, range, r, t)
    ensures Beginner(t, r) && t.mgr.plan.accepted == s.mgr.plan.accepted
  {
  }

  lemma FrameKeepsCrew(s: System, t: System, r: RunnerId)
    requires Frame(s, t, r) && s.procs.Keys == {r}
    ensures t.procs - {r} == map[] && t.mgr.spawnFailures == s.mgr.spawnFailures
    ensures t.source == s.source && |t.mgr.ids.bits| == |s.mgr.ids.bits|
  {
    assert t.procs - {r} == s.procs - {r};
  }

  /** A beginner delivers and leaves. */
  lemma DeliversAndLeaves(s: System, r: RunnerId) returns (t: System)
    requires Going(s) && Beginner(s, r)
    ensures SystemOk(t) && Onward(s, t) && Deserted(t) && t.source == s.source
    ensures t.mgr.plan.accepted > s.mgr.plan.accepted && |t.mgr.ids.bits| == |s.mgr.ids.bits|
    ensures t.finished <==> IsComplete(t.mgr.plan)
  {
    var delivered := Delivers(s, r);
    DeliveryCounts(s, delivered, r);
    FrameKeepsCrew(s, delivered, r);
    t := ReadsStop(delivered, r);
    OnwardTrans(s, delivered, t);
  }

  /** One gap is downloaded, and its runner gone again. */
  lemma Fills(s: System) returns (t: System)
    requires Going(s) && Deserted(s) && s.mgr.plan.accepted < |s.source| && |s.mgr.ids.bits| > 0
    ensures SystemOk(t) && Onward(s, t) && Deserted(t) && t.source == s.source
    ensures t.mgr.plan.accepted > s.mgr.plan.accepted && |t.mgr.ids.bits| == |s.mgr.ids.bits|
    ensures t.finished <==> t.mgr.plan.accepted == |t.source|
  {
    var staffed, r := Staffs(s);
    HiredIsBeginner(s, Gaps(s.mgr.plan)[0], r, staffed);
    t := DeliversAndLeaves(staffed, r);
    OnwardTrans(s, staffed, t);
    DesertedIsComplete(t);
  }

  lemma {:induction false} FillsAll(s: System) returns (t: System)
    requires Going(s) && Deserted(s) && s.mgr.plan.accepted < |s.source| && |s.mgr.ids.bits| > 0
    ensures Onward(s, t) && t.finished
    decreases |s.source| - s.mgr.plan.accepted
  {
    t := Fills(s);
    if !t.finished {
      var next := t;
      PlannerLaws.AcceptedWithinTotal(next.mgr.plan);
      t := FillsAll(next);
      OnwardTrans(s, next, t);
    }
  }

  // ----- From where a download can finish

  lemma CanRecover(s: System) returns (t: System)
    requires Going(s) && !Doomed(s) && |s.mgr.ids.bits| > 0
    ensures Onward(s, t) && t.finished
  {
    PlannerLaws.AcceptedWithinTotal(s.mgr.plan);
    if s.mgr.plan.accepted == |s.source| {
      var last :| last in s.procs && !Failing(s.procs[last]);
      t := FinishFull(s, last);
    } else {
      var cleared := Clears(s);
      t := FillsAll(cleared);
      OnwardTrans(s, cleared, t);
    }
  }

  lemma SpawnSameIds(m: Manager, range: Range, accepted: bool)
    ensures |SpawnRunner(m, range, accepted).0.ids.bits| == |m.ids.bits|
  {
  }

  lemma StopSameIds(m: Manager, r: RunnerId, event: Runner.LifecycleEvent)
    ensures |OnLifecycle(m, r, event).0.ids.bits| == |m.ids.bits|
  {
  }

  lemma OtherSameIds(s: System, e: Event, t: System)
    requires Engine.Steps(s, e, t) && !e.Spawn? && !e.LifecycleTick?
    ensures |t.mgr.ids.bits| == |s.mgr.ids.bits|
  {
  }

  lemma SameIds(s: System, t: System)
    requires Step(s, t)
    ensures |t.mgr.ids.bits| == |s.mgr.ids.bits|
  {
    var e :| Engine.Steps(s, e, t);
    match e
    case Spawn(range, accepted) => SpawnSameIds(s.mgr, range, accepted);
    case LifecycleTick(r) => StopSameIds(s.mgr, r, NextEvent(s.procs[r]));
    case _ => OtherSameIds(s, e, t);
  }

  /** Without ids nobody is ever spawned, and nobody reports. */
  ghost predicate Idle(s: System) { SystemOk(s) && |s.mgr.ids.bits| == 0 && !s.finished }

  lemma IdleStep(s: System, t: System)
    requires Idle(s) && Step(s, t)
    ensures Idle(t)
  {
    StepKeepsInv(s, t);
    SameIds(s, t);
    forall r: RunnerId ensures r !in s.mgr.mail {
      assert Ids.IsAllocated(s.mgr.ids, r) <==> r in s.mgr.mail;
    }
    var e :| Engine.Steps(s, e, t);
    ReportedExactly(s, e, t);
  }

  lemma ManyIds(source: seq<Byte>, maxConcurrency: nat, s: System)
    requires Reachable(source, maxConcurrency, s)
    ensures |s.mgr.ids.bits| == maxConcurrency
  {
    var path :| Paths.Joins(Step, path, Start(source, maxConcurrency), s);
    var same := (t: System) => |t.mgr.ids.bits| == maxConcurrency;
    forall u, v | same(u) && Step(u, v) ensures same(v) {
      SameIds(u, v);
    }
    Paths.Keeps(Step, same, path, |path| - 1);
  }

  ghost predicate CanFinish(s: System) { exists t :: Leads(s, t) && t.finished }

  /** As long as there is an id, a download can finish from any state that is not doomed, and from no other. */
  lemma FinishPossibleIff(source: seq<Byte>, maxConcurrency: nat, s: System)
    requires Reachable(source, maxConcurrency, s) && !s.finished
    ensures CanFinish(s) <==> maxConcurrency > 0 && !Doomed(s)
    ensures CanFinish(s) ==> exists t :: Onward(s, t) && t.finished
  {
    ReachableOk(source, maxConcurrency, s);
    ManyIds(source, maxConcurrency, s);
    if maxConcurrency == 0 {
      IdleForever(s);
    } else if Doomed(s) {
      forall t | Leads(s, t) ensures !t.finished { DoomedForever(s, t); }
    } else {
      var t := CanRecover(s);
      OnwardLeads(s, t);
    }
  }

  lemma IdleForever(s: System)
    requires Idle(s)
    ensures !CanFinish(s)
  {
    forall t | Leads(s, t) ensures !t.finished {
      var path :| Paths.Joins(Step, path, s, t);
      forall u, v | Idle(u) && Step(u, v) ensures Idle(v) {
        IdleStep(u, v);
      }
      Paths.Keeps(Step, Idle, path, |path| - 1);
    }
  }

  /** Every download of something can finish, and then everything is written. */
  lemma CompletionHappens(source: seq<Byte>, maxConcurrency: nat)
    requires 0 < |source| <= U64_MAX && maxConcurrency > 0
    ensures exists t ::
              && Onward(Start(source, maxConcurrency), t) && t.finished && t.mgr.plan.accepted == |source|
              && forall b: nat | b < |source| :: WrittenOnce(source, t.written, b)
  {
    var s := Start(source, maxConcurrency);
    StartOk(source, maxConcurrency);
    var t := CanRecover(s);
    OnwardLeads(s, t);
    ReachableOk(source, maxConcurrency, t);
    FinishedIsWritten(t);
  }
}
