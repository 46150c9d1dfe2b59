/**
 A spawned runner can deliver its chunk: it connects, streams its range in as many frames as it takes, drains and
 reports `Finished`, while nothing else of the download changes.
 */
module Delivery {
  import opened Wrappers
  import opened Planner
  import opened PlannerLaws
  import opened Manager
  import opened Engine
  import opened EngineLocal
  import opened EngineInvariant
  import opened EngineCrew
  import opened EngineSteps
  import opened EngineTicks
  import opened EngineRuns
  import opened Splitting
  import opened Strategies
  import Ids = IdGeneration
  import Runner
  import RunnerLaws

  // ----- What one runner's steps leave alone

  ghost predicate OnlyProgress(before: map<nat, ChunkState>, after: map<nat, ChunkState>, k: nat) {
    k in before && k in after && after - {k} == before - {k} && after[k].span == before[k].span
  }

  /** Only runner `r` and its chunk's progress may differ. */
  ghost predicate Frame(s: System, t: System, r: RunnerId) {
    && r in s.procs && r in t.procs && t.procs - {r} == s.procs - {r} && t.source == s.source
    && t.mgr.mail == s.mgr.mail && t.mgr.ids == s.mgr.ids && t.mgr.spawnFailures == s.mgr.spawnFailures
    && r in s.mgr.plan.owners && t.mgr.plan.owners == s.mgr.plan.owners
    && OnlyProgress(s.mgr.plan.chunks, t.mgr.plan.chunks, s.mgr.plan.owners[r])
    && t.mgr.plan.total == s.mgr.plan.total && t.mgr.plan.minChunkSize == s.mgr.plan.minChunkSize
    && t.mgr.plan.maxChunkCount == s.mgr.plan.maxChunkCount
  }

  ghost predicate Going(s: System) { SystemOk(s) && !s.finished }

  /** From `s`, with only runner `r` doing anything, the download gets to `t`. */
  ghost predicate Forward(s: System, t: System, r: RunnerId) { Going(t) && Onward(s, t) && Frame(s, t, r) }

  lemma FrameTrans(s: System, t: System, u: System, r: RunnerId)
    requires Frame(s, t, r) && Frame(t, u, r)
    ensures Frame(s, u, r)
  {
  }

  lemma ForwardTrans(s: System, t: System, u: System, r: RunnerId)
    requires Forward(s, t, r) && Forward(t, u, r)
    ensures Forward(s, u, r)
  {
    FrameTrans(s, t, u, r);
    OnwardTrans(s, t, u);
  }

  lemma Advances(s: System, e: Event, t: System, r: RunnerId)
    requires Going(s) && Unasked(e) && Engine.Steps(s, e, t) && !t.finished && Frame(s, t, r)
    ensures Forward(s, t, r)
  {
    NextKeepsInv(s, e, t);
    Does(s, e, t);
  }

  // ----- Steps

  /** What is known of a spawned runner. */
  lemma SpawnedFacts(s: System, r: RunnerId)
    requires SystemOk(s) && r in s.procs
    ensures r in s.mgr.mail && r in s.mgr.lifecycles && ProcAt(s.source, s.mgr, s.procs[r], r)
    ensures WellFormed(s.mgr.plan.chunks, s.mgr.plan.total)
  {
    assert ProcAt(s.source, s.mgr, s.procs[r], r);
  }

  lemma Acts(s: System, r: RunnerId, a: Runner.Action) returns (t: System)
    requires Going(s) && r in s.procs && s.procs[r].alive
    requires Runner.Enabled(s.procs[r].loop, a) && Runner.CanResume(s.procs[r].loop) && !a.Signal?
    requires a.ItemArrives? ==> Faithful(s.source, s.procs[r], a.bytes)
    ensures Forward(s, t, r) && t.mgr == s.mgr
    ensures t.procs[r] == s.procs[r].(loop := Runner.Next(s.procs[r].loop, a))
  {
    t := s.(procs := s.procs[r := s.procs[r].(loop := Runner.Next(s.procs[r].loop, a))]);
    SpawnedFacts(s, r);
    ActsSteps(s, r, a, t);
    ActFrames(s, r, t.procs[r], t);
    Advances(s, RunnerActs(r, a), t, r);
  }

  lemma ActFrames(s: System, r: RunnerId, p: Proc, t: System)
    requires r in s.procs && r in s.mgr.plan.owners && s.mgr.plan.owners[r] in s.mgr.plan.chunks
    requires t == s.(procs := s.procs[r := p])
    ensures Frame(s, t, r) && t.finished == s.finished
  {
  }

  lemma ActsSteps(s: System, r: RunnerId, a: Runner.Action, t: System)
    requires !s.finished && !s.panicked && r in s.procs && r in s.mgr.mail
    requires CanAct(s.source, s.mgr.mail[r], s.procs[r], a) && !a.Signal?
    requires t == s.(procs := s.procs[r := s.procs[r].(loop := Runner.Next(s.procs[r].loop, a))])
    ensures Engine.Steps(s, RunnerActs(r, a), t)
  {
    assert s.mgr.mail[r := ActBox(s.mgr.mail[r], a)] == s.mgr.mail;
  }

  /** The manager reads `Started`: the chunk runs. */
  lemma Starts(s: System, r: RunnerId) returns (t: System)
    requires Going(s) && r in s.procs && NextLifecycle(s.procs[r])
    requires s.procs[r].loop.lifecycle.sent[s.procs[r].loop.lifecycle.taken] == Runner.Started
    ensures Forward(s, t, r) && t.procs[r] == TakeLifecycle(s.procs[r])
    ensures t.mgr.plan == MarkRunning(s.mgr.plan, r).0
  {
    SpawnedFacts(s, r);
    t := StartsAt(s, r);
    Advances(s, LifecycleTick(r), t, r);
  }

  lemma StartsAt(s: System, r: RunnerId) returns (t: System)
    requires !s.finished && !s.panicked && r in s.procs && ProcAt(s.source, s.mgr, s.procs[r], r)
    requires r in s.mgr.lifecycles && NextLifecycle(s.procs[r])
    requires s.procs[r].loop.lifecycle.sent[s.procs[r].loop.lifecycle.taken] == Runner.Started
    ensures Engine.Steps(s, LifecycleTick(r), t) && Frame(s, t, r) && !t.finished
    ensures t.procs[r] == TakeLifecycle(s.procs[r]) && t.mgr.plan == MarkRunning(s.mgr.plan, r).0
  {
    t := Engine.Next(s, LifecycleTick(r));
    StartedNext(s, r, t);
    StartFrames(s, r, t);
  }

  lemma StartFrames(s: System, r: RunnerId, t: System)
    requires r in s.procs && OnlyRunner(s.mgr, t.mgr, r) && t.mgr.mail == s.mgr.mail
    requires t.mgr.plan == MarkRunning(s.mgr.plan, r).0
    requires t == s.(mgr := t.mgr, procs := s.procs[r := TakeLifecycle(s.procs[r])])
    ensures Frame(s, t, r)
  {
  }

  ghost predicate FinishedIfComplete(s: System, r: RunnerId) {
    && r in s.mgr.plan.owners && s.mgr.plan.owners[r] in s.mgr.plan.chunks
    && var c := s.mgr.plan.chunks[s.mgr.plan.owners[r]]; (c.IsComplete() ==> c.status == Finished)
  }

  lemma Takes(s: System, r: RunnerId) returns (t: System)
    requires Going(s) && r in s.procs && r in s.mgr.streams && NextFrame(s.procs[r])
    ensures Forward(s, t, r) && t.procs[r] == TakeFrame(s.procs[r]) && FinishedIfComplete(t, r)
  {
    SpawnedFacts(s, r);
    t := Engine.Next(s, DataTick(r));
    DataNext(s, r, t);
    DataFrames(s, r, t);
    Advances(s, DataTick(r), t, r);
  }

  lemma DataFrames(s: System, r: RunnerId, t: System)
    requires DataSystem(s, r, t)
    ensures Frame(s, t, r) && t.procs[r] == TakeFrame(s.procs[r]) && t.finished == s.finished
    ensures FinishedIfComplete(t, r)
  {
  }

  // ----- The runner's loop

  function Loop(total: nat, phase: Runner.Phase, events: seq<Runner.LifecycleEvent>, read: nat): Runner.State {
    Runner.Spawned(total).(
      input := if phase.Connecting? then Runner.Connector else Runner.Connected,
      phase := phase,
      lifecycle := Runner.Channel(events, read, true))
  }

  const READING := Runner.Streaming([], None, None)

  lemma LoopConnects(total: nat)
    ensures Runner.Next(Runner.Spawned(total), Runner.ConnectSucceeds) == Loop(total, Runner.PublishingStarted, [], 0)
    ensures Runner.Next(Loop(total, Runner.PublishingStarted, [], 0), Runner.PublishStarted)
            == Loop(total, READING, [Runner.Started], 0)
  {
  }

  /** Started, its limit never lowered, and all its frames taken. */
  predicate Undisturbed(l: Runner.State, n: nat) {
    && l.total == Some(n) && l.dataHeld
    && l.data.open && l.data.taken == |l.data.sent|
    && l.lifecycle == Runner.Channel([Runner.Started], 1, true)
  }

  /** The whole range was yielded as one item, of which a frame is ready. */
  predicate Sending(l: Runner.State, n: nat) {
    && Undisturbed(l, n) && |l.yielded| == n
    && Runner.Emitting(l) && l.phase.staged.value.deferred.None?
    && (l.phase.staged.value.after.ResumeItem?
        || (l.phase.staged.value.after.Validate? && l.downloaded + |l.phase.staged.value.frame| == n))
  }

  predicate AllSent(l: Runner.State, n: nat) {
    Undisturbed(l, n) && l.phase == Runner.Draining(Ok(())) && l.downloaded == n
  }

  function Took(l: Runner.State): Runner.State { l.(data := l.data.(taken := l.data.taken + 1)) }

  lemma ItemFills(n: nat, bytes: seq<Byte>)
    requires |bytes| == n > 0
    ensures Sending(Runner.Next(Loop(n, READING, [Runner.Started], 1), Runner.ItemArrives(bytes)), n)
  {
    assert bytes[0..] == bytes && [] + bytes == bytes;
  }

  /** A pushed frame is followed by the next, or the range is complete. */
  lemma FrameFollows(l: Runner.State, n: nat)
    requires RunnerLaws.Inv(l) && Sending(l, n)
    ensures Runner.Enabled(l, Runner.PushStaged) && Runner.CanResume(l)
    ensures var t := Runner.Next(l, Runner.PushStaged);
            && t.data.taken == l.data.taken < |t.data.sent| && l.downloaded < t.downloaded <= n
            && (Sending(Took(t), n) || AllSent(Took(t), n))
  {
    var staged := l.phase.staged.value;
    var p := Runner.PushFrame(l);
    var unstaged := p.(phase := p.phase.(staged := None));
    if staged.after.ResumeItem? {
      ItemGoesOn(l, n, unstaged);
    }
  }

  lemma ItemGoesOn(l: Runner.State, n: nat, s: Runner.State)
    requires RunnerLaws.Inv(l) && Sending(l, n) && l.phase.staged.value.after.ResumeItem?
    requires s == Runner.PushFrame(l).(phase := l.phase.(staged := None))
    ensures var t := Runner.BufferItem(s);
            t.data == s.data && t.downloaded == s.downloaded < n && Sending(Took(t), n)
  {
    assert |RunnerLaws.Rest(l)| == n - s.downloaded;
    assert s.phase.buffer == [];
  }

  // ----- A chunk is delivered

  /** Spawned, and nothing happened since. */
  predicate Fresh(p: Proc) { p.alive && p.loop == Runner.Spawned(p.size) }

  lemma Begins(s: System, r: RunnerId) returns (t: System)
    requires Going(s) && r in s.procs && Fresh(s.procs[r])
    ensures Forward(s, t, r)
    ensures t.procs[r] == s.procs[r].(loop := Loop(s.procs[r].size, READING, [Runner.Started], 1))
    ensures t.mgr.plan == MarkRunning(s.mgr.plan, r).0
  {
    LoopConnects(s.procs[r].size);
    var t1 := Acts(s, r, Runner.ConnectSucceeds);
    var t2 := Acts(t1, r, Runner.PublishStarted);
    t := Starts(t2, r);
    ForwardTrans(s, t1, t2, r);
    ForwardTrans(s, t2, t, r);
  }

  lemma SourceIsFaithful(source: seq<Byte>, p: Proc, bytes: seq<Byte>)
    requires p.start + p.size <= |source| && p.loop.yielded == [] && bytes == source[p.start..p.start + p.size]
    ensures Faithful(source, p, bytes)
  {
  }

  /** Nothing was yielded: the item is the range itself. */
  lemma Yields(s: System, r: RunnerId) returns (t: System)
    requires Going(s) && r in s.procs && s.procs[r].alive
    requires s.procs[r].loop == Loop(s.procs[r].size, READING, [Runner.Started], 1)
    ensures Forward(s, t, r) && t.procs[r].alive && Sending(t.procs[r].loop, s.procs[r].size)
  {
    var p := s.procs[r];
    SpawnedFacts(s, r);
    RangeIsSource(s, r);
    var bytes := s.source[p.start..p.start + p.size];
    SourceIsFaithful(s.source, p, bytes);
    ItemFills(p.size, bytes);
    t := Acts(s, r, Runner.ItemArrives(bytes));
  }

  lemma RangeIsSource(s: System, r: RunnerId)
    requires r in s.procs && ProcAt(s.source, s.mgr, s.procs[r], r)
    ensures s.procs[r].size > 0 && s.procs[r].start + s.procs[r].size <= |s.source|
  {
    var m := s.mgr;
    LimitsBelowSize(m.plan.chunks[m.plan.owners[r]], m.mail[r], s.procs[r]);
  }

  /** The frame that is ready is pushed, and taken. */
  lemma SendsOne(s: System, r: RunnerId, n: nat) returns (t: System)
    requires Going(s) && r in s.procs && s.procs[r].alive && Sending(s.procs[r].loop, n)
    ensures Forward(s, t, r) && t.procs[r].alive
    ensures Sending(t.procs[r].loop, n) || AllSent(t.procs[r].loop, n)
    ensures FinishedIfComplete(t, r)
    ensures s.procs[r].loop.downloaded < t.procs[r].loop.downloaded <= n
  {
    SpawnedFacts(s, r);
    FrameFollows(s.procs[r].loop, n);
    var t1 := Acts(s, r, Runner.PushStaged);
    SpawnedFacts(t1, r);
    t := Takes(t1, r);
    ForwardTrans(s, t1, t, r);
  }

  lemma {:induction false} Sends(s: System, r: RunnerId, n: nat) returns (t: System)
    requires Going(s) && r in s.procs && s.procs[r].alive && Sending(s.procs[r].loop, n)
    requires s.procs[r].loop.downloaded <= n
    ensures Forward(s, t, r) && t.procs[r].alive && AllSent(t.procs[r].loop, n) && FinishedIfComplete(t, r)
    decreases n - s.procs[r].loop.downloaded
  {
    t := SendsOne(s, r, n);
    if !AllSent(t.procs[r].loop, n) {
      var next := t;
      t := Sends(next, r, n);
      ForwardTrans(s, next, t, r);
    }
  }

  /** `Finished` was sent and is not read. */
  const REPORTED := Runner.Channel([Runner.Started, Runner.Stopped(Runner.Finished)], 1, true)

  predicate Reported(p: Proc) { p.loop.lifecycle == REPORTED }

  lemma Reports(s: System, r: RunnerId, n: nat) returns (t: System)
    requires Going(s) && r in s.procs && s.procs[r].alive && AllSent(s.procs[r].loop, n)
    ensures Forward(s, t, r) && Reported(t.procs[r]) && t.mgr == s.mgr
  {
    LoopReports(s.procs[r].loop, n);
    var t1 := Acts(s, r, Runner.FinishDrain(Runner.Drained));
    t := Acts(t1, r, Runner.PublishStopped);
    ForwardTrans(s, t1, t, r);
  }

  lemma LoopReports(l: Runner.State, n: nat)
    requires AllSent(l, n)
    ensures Runner.Enabled(l, Runner.FinishDrain(Runner.Drained)) && Runner.CanResume(l)
    ensures var drained := Runner.Next(l, Runner.FinishDrain(Runner.Drained));
            && Runner.Enabled(drained, Runner.PublishStopped) && Runner.CanResume(drained)
            && Runner.Next(drained, Runner.PublishStopped).lifecycle == REPORTED
  {
  }

  /** What a reported delivery means for the chunk. */
  lemma ReportedIsComplete(s: System, r: RunnerId)
    requires SystemOk(s) && r in s.procs && Reported(s.procs[r])
    ensures r in s.mgr.plan.owners && s.mgr.plan.owners[r] in s.mgr.plan.chunks
    ensures s.mgr.plan.chunks[s.mgr.plan.owners[r]].IsComplete()
  {
    SpawnedFacts(s, r);
    var m := s.mgr;
    SuccessMeansComplete(s.source, m.plan.chunks[m.plan.owners[r]], m.mail[r], s.procs[r],
      r in m.connecting, r in m.streams);
  }

  /** A new runner can deliver its chunk, and then has `Finished` to report. */
  lemma Delivers(s: System, r: RunnerId) returns (t: System)
    requires Going(s) && r in s.procs && Fresh(s.procs[r])
    ensures Forward(s, t, r) && Reported(t.procs[r])
    ensures var c := t.mgr.plan.chunks[s.mgr.plan.owners[r]]; c.IsComplete() && c.status == Finished
  {
    var t1 := Begins(s, r);
    var t2 := Yields(t1, r);
    SpawnedFacts(t2, r);
    var t3 := Sends(t2, r, s.procs[r].size);
    t := Reports(t3, r, s.procs[r].size);
    ForwardTrans(s, t1, t2, r);
    ForwardTrans(s, t2, t3, r);
    ForwardTrans(s, t3, t, r);
    ReportedIsComplete(t, r);
  }

  // ----- A runner is hired

  /** What a hired runner adds. */
  ghost predicate Hired(s: System, range: Range, r: RunnerId, t: System) {
    && range.start <= range.end && t.source == s.source && t.written == s.written && !t.finished
    && r !in s.mgr.mail && r !in s.procs && |t.mgr.ids.bits| == |s.mgr.ids.bits|
    && t.mgr.mail == s.mgr.mail[r := Mailbox(None, true)] && t.mgr.spawnFailures == s.mgr.spawnFailures
    && t.procs == s.procs[r := NewProc(range)] && Fresh(t.procs[r])
    && t.mgr.plan == s.mgr.plan.(
         chunks := s.mgr.plan.chunks[range.start := NewChunk(range, Some(r), Pending)],
         owners := s.mgr.plan.owners[r := range.start])
  }

  lemma Hires(s: System, range: Range) returns (t: System, r: RunnerId)
    requires Going(s) && Accepts(s.mgr.plan, range) && IdFree(s.mgr)
    ensures Going(t) && Engine.Steps(s, Spawn(range, true), t) && Hired(s, range, r, t)
  {
    t := Engine.Next(s, Spawn(range, true));
    Ids.NextIdIsFree(s.mgr.ids);
    AcceptedIsNew(s.mgr.plan, range);
    r := Ids.NextId(s.mgr.ids).1.value;
    PlacedSpawn(s.mgr, range, true, r, t.mgr);
    JoinedIsHired(s, range, r, t);
    JoinKeepsSystem(s, range, true, r, t);
  }

  lemma JoinedIsHired(s: System, range: Range, r: RunnerId, t: System)
    requires JoinedSystem(s, range, true, r, t) && range.start <= range.end && !s.finished
    requires r !in s.mgr.mail && s.procs.Keys <= s.mgr.mail.Keys && |t.mgr.ids.bits| == |s.mgr.ids.bits|
    ensures Hired(s, range, r, t)
  {
  }
}
