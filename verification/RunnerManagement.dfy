/**
 The runner manager as an object. It owns the id generator and the planner, and keeps the sending end
 of every runner's limits, the rejected spawns, and which receiving ends it polls.
 */
module RunnerManagement {
  import opened Wrappers
  import opened Numbers
  import opened Planner
  import opened PlannerLaws
  import opened ChunkPlanning
  import opened Manager
  import Spec = Manager
  import Ids = IdGeneration
  import Runner

  class RunnerManager {
    const idGenerator: Ids.Generator
    const chunkPlanner: ChunkPlanner
    var limitSenders: map<RunnerId, Mailbox>
    var pendingFailures: seq<RunnerId>
    var lifecycleReceivers: set<RunnerId>
    var connectingData: set<RunnerId>
    var dataReceivers: set<RunnerId>

    ghost function View(): Spec.Manager
      reads this, idGenerator, idGenerator.bits, chunkPlanner
    {
      Spec.Manager(idGenerator.View(), chunkPlanner.View(), limitSenders, pendingFailures,
                      lifecycleReceivers, connectingData, dataReceivers)
    }

    ghost predicate Valid()
      reads this, idGenerator, idGenerator.bits, chunkPlanner
    {
      idGenerator.Valid() && chunkPlanner.Valid()
    }

    ghost predicate Tidy()
      reads this, idGenerator, idGenerator.bits, chunkPlanner
    {
      OwnersAllocated(View())
    }

    constructor (total: nat, maxConcurrency: nat)
      requires total <= U64_MAX
      ensures View() == NewManager(total, maxConcurrency) && Valid() && Tidy()
    {
      idGenerator := new Ids.Generator(maxConcurrency);
      chunkPlanner := new ChunkPlanner(total);
      limitSenders := map[];
      pendingFailures := [];
      lifecycleReceivers, connectingData, dataReceivers := {}, {}, {};
    }

    method AllocateRunner() returns (id: Option<RunnerId>)
      requires Valid()
      modifies this, idGenerator, idGenerator.bits
      ensures (View(), id) == Spec.AllocateRunner(old(View()))
      ensures Valid() && chunkPlanner.View() == old(chunkPlanner.View())
    {
      id := idGenerator.Next();
      if id.Some? {
        limitSenders := limitSenders[id.value := Mailbox(None, true)];
      }
    }

    method ReleaseRunner(r: RunnerId)
      requires Valid()
      modifies this, idGenerator, idGenerator.bits
      ensures View() == Spec.ReleaseRunner(old(View()), r)
      ensures Valid() && chunkPlanner.View() == old(chunkPlanner.View())
    {
      limitSenders := limitSenders - {r};
      lifecycleReceivers := lifecycleReceivers - {r};
      connectingData := connectingData - {r};
      dataReceivers := dataReceivers - {r};
      var released := idGenerator.Release(r);
    }

    predicate IsConnecting(r: RunnerId)
      reads this, chunkPlanner
    {
      && r in chunkPlanner.runnerToChunk
      && chunkPlanner.runnerToChunk[r] in chunkPlanner.chunks
      && chunkPlanner.chunks[chunkPlanner.runnerToChunk[r]].status == Pending
    }

    method RegisterRunnerChannels(r: RunnerId)
      modifies this
      ensures View() == RegisterChannels(old(View()), r)
    {
      lifecycleReceivers := lifecycleReceivers + {r};
      if IsConnecting(r) {
        connectingData := connectingData + {r};
      } else {
        dataReceivers := dataReceivers + {r};
      }
    }

    /** Give a new runner a pending chunk; `accepted` is the spawner's answer. */
    method SpawnRunnerWithChunk(range: Range, accepted: bool) returns (id: Option<RunnerId>)
      requires Valid()
      modifies this, idGenerator, idGenerator.bits, chunkPlanner
      ensures (View(), id) == SpawnRunner(old(View()), range, accepted)
      ensures Valid() <==> id.None? || Reassignable(old(View()).plan, id.value)
      ensures old(Tidy()) ==> Valid() && Tidy()
    {
      SpawnKeepsOwnersAllocated(View(), range, accepted);
      id := AllocateRunner();
      if id.None? {
        return None;
      }
      var placed := PlaceRunner(id.value, range, accepted);
      return if placed then id else None;
    }

    /** Give a runner that was just allocated its chunk, or take its id back. */
    method PlaceRunner(r: RunnerId, range: Range, accepted: bool) returns (placed: bool)
      requires Valid()
      modifies this, idGenerator, idGenerator.bits, chunkPlanner
      ensures View() == PlaceAllocated(old(View()), r, range, accepted)
      ensures placed <==> Accepts(old(View()).plan, range)
      ensures Valid() <==> !placed || Reassignable(old(View()).plan, r)
    {
      placed := chunkPlanner.AllocateChunk(range, Some(r));
      ghost var sound := chunkPlanner.Valid();
      assert sound <==> !placed || Reassignable(old(View()).plan, r);
      if !placed {
        ReleaseRunner(r);
      } else if accepted {
        RegisterRunnerChannels(r);
      } else {
        limitSenders := limitSenders[r := Mailbox(None, false)];
        pendingFailures := pendingFailures + [r];
      }
    }

    /** Cut a runner's chunk and lower its limit together; whatever fails, neither happens. */
    method ResizeRunner(r: RunnerId, newSize: nat) returns (res: Result<(), ResizeError>)
      requires Valid()
      modifies this, chunkPlanner
      ensures (View(), res) == Spec.ResizeRunner(old(View()), r, newSize)
      ensures Valid() && (res.Err? ==> View() == old(View()))
      ensures old(Tidy()) ==> Tidy()
    {
      ResizeKeepsOwnersAllocated(View(), r, newSize);
      var guard := new PlannerGuard(chunkPlanner);
      var resized := chunkPlanner.ResizeRunnerState(r, newSize);
      if resized.Err? {
        guard.Drop();
        return Err(PlannerError(resized.error));
      }
      if resized.value.Unchanged? {
        guard.Drop();
        return Ok(());
      }
      if r !in limitSenders {
        guard.Drop();
        return Err(LimitError(MailboxNotFound(r)));
      }
      var sent := Send(limitSenders[r], resized.value.limit);
      if sent.None? {
        guard.Drop();
        return Err(LimitError(ReceiverGone(r)));
      }
      limitSenders := limitSenders[r := sent.value];
      guard.Commit();
      guard.Drop();
      return Ok(());
    }

    method CompleteRunner(r: RunnerId) returns (tick: Tick)
      requires Valid()
      modifies chunkPlanner
      ensures (View(), tick) == MarkRunnerCompleted(old(View()), r)
      ensures Valid()
    {
      var finished := chunkPlanner.SetFinished(r);
      if finished.Err? {
        return Panicked;
      }
      var complete := chunkPlanner.IsDone();
      return if complete then AllFinished else Downloading;
    }

    method FailAttempt(r: RunnerId, error: Runner.TaskError) returns (tick: Tick)
      requires Valid()
      modifies chunkPlanner
      ensures (View(), tick) == FailRunner(old(View()), r, error)
      ensures Valid()
    {
      var unfinished := chunkPlanner.SetFailed(r);
      return if unfinished.Err? then Panicked else if error.Cancelled? then Downloading else AttemptFailed(r, error);
    }

    method HandleLifecycle(r: RunnerId, event: Runner.LifecycleEvent) returns (tick: Tick)
      requires Valid()
      modifies this, idGenerator, idGenerator.bits, chunkPlanner
      ensures (View(), tick) == OnLifecycle(old(View()), r, event)
      ensures Valid()
      ensures old(Tidy()) ==> Tidy() || tick.Panicked?
    {
      if Tidy() && !(IsConnecting(r) && event == Runner.Stopped(Runner.Finished)) {
        StopKeepsOwnersAllocated(View(), r, event);
      }
      match event {
        case Started => tick := StartRunner(r);
        case Stopped(reason) => tick := StopRunner(r, reason);
      }
    }

    /** A connecting runner's chunk runs, and its data is polled from now on. */
    method StartRunner(r: RunnerId) returns (tick: Tick)
      requires Valid()
      modifies this, chunkPlanner
      ensures (View(), tick) == OnLifecycle(old(View()), r, Runner.Started)
      ensures Valid()
    {
      var connecting := IsConnecting(r);
      var running, pending := chunkPlanner.SetRunning(r);
      if !connecting || running.Err? || !pending || r !in connectingData {
        return Panicked;
      }
      connectingData := connectingData - {r};
      dataReceivers := dataReceivers + {r};
      return Downloading;
    }

    /** A stop completes the chunk of a started runner that succeeded, and fails any other. */
    method StopRunner(r: RunnerId, reason: Runner.StoppedReason) returns (tick: Tick)
      requires Valid()
      modifies this, idGenerator, idGenerator.bits, chunkPlanner
      ensures (View(), tick) == OnLifecycle(old(View()), r, Runner.Stopped(reason))
      ensures Valid()
    {
      var connecting := IsConnecting(r);
      ReleaseRunner(r);
      if connecting {
        if reason.Finished? {
          return Panicked;
        }
        tick := FailAttempt(r, reason.error);
      } else if reason == Runner.Finished || reason == Runner.Failed(Runner.ExceededTotalSize) {
        tick := CompleteRunner(r);
      } else {
        tick := FailAttempt(r, reason.error);
      }
    }

    method HandleRunnerLost(r: RunnerId) returns (tick: Tick)
      requires Valid()
      modifies this, idGenerator, idGenerator.bits, chunkPlanner
      ensures (View(), tick) == OnLost(old(View()), r)
      ensures Valid()
      ensures old(Tidy()) ==> Tidy()
    {
      if Tidy() {
        LossKeepsOwnersAllocated(View(), r);
      }
      var unfinished := chunkPlanner.SetFailed(r);
      var complete := chunkPlanner.IsDone();
      ReleaseRunner(r);
      return if unfinished.Err? then Panicked
             else if complete then AllFinished
             else AttemptFailed(r, Runner.ChannelClosed);
    }

    method TakeSpawnFailure() returns (tick: Option<Tick>)
      requires Valid()
      modifies this, idGenerator, idGenerator.bits, chunkPlanner
      ensures old(pendingFailures) == [] ==> tick.None? && View() == old(View())
      ensures old(pendingFailures) != [] ==> tick.Some? && (View(), tick.value) == OnSpawnFailure(old(View()))
      ensures Valid()
      ensures old(Tidy()) ==> Tidy()
    {
      if Tidy() && pendingFailures != [] {
        RejectionKeepsOwnersAllocated(View());
      }
      if pendingFailures == [] {
        return None;
      }
      var r := pendingFailures[0];
      pendingFailures := pendingFailures[1..];
      ReleaseRunner(r);
      var failed := FailAttempt(r, Runner.Other);
      return Some(failed);
    }

    /** Accept a frame; what is written is its part in the accepted range. */
    method HandleDataFrame(r: RunnerId, frame: seq<Runner.Byte>) returns (written: Option<(Range, seq<Runner.Byte>)>)
      requires Valid()
      modifies chunkPlanner
      ensures (View(), if written.Some? then Some(written.value.0) else None) == OnData(old(View()), r, |frame|)
      ensures written.Some? ==> written.value.0.Len() <= |frame| && written.value.1 == frame[..written.value.0.Len()]
      ensures Valid()
      ensures old(Tidy()) ==> Tidy()
    {
      var range := chunkPlanner.UpdateProgress(r, |frame|);
      if range.Err? {
        return None;
      }
      return Some((range.value, frame[..range.value.Len()]));
    }

    /** Rejected spawns come first, then lifecycle, then data while the writer can take it. */
    method PollTick(lifecycle: Option<LifecycleInput>, data: Option<DataInput>, dataEnabled: bool)
        returns (outcome: Outcome)
      requires Valid()
      modifies this, idGenerator, idGenerator.bits, chunkPlanner
      ensures old(pendingFailures) != [] ==>
                outcome.Ticked? && (View(), outcome.tick) == OnSpawnFailure(old(View()))
      ensures old(pendingFailures) == [] && lifecycle.Some? ==>
                && outcome.Ticked?
                && (View(), outcome.tick) == (match lifecycle.value
                                              case Event(r, event) => OnLifecycle(old(View()), r, event)
                                              case Closed(r) => OnLost(old(View()), r))
      ensures old(pendingFailures) == [] && lifecycle.None? && data.Some? && dataEnabled ==>
                match data.value
                case Frame(r, frame) =>
                  && outcome.Wrote?
                  && View() == OnData(old(View()), r, |frame|).0
                  && (outcome.part.Some? <==> OnData(old(View()), r, |frame|).1.Some?)
                  && (outcome.part.Some? ==>
                        && OnData(old(View()), r, |frame|).1 == Some(outcome.part.value.0)
                        && outcome.part.value.0.Len() <= |frame|
                        && outcome.part.value.1 == frame[..outcome.part.value.0.Len()])
                case DataClosed(r) => outcome == Ticked(Downloading) && View() == OnDataClosed(old(View()), r)
      ensures old(pendingFailures) == [] && lifecycle.None? && (data.None? || !dataEnabled) ==>
                outcome == NothingReady && View() == old(View())
      ensures Valid()
      ensures old(Tidy()) ==> Tidy() || outcome == Ticked(Panicked)
    {
      var failed := TakeSpawnFailure();
      if failed.Some? {
        return Ticked(failed.value);
      }
      if lifecycle.Some? {
        var tick;
        match lifecycle.value {
          case Event(r, event) => tick := HandleLifecycle(r, event);
          case Closed(r) => tick := HandleRunnerLost(r);
        }
        return Ticked(tick);
      }
      if data.None? || !dataEnabled {
        return NothingReady;
      }
      match data.value {
        case Frame(r, frame) =>
          var part := HandleDataFrame(r, frame);
          return Wrote(part);
        case DataClosed(r) =>
          dataReceivers := dataReceivers - {r};
          return Ticked(Downloading);
      }
    }
  }

  /** A spawn gives its chunk to an id that it allocates, or gives none. */
  lemma SpawnKeepsOwnersAllocated(m: Spec.Manager, range: Range, accepted: bool)
    requires Ids.Inv(m.ids)
    ensures OwnersAllocated(m) ==> OwnersAllocated(SpawnRunner(m, range, accepted).0)
    ensures OwnersAllocated(m) && SpawnRunner(m, range, accepted).1.Some? ==>
              SpawnRunner(m, range, accepted).1.value !in m.plan.owners
  {
    Ids.NextIdIsFree(m.ids);
    var id := Ids.NextId(m.ids).1;
    if id.Some? {
      Ids.ReleaseFrees(Ids.NextId(m.ids).0, id.value);
    }
  }

  lemma ResizeKeepsOwnersAllocated(m: Spec.Manager, r: RunnerId, newSize: nat)
    ensures OwnersAllocated(m) ==> OwnersAllocated(Spec.ResizeRunner(m, r, newSize).0)
  {
  }

  /** A stop frees an id only together with its chunk, so no later spawn can be given an id that still owns one. */
  lemma StopKeepsOwnersAllocated(m: Spec.Manager, r: RunnerId, event: Runner.LifecycleEvent)
    requires Ids.Inv(m.ids) && OwnersAllocated(m)
    requires IsConnecting(m, r) ==> event != Runner.Stopped(Runner.Finished)
    ensures OwnersAllocated(OnLifecycle(m, r, event).0)
  {
    Ids.ReleaseFrees(m.ids, r);
  }

  lemma LossKeepsOwnersAllocated(m: Spec.Manager, r: RunnerId)
    requires Ids.Inv(m.ids) && OwnersAllocated(m)
    ensures OwnersAllocated(OnLost(m, r).0)
  {
    Ids.ReleaseFrees(m.ids, r);
  }

  lemma RejectionKeepsOwnersAllocated(m: Spec.Manager)
    requires Ids.Inv(m.ids) && OwnersAllocated(m) && m.spawnFailures != []
    ensures OwnersAllocated(OnSpawnFailure(m).0)
  {
    Ids.ReleaseFrees(m.ids, m.spawnFailures[0]);
  }

  /** What the aggregators of lifecycle events and of data have ready. */
  datatype LifecycleInput = Event(runner: RunnerId, event: Runner.LifecycleEvent) | Closed(runner: RunnerId)

  datatype DataInput = Frame(runner: RunnerId, frame: seq<Runner.Byte>) | DataClosed(runner: RunnerId)

  datatype Outcome = NothingReady | Ticked(tick: Tick) | Wrote(part: Option<(Range, seq<Runner.Byte>)>)
}
