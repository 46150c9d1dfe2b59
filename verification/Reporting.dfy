/**
 What the loop is told of each attempt. Every failure of a started runner, every failed connection, every rejected
 spawn and every loss is told once; a success, an excess and a cancelled runner are not.
 */
module Reporting {
  import opened Numbers
  import opened Planner
  import opened Manager
  import opened Engine
  import opened EngineLocal
  import opened EngineInvariant
  import opened EngineRuns
  import opened Completion
  import Runner
  import RunnerLaws

  // ----- What one tick answers

  /** The runner has reported `Started`. */
  ghost predicate HasStarted(m: Manager, r: RunnerId)
    requires r in m.plan.owners && m.plan.owners[r] in m.plan.chunks
  {
    m.plan.chunks[m.plan.owners[r]].status != Pending
  }

  /** From any plan in which the runner owns a chunk: what each reason for a stop is answered with. */
  lemma StopOutcome(m: Manager, r: RunnerId, reason: Runner.StoppedReason, n: Manager, tick: Tick)
    requires r in m.plan.owners && m.plan.owners[r] in m.plan.chunks
    requires (n, tick) == OnLifecycle(m, r, Runner.Stopped(reason))
    ensures forall told, error :: tick == AttemptFailed(told, error) <==>
              && told == r && reason == Runner.Failed(error) && error != Runner.Cancelled
              && (HasStarted(m, r) ==> error != Runner.ExceededTotalSize)
    ensures tick == AllFinished <==>
            && HasStarted(m, r) && IsComplete(n.plan)
            && (reason == Runner.Finished || reason == Runner.Failed(Runner.ExceededTotalSize))
    ensures tick == Downloading <==>
            || reason == Runner.Failed(Runner.Cancelled)
            || (HasStarted(m, r) && !IsComplete(n.plan)
               && (reason == Runner.Finished || reason == Runner.Failed(Runner.ExceededTotalSize)))
    ensures tick == Panicked <==> !HasStarted(m, r) && reason == Runner.Finished
  {
  }

  /** A runner starts exactly once, from the pending state, with its data end still held back. */
  lemma StartOutcome(m: Manager, r: RunnerId, n: Manager, tick: Tick)
    requires r in m.plan.owners && m.plan.owners[r] in m.plan.chunks
    requires (n, tick) == OnLifecycle(m, r, Runner.Started)
    ensures tick == if !HasStarted(m, r) && r in m.connecting then Downloading else Panicked
    ensures n.plan.chunks[m.plan.owners[r]].status == Running
    ensures tick.Downloading? ==> r !in n.connecting && r in n.streams
  {
  }

  /** A rejected spawn is always told, of the runner that waited longest. */
  lemma RejectionOutcome(m: Manager)
    requires m.spawnFailures != [] && m.spawnFailures[0] in m.plan.owners
             && m.plan.owners[m.spawnFailures[0]] in m.plan.chunks
    ensures OnSpawnFailure(m).1 == AttemptFailed(m.spawnFailures[0], Runner.Other)
  {
  }

  /** A loss is told exactly if something is left to download. */
  lemma LossOutcome(m: Manager, r: RunnerId, n: Manager, tick: Tick)
    requires r in m.plan.owners && m.plan.owners[r] in m.plan.chunks && (n, tick) == OnLost(m, r)
    ensures tick == if IsComplete(n.plan) then AllFinished else AttemptFailed(r, Runner.ChannelClosed)
  {
  }

  // ----- What the loop is told over a run

  /** The failure that an event tells of, if any; `t` is the state it leads to. */
  function Tells(s: System, e: Event, t: System): seq<Failure> {
    match e
    case LifecycleTick(r) =>
      if r in s.procs && NextLifecycle(s.procs[r]) then
        match NextEvent(s.procs[r])
        case Stopped(Failed(error)) =>
          if error.Cancelled? || error.ExceededTotalSize? then [] else [Failure(r, error)]
        case _ => []
      else []
    case LostTick(r) => if IsComplete(t.mgr.plan) then [] else [Failure(r, Runner.ChannelClosed)]
    case SpawnFailureTick => if s.mgr.spawnFailures == [] then [] else [Failure(s.mgr.spawnFailures[0], Runner.Other)]
    case _ => []
  }

  lemma LifecycleTells(s: System, r: RunnerId, t: System)
    requires Engine.Steps(s, LifecycleTick(r), t)
    requires ProcAt(s.source, s.mgr, s.procs[r], r)
    ensures t.reported == s.reported + Tells(s, LifecycleTick(r), t)
  {
    var p := s.procs[r];
    var event := NextEvent(p);
    SentEvents(p.loop);
    var (n, tick) := OnLifecycle(s.mgr, r, event);
    if event.Started? {
      StartedKeepsProc(s.source, s.mgr.plan.chunks[s.mgr.plan.owners[r]], s.mgr.mail[r], p, r in s.mgr.connecting,
        r in s.mgr.streams);
      StartOutcome(s.mgr, r, n, tick);
    } else {
      if p.loop.lifecycle.taken == 0 {
        NoSuccessBeforeStart(s.source, s.mgr.plan.chunks[s.mgr.plan.owners[r]], s.mgr.mail[r], p,
          r in s.mgr.connecting, r in s.mgr.streams);
      }
      StopOutcome(s.mgr, r, event.reason, n, tick);
    }
  }

  lemma LossTells(s: System, r: RunnerId, t: System)
    requires Engine.Steps(s, LostTick(r), t)
    requires ProcAt(s.source, s.mgr, s.procs[r], r)
    ensures t.reported == s.reported + Tells(s, LostTick(r), t)
  {
    var (n, tick) := OnLost(s.mgr, r);
    LossOutcome(s.mgr, r, n, tick);
  }

  lemma RejectionTells(s: System, t: System)
    requires Engine.Steps(s, SpawnFailureTick, t)
    requires RejectedAt(s.mgr, s.mgr.spawnFailures[0])
    ensures t.reported == s.reported + Tells(s, SpawnFailureTick, t)
  {
    RejectionOutcome(s.mgr);
  }

  lemma OthersTellNothing(s: System, e: Event, t: System)
    requires Engine.Steps(s, e, t) && !e.LifecycleTick? && !e.LostTick? && !e.SpawnFailureTick?
    ensures t.reported == s.reported + Tells(s, e, t)
  {
  }

  lemma StepTells(s: System, e: Event, t: System)
    requires SystemOk(s) && Engine.Steps(s, e, t)
    ensures t.reported == s.reported + Tells(s, e, t)
  {
    match e
    case LifecycleTick(r) =>
      assert ProcAt(s.source, s.mgr, s.procs[r], r);
      LifecycleTells(s, r, t);
    case LostTick(r) =>
      assert ProcAt(s.source, s.mgr, s.procs[r], r);
      LossTells(s, r, t);
    case SpawnFailureTick =>
      assert RejectedAt(s.mgr, s.mgr.spawnFailures[0]);
      RejectionTells(s, t);
    case _ => OthersTellNothing(s, e, t);
  }

  /** What each step told. */
  ghost function Parts(run: seq<System>, events: seq<Event>): (parts: seq<seq<Failure>>)
    requires |events| + 1 == |run|
    ensures |parts| == |events|
  {
    seq(|events|, i requires 0 <= i < |events| => Tells(run[i], events[i], run[i + 1]))
  }

  function Joined(parts: seq<seq<Failure>>): seq<Failure> {
    if parts == [] then [] else Joined(parts[..|parts| - 1]) + parts[|parts| - 1]
  }

  lemma JoinedSnoc(parts: seq<seq<Failure>>, i: nat)
    requires i < |parts|
    ensures Joined(parts[..i + 1]) == Joined(parts[..i]) + parts[i]
  {
    assert parts[..i + 1][..i] == parts[..i];
  }

  ghost predicate Explains(run: seq<System>, events: seq<Event>) {
    |events| + 1 == |run| && forall i | 0 <= i < |events| :: Engine.Steps(run[i], events[i], run[i + 1])
  }

  /** The events of a run, one by one. */
  lemma {:induction false} RunHasEvents(source: seq<Byte>, maxConcurrency: nat, run: seq<System>)
      returns (events: seq<Event>)
    requires IsRun(source, maxConcurrency, run)
    ensures Explains(run, events)
    decreases |run|
  {
    if |run| == 1 {
      events := [];
    } else {
      var front := run[..|run| - 1];
      forall i: nat | i + 1 < |front| ensures StepAt(front, i) {
        assert StepAt(run, i);
      }
      var before := RunHasEvents(source, maxConcurrency, front);
      assert StepAt(run, |run| - 2);
      var e :| Engine.Steps(run[|run| - 2], e, run[|run| - 1]);
      events := before + [e];
      forall i | 0 <= i < |events| ensures Engine.Steps(run[i], events[i], run[i + 1]) {
        if i < |before| {
          assert Engine.Steps(front[i], before[i], front[i + 1]);
        }
      }
    }
  }

  ghost predicate OkAt(run: seq<System>, i: nat)
    requires i < |run|
  {
    SystemOk(run[i])
  }

  lemma PartTold(run: seq<System>, events: seq<Event>, i: nat)
    requires Explains(run, events) && i < |events| && OkAt(run, i)
    ensures run[i + 1].reported == run[i].reported + Parts(run, events)[i]
  {
    StepTells(run[i], events[i], run[i + 1]);
  }

  lemma {:induction false} AllTold(run: seq<System>, events: seq<Event>, parts: seq<seq<Failure>>, i: nat)
    requires Explains(run, events) && parts == Parts(run, events) && i < |run| && run[0].reported == []
    requires forall j: nat | j < i :: OkAt(run, j)
    ensures run[i].reported == Joined(parts[..i])
  {
    if i > 0 {
      AllTold(run, events, parts, i - 1);
      assert OkAt(run, i - 1);
      PartTold(run, events, i - 1);
      JoinedSnoc(parts, i - 1);
    }
  }

  /** In every run the loop was told exactly of the failures that happened, in order, each once. */
  lemma ToldExactly(source: seq<Byte>, maxConcurrency: nat, run: seq<System>, events: seq<Event>, i: nat)
    requires IsRun(source, maxConcurrency, run) && Explains(run, events) && i < |run|
    ensures run[i].reported == Joined(Parts(run, events)[..i])
  {
    forall j: nat | j < i ensures OkAt(run, j) {
      RunKeepsInv(source, maxConcurrency, run, j);
    }
    AllTold(run, events, Parts(run, events), i);
  }

  // ----- What a broken stream costs

  /** By the time a started runner's broken stream can be read of, everything it pushed was accepted. */
  lemma BreakLosesNothing(source: seq<Byte>, maxConcurrency: nat, run: seq<System>, i: nat, r: RunnerId,
      cause: Runner.AdapterError)
    requires IsRun(source, maxConcurrency, run) && i < |run| && r in run[i].procs
    requires var p := run[i].procs[r];
             && p.loop.lifecycle.taken == 1 < |p.loop.lifecycle.sent|
             && p.loop.lifecycle.sent[1] == Runner.Stopped(Runner.Failed(Runner.StreamError(cause)))
    ensures r in run[i].mgr.plan.owners && run[i].mgr.plan.owners[r] in run[i].mgr.plan.chunks
    ensures var c := run[i].mgr.plan.chunks[run[i].mgr.plan.owners[r]];
            c.downloaded.Len() == Min(|run[i].procs[r].loop.pushed|, c.span.Len())
  {
    RunKeepsInv(source, maxConcurrency, run, i);
    assert ProcAt(run[i].source, run[i].mgr, run[i].procs[r], r);
    AllTakenIsReceived(run[i].procs[r]);
  }

  lemma AllTakenIsReceived(p: Proc)
    requires RunnerLaws.Inv(p.loop) && p.loop.lifecycle.open && p.loop.data.open && |p.loop.lifecycle.sent| == 2
    requires var e := p.loop.lifecycle.sent[1];
             e.Stopped? && e.reason.Failed? && e.reason.error.StreamError?
    ensures Received(p) == |p.loop.pushed|
  {
    SentEvents(p.loop);
    assert RunnerLaws.Truthful(p.loop, p.loop.lifecycle.sent[1].reason);
    assert p.loop.data.sent[..p.loop.data.taken] == p.loop.data.sent;
  }
}
