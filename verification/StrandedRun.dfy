/**
 A run that ends stranded: one byte, one runner. The runner pushes the byte and waits for the manager
 to take it; its drain timer expires; the manager takes the byte, which completes the plan; then the
 runner reports a timeout, and nobody is left to report completion.
 */
module StrandedRun {
  import opened Wrappers
  import opened Planner
  import opened Manager
  import opened Engine
  import opened EngineInvariant
  import opened EngineRuns
  import opened PlannerGaps
  import opened PlanCompletion
  import opened Completion
  import opened Recovery
  import Ids = IdGeneration
  import Runner

  const SOURCE: seq<Byte> := [7]

  function Chunk(status: ChunkStatus, end: nat): ChunkState {
    ChunkState(Range(0, 1), Range(0, end), Some(0), status)
  }

  /** The states between the spawn and the last tick. */
  function Alone(status: ChunkStatus, end: nat, loop: Runner.State, connecting: bool, written: seq<Write>): System {
    System(SOURCE,
           Manager(Ids.Ids([true], 0, 1),
                   Plan(1, 1024 * 1024, None, map[0 := Chunk(status, end)], map[0 := 0], end),
                   map[0 := Mailbox(None, true)], [], {0},
                   if connecting then {0} else {}, if connecting then {} else {0}),
           map[0 := Proc(0, 1, loop, true, [1])], written, [], false, false)
  }

  lemma StepActs(status: ChunkStatus, end: nat, loop: Runner.State, connecting: bool, written: seq<Write>,
      a: Runner.Action)
    requires Runner.Enabled(loop, a) && Runner.CanResume(loop) && !a.Signal?
    requires a.ItemArrives? ==> a.bytes == SOURCE && loop.yielded == []
    ensures Step(Alone(status, end, loop, connecting, written),
            Alone(status, end, Runner.Next(loop, a), connecting, written))
  {
    var s := Alone(status, end, loop, connecting, written);
    var t := Alone(status, end, Runner.Next(loop, a), connecting, written);
    assert Engine.Enabled(s, RunnerActs(0, a));
    assert t.mgr.mail == s.mgr.mail[0 := ActBox(s.mgr.mail[0], a)];
    assert Engine.Steps(s, RunnerActs(0, a), t);
  }

  lemma StepSpawns()
    ensures Step(Start(SOURCE, 1), Alone(Pending, 0, Runner.Spawned(1), true, []))
  {
    var s := Start(SOURCE, 1);
    var t := Alone(Pending, 0, Runner.Spawned(1), true, []);
    var e := Spawn(Range(0, 1), true);
    assert s.mgr.ids.bits == [false];
    assert s.mgr.ids.bits[0 := true] == [true];
    assert Ids.Rotated(s.mgr.ids, 0) == 0;
    assert Ids.NextId(s.mgr.ids) == (Ids.Ids([true], 0, 1), Some(0));
    assert Accepts(s.mgr.plan, Range(0, 1));
    assert Engine.Steps(s, e, t);
  }

  lemma StepStarts(loop: Runner.State)
    requires loop.lifecycle.taken == 0 && loop.lifecycle.sent != [] && loop.lifecycle.sent[0] == Runner.Started
    ensures Step(Alone(Pending, 0, loop, true, []),
                 Alone(Running, 0, loop.(lifecycle := loop.lifecycle.(taken := 1)), false, []))
  {
    var s := Alone(Pending, 0, loop, true, []);
    var t := Alone(Running, 0, loop.(lifecycle := loop.lifecycle.(taken := 1)), false, []);
    assert Engine.Enabled(s, LifecycleTick(0));
    assert Engine.Steps(s, LifecycleTick(0), t);
  }

  lemma StepTakes(loop: Runner.State)
    requires loop.data.taken == 0 && loop.data.sent == [SOURCE]
    ensures Step(Alone(Running, 0, loop, false, []),
                 Alone(Finished, 1, loop.(data := loop.data.(taken := 1)), false, [Write(Range(0, 1), SOURCE)]))
  {
    var s := Alone(Running, 0, loop, false, []);
    var t := Alone(Finished, 1, loop.(data := loop.data.(taken := 1)), false, [Write(Range(0, 1), SOURCE)]);
    assert Engine.Enabled(s, DataTick(0));
    assert Truncate(SOURCE, 1) == SOURCE;
    assert Engine.Steps(s, DataTick(0), t);
  }

  // ----- The runner's part

  function Loop(phase: Runner.Phase, frames: seq<seq<Byte>>, taken: nat, events: seq<Runner.LifecycleEvent>,
      read: nat, yielded: seq<Byte>): Runner.State {
    Runner.State(Some(1), |frames|, if phase.Connecting? then Runner.Connector else Runner.Connected, phase,
      !phase.Done?,
                 Runner.Channel(frames, taken, true), Runner.Channel(events, read, true),
                 if frames == [] then [] else SOURCE, yielded, false)
  }

  const FULL := Runner.Streaming([], Some(Runner.Cursor(SOURCE, 0)),
    Some(Runner.Staged(SOURCE, None, true, Runner.Validate)))
  const TIMED_OUT := Runner.PublishingStopped(Runner.Stopped(Runner.Failed(Runner.Timeout)))
  const EVENTS := [Runner.Started, Runner.Stopped(Runner.Failed(Runner.Timeout))]

  lemma LoopConnects()
    ensures Runner.Spawned(1) == Loop(Runner.Connecting, [], 0, [], 0, [])
    ensures Runner.Next(Loop(Runner.Connecting, [], 0, [], 0, []), Runner.ConnectSucceeds) ==
            Loop(Runner.PublishingStarted, [], 0, [], 0, [])
    ensures Runner.Next(Loop(Runner.PublishingStarted, [], 0, [], 0, []), Runner.PublishStarted)
            == Loop(Runner.Streaming([], None, None), [], 0, [Runner.Started], 0, [])
  {
  }

  lemma LoopStreams()
    ensures Runner.Next(Loop(Runner.Streaming([], None, None), [], 0, [Runner.Started], 1, []),
            Runner.ItemArrives(SOURCE))
            == Loop(FULL, [], 0, [Runner.Started], 1, SOURCE)
    ensures Runner.Next(Loop(FULL, [], 0, [Runner.Started], 1, SOURCE), Runner.PushStaged)
            == Loop(Runner.Draining(Ok(())), [SOURCE], 0, [Runner.Started], 1, SOURCE)
  {
    assert SOURCE[0..] == SOURCE && SOURCE[..1] == SOURCE && [] + SOURCE == SOURCE;
  }

  lemma LoopStops()
    ensures Runner.Next(Loop(Runner.Draining(Ok(())), [SOURCE], 0, [Runner.Started], 1, SOURCE),
            Runner.FinishDrain(Runner.TimedOut))
            == Loop(TIMED_OUT, [SOURCE], 0, [Runner.Started], 1, SOURCE)
    ensures Runner.Next(Loop(TIMED_OUT, [SOURCE], 1, [Runner.Started], 1, SOURCE), Runner.PublishStopped)
            == Loop(Runner.Done, [SOURCE], 1, EVENTS, 1, SOURCE)
  {
  }

  // ----- The run

  const WRITTEN := [Write(Range(0, 1), SOURCE)]

  function Last(): System { Alone(Finished, 1, Loop(Runner.Done, [SOURCE], 1, EVENTS, 1, SOURCE), false, WRITTEN) }

  function Run(): seq<System> {
    [Start(SOURCE, 1),
     Alone(Pending, 0, Loop(Runner.Connecting, [], 0, [], 0, []), true, []),
     Alone(Pending, 0, Loop(Runner.PublishingStarted, [], 0, [], 0, []), true, []),
     Alone(Pending, 0, Loop(Runner.Streaming([], None, None), [], 0, [Runner.Started], 0, []), true, []),
     Alone(Running, 0, Loop(Runner.Streaming([], None, None), [], 0, [Runner.Started], 1, []), false, []),
     Alone(Running, 0, Loop(FULL, [], 0, [Runner.Started], 1, SOURCE), false, []),
     Alone(Running, 0, Loop(Runner.Draining(Ok(())), [SOURCE], 0, [Runner.Started], 1, SOURCE), false, []),
     Alone(Running, 0, Loop(TIMED_OUT, [SOURCE], 0, [Runner.Started], 1, SOURCE), false, []),
     Alone(Finished, 1, Loop(TIMED_OUT, [SOURCE], 1, [Runner.Started], 1, SOURCE), false, WRITTEN),
     Last()]
  }

  lemma RunConnects()
    ensures Step(Run()[1], Run()[2]) && Step(Run()[2], Run()[3])
  {
    LoopConnects();
    StepActs(Pending, 0, Loop(Runner.Connecting, [], 0, [], 0, []), true, [], Runner.ConnectSucceeds);
    StepActs(Pending, 0, Loop(Runner.PublishingStarted, [], 0, [], 0, []), true, [], Runner.PublishStarted);
  }

  lemma RunStarts()
    ensures Step(Run()[3], Run()[4])
  {
    StepStarts(Loop(Runner.Streaming([], None, None), [], 0, [Runner.Started], 0, []));
  }

  lemma RunFills()
    ensures Step(Run()[4], Run()[5])
  {
    LoopStreams();
    StepActs(Running, 0, Loop(Runner.Streaming([], None, None), [], 0, [Runner.Started], 1, []), false, [],
      Runner.ItemArrives(SOURCE));
  }

  lemma RunPushes()
    ensures Step(Run()[5], Run()[6])
  {
    LoopStreams();
    StepActs(Running, 0, Loop(FULL, [], 0, [Runner.Started], 1, SOURCE), false, [], Runner.PushStaged);
  }

  lemma RunStops()
    ensures Step(Run()[6], Run()[7]) && Step(Run()[7], Run()[8]) && Step(Run()[8], Run()[9])
  {
    LoopStops();
    StepActs(Running, 0, Loop(Runner.Draining(Ok(())), [SOURCE], 0, [Runner.Started], 1, SOURCE), false, [],
      Runner.FinishDrain(Runner.TimedOut));
    StepTakes(Loop(TIMED_OUT, [SOURCE], 0, [Runner.Started], 1, SOURCE));
    StepActs(Finished, 1, Loop(TIMED_OUT, [SOURCE], 1, [Runner.Started], 1, SOURCE), false, WRITTEN,
      Runner.PublishStopped);
  }

  lemma RunIsRun()
    ensures IsRun(SOURCE, 1, Run())
  {
    StepSpawns();
    LoopConnects();
    RunConnects();
    RunStarts();
    RunFills();
    RunPushes();
    RunStops();
    forall i: nat | i + 1 < |Run()| ensures StepAt(Run(), i) {
      assert i in {0, 1, 2, 3, 4, 5, 6, 7, 8};
    }
  }

  /** The runner is the only one, its chunk is complete, and there is no gap. */
  lemma NothingElseOpen(p: Plan)
    requires Planner.Inv(p) && p.total == 1 && p.chunks == map[0 := Chunk(Finished, 1)] && p.owners == map[0 := 0]
    ensures LastOpen(p, 0)
  {
    NoGapsIffAllocated(p);
    forall b: nat | b < 1 ensures Allocated(p, b) {
      assert 0 in p.chunks && p.chunks[0].span.Contains(b);
    }
  }

  /** The last state of the run: the only runner's failed stop is still to be read. */
  ghost predicate FailedAlone(s: System) {
    && !s.finished && s.procs.Keys == {0}
    && NextLifecycle(s.procs[0]) && FailedStop(NextEvent(s.procs[0]))
    && s.mgr.plan.total == 1 && s.mgr.plan.chunks == map[0 := Chunk(Finished, 1)] && s.mgr.plan.owners == map[0 := 0]
  }

  lemma RunEndsFailedAlone()
    ensures FailedAlone(Last()) && Last().mgr.plan.accepted == |Last().source|
  {
  }

  lemma LastTickStrands(s: System, t: System)
    requires SystemOk(s) && FailedAlone(s) && Engine.Steps(s, LifecycleTick(0), t)
    ensures Stranded(t)
  {
    NothingElseOpen(s.mgr.plan);
    assert 0 in s.procs;
    StrandedIff(s, LifecycleTick(0), t);
  }

  lemma RunThenTick() returns (t: System)
    ensures IsRun(SOURCE, 1, Run() + [t]) && Stranded(t) && t.written == WRITTEN
  {
    var s := Last();
    RunIsRun();
    RunKeepsInv(SOURCE, 1, Run(), 9);
    RunEndsFailedAlone();
    LastTickEnabled(s);
    t := Engine.Next(s, LifecycleTick(0));
    LastTickStrands(s, t);
    Extend(SOURCE, 1, Run(), LifecycleTick(0), t);
  }

  /** A download may strand with its whole source written. */
  lemma StrandingHappens()
    ensures exists run: seq<System> ::
              IsRun(SOURCE, 1, run) && Stranded(run[|run| - 1]) && run[|run| - 1].written == WRITTEN
  {
    var t := RunThenTick();
    var run := Run() + [t];
    assert run[|run| - 1] == t;
  }

  lemma LastTickEnabled(s: System)
    requires s == Last()
    ensures Engine.Enabled(s, LifecycleTick(0)) && Engine.Next(s, LifecycleTick(0)).written == WRITTEN
  {
  }

  /** Before its last tick the run is lost already: a runner is left and nothing is stranded yet, but it is doomed. */
  lemma DoomedBeforeStranded()
    ensures Reachable(SOURCE, 1, Last()) && !Last().finished && !Stranded(Last()) && Doomed(Last())
  {
    LastIsReached(Run());
    RunEndsFailedAlone();
    FailedAloneIsDoomed(Last());
  }

  lemma LastIsReached(run: seq<System>)
    requires run == Run()
    ensures Reachable(SOURCE, 1, run[|run| - 1])
  {
    RunIsRun();
    ReachableIff(SOURCE, 1, run[|run| - 1]);
  }

  lemma FailedAloneIsDoomed(s: System)
    requires FailedAlone(s) && s.mgr.plan.accepted == |s.source|
    ensures !Stranded(s) && Doomed(s)
  {
    assert 0 in s.procs;
  }
}
