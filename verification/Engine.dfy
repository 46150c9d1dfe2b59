/**
 The composed download: the manager, any number of runners and the writer. Every step is one event
 of the manager, one action of one runner, or the death of a runner's task, in any order.
 */
module Engine {
  import opened Wrappers
  import opened Planner
  import opened Manager
  import Runner

  type Byte = Runner.Byte

  /**
   A spawned runner: the range it requested, its loop, whether its task still exists, and every
   limit it was given, the first being its range's length.
   */
  datatype Proc = Proc(start: nat, size: nat, loop: Runner.State, alive: bool, limits: seq<nat>)

  /** A part of the file handed to the writer. */
  datatype Write = Write(range: Range, bytes: seq<Byte>)

  /** A failed attempt, as the loop is told of it. */
  datatype Failure = Failure(runner: RunnerId, error: Runner.TaskError)

  /** `written` and `reported` are histories: what the writer was handed and which failures the loop was told of. */
  datatype System = System(
    source: seq<Byte>,
    mgr: Manager,
    procs: map<RunnerId, Proc>,
    written: seq<Write>,
    reported: seq<Failure>,
    finished: bool,
    panicked: bool)

  function Start(source: seq<Byte>, maxConcurrency: nat): System {
    System(source, NewManager(|source|, maxConcurrency), map[], [], [], false, false)
  }

  datatype Event =
    | Spawn(range: Range, accepted: bool)
    | Shrink(runner: RunnerId, newSize: nat)
    | SpawnFailureTick
    | LifecycleTick(runner: RunnerId)
    | LostTick(runner: RunnerId)
    | DataTick(runner: RunnerId)
    | DataClosedTick(runner: RunnerId)
    | RunnerActs(runner: RunnerId, action: Runner.Action)
    | RunnerDies(runner: RunnerId)

  // ----- The environment

  /**
   The adapter contract: within its range a stream yields the source's bytes, however it cuts them;
   what it yields beyond the range is arbitrary.
   */
  predicate Faithful(source: seq<Byte>, p: Proc, bytes: seq<Byte>) {
    forall i | 0 <= i < |bytes| && |p.loop.yielded| + i < p.size && p.start + |p.loop.yielded| + i < |source| ::
      bytes[i] == source[p.start + |p.loop.yielded| + i]
  }

  /** A signal is what the mailbox holds: the unread limit; it closes only when the manager releases the runner. */
  predicate SignalAvailable(box: Mailbox, control: Runner.Control) {
    control.Limit? && box.unread == Some(control.total)
  }

  predicate CanAct(source: seq<Byte>, box: Mailbox, p: Proc, a: Runner.Action) {
    && p.alive
    && Runner.Enabled(p.loop, a)
    && Runner.CanResume(p.loop)
    && (a.ItemArrives? ==> Faithful(source, p, a.bytes))
    && (a.Signal? ==> SignalAvailable(box, a.control))
  }

  function ActBox(box: Mailbox, a: Runner.Action): Mailbox {
    if a.Signal? then box.(unread := None) else box
  }

  // ----- Steps

  predicate NextLifecycle(p: Proc) { p.loop.lifecycle.taken < |p.loop.lifecycle.sent| }

  predicate NextFrame(p: Proc) { p.loop.data.taken < |p.loop.data.sent| }

  ghost predicate Enabled(s: System, e: Event) {
    && !s.finished && !s.panicked
    && match e
       case Spawn(_, _) => true
       case Shrink(_, _) => true
       case SpawnFailureTick => s.mgr.spawnFailures != []
       case LifecycleTick(r) => r in s.procs && r in s.mgr.lifecycles && NextLifecycle(s.procs[r])
       case LostTick(r) => r in s.procs && r in s.mgr.lifecycles && !NextLifecycle(s.procs[r]) && !s.procs[r].alive
       case DataTick(r) => r in s.procs && r in s.mgr.streams && NextFrame(s.procs[r])
         && WellFormed(s.mgr.plan.chunks, s.mgr.plan.total)
       case DataClosedTick(r) =>
         r in s.procs && r in s.mgr.streams && !NextFrame(s.procs[r])
           && (!s.procs[r].alive || !s.procs[r].loop.dataHeld)
       case RunnerActs(r, a) => r in s.procs && r in s.mgr.mail && CanAct(s.source, s.mgr.mail[r], s.procs[r], a)
       case RunnerDies(r) => r in s.procs && r in s.mgr.mail && s.procs[r].alive
  }

  /** A tick of the manager; a runner it released is no longer observed. */
  function AfterTick(s: System, mgr: Manager, tick: Tick, r: RunnerId): System {
    s.(mgr := mgr,
       procs := if r in mgr.mail then s.procs else s.procs - {r},
       reported := if tick.AttemptFailed? then s.reported + [Failure(tick.runner, tick.error)] else s.reported,
       finished := tick.AllFinished?,
       panicked := tick.Panicked?)
  }

  function TakeLifecycle(p: Proc): Proc {
    p.(loop := p.loop.(lifecycle := p.loop.lifecycle.(taken := p.loop.lifecycle.taken + 1)))
  }

  function TakeFrame(p: Proc): Proc {
    p.(loop := p.loop.(data := p.loop.data.(taken := p.loop.data.taken + 1)))
  }

  ghost function Next(s: System, e: Event): System
    requires Enabled(s, e)
  {
    match e
    case Spawn(range, accepted) =>
      var (mgr, id) := SpawnRunner(s.mgr, range, accepted);
      if id.Some? && accepted && range.start <= range.end
      then s.(mgr := mgr, procs := s.procs[id.value := NewProc(range)])
      else s.(mgr := mgr)
    case Shrink(r, newSize) =>
      var (mgr, result) := ResizeRunner(s.mgr, r, newSize);
      if mgr.plan != s.mgr.plan && r in mgr.mail && mgr.mail[r].unread.Some? && r in s.procs
      then s.(mgr := mgr, procs := s.procs[r := s.procs[r].(limits := s.procs[r].limits + [mgr.mail[r].unread.value])])
      else s.(mgr := mgr)
    case SpawnFailureTick =>
      var (mgr, tick) := OnSpawnFailure(s.mgr);
      AfterTick(s, mgr, tick, s.mgr.spawnFailures[0])
    case LifecycleTick(r) =>
      var p := s.procs[r];
      var (mgr, tick) := OnLifecycle(s.mgr, r, p.loop.lifecycle.sent[p.loop.lifecycle.taken]);
      AfterTick(s.(procs := s.procs[r := TakeLifecycle(p)]), mgr, tick, r)
    case LostTick(r) =>
      var (mgr, tick) := OnLost(s.mgr, r);
      AfterTick(s, mgr, tick, r)
    case DataTick(r) =>
      var p := s.procs[r];
      var frame := p.loop.data.sent[p.loop.data.taken];
      var (mgr, range) := OnData(s.mgr, r, |frame|);
      var t := s.(mgr := mgr, procs := s.procs[r := TakeFrame(p)]);
      if range.None? then t.(panicked := true)
      else t.(written := s.written + [Write(range.value, Truncate(frame, range.value.Len()))])
    case DataClosedTick(r) => s.(mgr := OnDataClosed(s.mgr, r))
    case RunnerActs(r, a) =>
      var p := s.procs[r];
      s.(mgr := s.mgr.(mail := s.mgr.mail[r := ActBox(s.mgr.mail[r], a)]),
         procs := s.procs[r := p.(loop := Runner.Next(p.loop, a))])
    case RunnerDies(r) =>
      s.(mgr := s.mgr.(mail := s.mgr.mail[r := s.mgr.mail[r].(receiver := false)]),
         procs := s.procs[r := s.procs[r].(alive := false)])
  }

  /** One event takes the system from `s` to `t`. */
  ghost predicate Steps(s: System, e: Event, t: System) { Enabled(s, e) && t == Next(s, e) }

  function NewProc(range: Range): Proc
    requires range.start <= range.end
  {
    Proc(range.start, range.end - range.start, Runner.Spawned(range.end - range.start), true, [range.end - range.start])
  }

  function Truncate(frame: seq<Byte>, n: nat): seq<Byte> {
    if n <= |frame| then frame[..n] else frame
  }
}
