/**
 One range runner: it connects, reports that it started, re-frames its stream into buffers under a
 size limit that may be lowered at any time, drains what it delivered and reports how it stopped.

 Values and transition functions. `RunnerLoop.dfy` holds the polled object that computes them,
 `RunnerLaws.dfy` what every run keeps. The stream, the control signals, the timers and the
 consumers of the two channels are the environment: every action below is one event of theirs
 together with what the runner does on it.
 */
module Runner {
  import opened Wrappers
  import opened Numbers

  type Byte = bv8

  const BUFFER_SIZE: nat := 32 * 1024
  const LIFECYCLE_CAPACITY: nat := 2
  const DATA_CAPACITY: nat := 32

  /** The cause of an upstream failure; only passed on. */
  type AdapterError = nat

  datatype TaskError =
    | Cancelled
    | Timeout
    | Empty
    | ChannelClosed
    | ExceededTotalSize
    | SmallerThanTotalSize
    | StreamError(source: AdapterError)
    | Other

  datatype RunError = RunCancelled | RunFailed(error: TaskError)

  type RunResult = Result<(), RunError>

  /** `Err`: not pushed. `Ok(Some(_))`: pushed, but a control signal failed meanwhile. */
  type EmitResult = Result<Option<RunError>, RunError>

  datatype StoppedReason = Finished | Failed(error: TaskError)

  datatype LifecycleEvent = Started | Stopped(reason: StoppedReason)

  /** What the manager takes for a delivered chunk. */
  predicate TellsSuccess(e: LifecycleEvent) { e == Stopped(Finished) || e == Stopped(Failed(ExceededTotalSize)) }

  /** A bounded queue between one producer and one consumer, with everything ever sent. */
  datatype Channel<T> = Channel(sent: seq<T>, taken: nat, open: bool) {
    ghost predicate Valid(capacity: nat) { taken <= |sent| <= taken + capacity }

    predicate IsEmpty() { taken >= |sent| }

    predicate HasRoom(capacity: nat) { |sent| < taken + capacity }

    function Push(item: T): Channel<T> { this.(sent := sent + [item]) }
  }

  datatype Control = Limit(total: nat) | Released

  /** What follows the push of a buffer. */
  datatype Continuation = ResumeItem | Validate | IdleTimeout | UpstreamError(source: AdapterError)

  datatype Cursor = Cursor(bytes: seq<Byte>, offset: nat)

  datatype Staged = Staged(frame: seq<Byte>, deferred: Option<RunError>, controlOpen: bool, after: Continuation)

  datatype Phase =
    | Connecting
    | PublishingStarted
    | Streaming(buffer: seq<Byte>, item: Option<Cursor>, staged: Option<Staged>)
    | Draining(result: RunResult)
    | PublishingStopped(event: LifecycleEvent)
    | Done

  datatype Input = Connector | Connected | Abandoned

  /**
   `pushed` and `yielded` are histories: the bytes pushed downstream and the bytes the stream
   yielded. `refused` records that a limit was not lower than the one in force.
   */
  datatype State = State(
    total: Option<nat>,
    downloaded: nat,
    input: Input,
    phase: Phase,
    dataHeld: bool,
    data: Channel<seq<Byte>>,
    lifecycle: Channel<LifecycleEvent>,
    pushed: seq<Byte>,
    yielded: seq<Byte>,
    refused: bool)

  function Spawned(total: nat): State {
    State(Some(total), 0, Connector, Connecting, true, Channel([], 0, true), Channel([], 0, true), [], [], false)
  }

  predicate Reading(s: State) { s.phase.Streaming? && s.phase.staged.None? }

  predicate Emitting(s: State) { s.phase.Streaming? && s.phase.staged.Some? }

  // ----- The size limit

  /** How far the limit is from what was pushed and buffered. */
  function Allowance(s: State, buffered: nat): nat {
    match s.total
    case None => U64_MAX
    case Some(total) => if s.downloaded + buffered <= total then total - (s.downloaded + buffered) else 0
  }

  function ValidateSize(s: State): RunResult {
    match s.total
    case Some(total) =>
      if total == s.downloaded then Ok(())
      else if total > s.downloaded then Err(RunFailed(SmallerThanTotalSize))
      else Err(RunFailed(ExceededTotalSize))
    case None =>
      if s.downloaded > 0 then Ok(()) else Err(RunFailed(Empty))
  }

  /** A limit only ever lowers a known total; any other limit is refused. */
  function ApplyLimit(s: State, limit: nat): (State, RunResult) {
    if s.total.None? then (s, Ok(()))
    else if s.total.value > limit then (s.(total := Some(limit)), Ok(()))
    else (s.(refused := true), Err(RunFailed(ExceededTotalSize)))
  }

  // ----- Stopping

  predicate ShouldDrain(result: RunResult) {
    match result
    case Ok(_) => true
    case Err(RunCancelled) => false
    case Err(RunFailed(e)) => e.ExceededTotalSize? || e.StreamError? || e.Timeout?
  }

  function StopEvent(result: RunResult): LifecycleEvent {
    match result
    case Ok(_) => Stopped(Finished)
    case Err(RunCancelled) => Stopped(Failed(Cancelled))
    case Err(RunFailed(e)) => Stopped(Failed(e))
  }

  function PublishStop(s: State, result: RunResult): State {
    s.(phase := PublishingStopped(StopEvent(result)))
  }

  function StopPhase(result: RunResult): Phase {
    if ShouldDrain(result) then Draining(result) else PublishingStopped(StopEvent(result))
  }

  function BeginStop(s: State, result: RunResult): State {
    s.(input := if s.phase.Connecting? then Abandoned else s.input, phase := StopPhase(result))
  }

  // ----- Streaming

  function Stage(s: State, frame: seq<Byte>, item: Option<Cursor>, after: Continuation): State {
    s.(phase := Streaming([], item, Some(Staged(frame, None, true, after))))
  }

  /** What follows a pushed, or empty, buffer other than the rest of the item. */
  function Conclude(s: State, after: Continuation, deferred: Option<RunError>): State {
    if after.UpstreamError? then BeginStop(s, Err(RunFailed(StreamError(after.source))))
    else if deferred.Some? then BeginStop(s, Err(deferred.value))
    else if after.IdleTimeout? then BeginStop(s, Err(RunFailed(Timeout)))
    else BeginStop(s, ValidateSize(s))
  }

  /** Nothing buffered needs no push before what follows it. */
  function FlushAndConclude(s: State, after: Continuation): State
    requires s.phase.Streaming?
  {
    if s.phase.buffer == [] then Conclude(s, after, None)
    else Stage(s, s.phase.buffer, s.phase.item, after)
  }

  /** Buffer the current item as far as the limit and the buffer allow. */
  function BufferItem(s: State): State
    requires s.phase.Streaming? && s.phase.item.Some? && s.phase.item.value.offset <= |s.phase.item.value.bytes|
  {
    var buffer, item := s.phase.buffer, s.phase.item.value;
    var rest := item.bytes[item.offset..];
    var allowed := Allowance(s, |buffer|);
    var writable := if |rest| < allowed then |rest| else allowed;
    if allowed == 0 then FlushAndConclude(s, Validate)
    else if rest == [] then s.(phase := s.phase.(item := None))
    else if |buffer| + writable <= BUFFER_SIZE then
      if writable == allowed then Stage(s, buffer + rest[..writable], s.phase.item, Validate)
      else s.(phase := Streaming(buffer + rest, None, s.phase.staged))
    else
      var take := if |buffer| <= BUFFER_SIZE then BUFFER_SIZE - |buffer| else 0;
      Stage(s, buffer + rest[..take], Some(Cursor(item.bytes, item.offset + take)), ResumeItem)
  }

  function OnItem(s: State, bytes: seq<Byte>): State
    requires s.phase.Streaming?
  {
    BufferItem(s.(phase := s.phase.(item := Some(Cursor(bytes, 0))), yielded := s.yielded + bytes))
  }

  /** What a push leads to: its own failure first, else what the stream did, else what a signal did meanwhile. */
  function OnEmitted(s: State, result: EmitResult): State
    requires Emitting(s)
    requires s.phase.staged.value.after.ResumeItem? ==>
               s.phase.item.Some? && s.phase.item.value.offset <= |s.phase.item.value.bytes|
  {
    var after := s.phase.staged.value.after;
    var unstaged := s.(phase := s.phase.(staged := None));
    match result
    case Err(error) => BeginStop(unstaged, Err(error))
    case Ok(deferred) =>
      if after.ResumeItem? && deferred.None? then BufferItem(unstaged)
      else if after.ResumeItem? then BeginStop(unstaged, Err(deferred.value))
      else Conclude(unstaged, after, deferred)
  }

  /** A signal is applied although a buffer waits; of several refusals the earliest is remembered. */
  function EmitControl(s: State, c: Control): State
    requires Emitting(s)
  {
    var staged := s.phase.staged.value;
    match c
    case Limit(limit) =>
      var (applied, result) := ApplyLimit(s, limit);
      var error := if result.Err? && staged.deferred.None? then Some(result.error) else staged.deferred;
      applied.(phase := s.phase.(staged := Some(staged.(deferred := error))))
    case Released =>
      var error := if staged.deferred.None? then Some(RunFailed(ChannelClosed)) else staged.deferred;
      s.(phase := s.phase.(staged := Some(staged.(deferred := error, controlOpen := false))))
  }

  /** Push the staged buffer into the data channel. */
  function PushFrame(s: State): State
    requires Emitting(s)
  {
    var frame := s.phase.staged.value.frame;
    s.(data := s.data.Push(frame), downloaded := s.downloaded + |frame|, pushed := s.pushed + frame)
  }

  // ----- Actions

  datatype DrainOutcome = Drained | DrainCancelled | TimedOut

  datatype Action =
    | ConnectSucceeds
    | ConnectFails(source: AdapterError)
    | ConnectExpires
    | PublishStarted
    | Cancel
    | Signal(control: Control)
    | IdleExpires
    | ItemArrives(bytes: seq<Byte>)
    | StreamEnds
    | StreamFails(source: AdapterError)
    | PushStaged
    | FinishDrain(outcome: DrainOutcome)
    | PublishStopped

  predicate DataDrained(s: State) { !s.dataHeld || !s.data.open || s.data.IsEmpty() }

  predicate CanPublish(s: State) { !s.lifecycle.open || s.lifecycle.HasRoom(LIFECYCLE_CAPACITY) }

  predicate CanResume(s: State) {
    Emitting(s) && s.phase.staged.value.after.ResumeItem? ==>
      s.phase.item.Some? && s.phase.item.value.offset <= |s.phase.item.value.bytes|
  }

  predicate Enabled(s: State, a: Action) {
    match a
    case ConnectSucceeds => s.phase.Connecting?
    case ConnectFails(_) => s.phase.Connecting?
    case ConnectExpires => s.phase.Connecting?
    case PublishStarted => s.phase.PublishingStarted? && CanPublish(s)
    case Cancel => s.phase.Connecting? || s.phase.Streaming?
    case Signal(_) => s.phase.Connecting? || Reading(s)
      || (Emitting(s) && s.dataHeld && s.phase.staged.value.controlOpen)
    case IdleExpires => Reading(s)
    case ItemArrives(_) => Reading(s)
    case StreamEnds => Reading(s)
    case StreamFails(_) => Reading(s)
    case PushStaged => Emitting(s) && (s.dataHeld && s.data.open ==> s.data.HasRoom(DATA_CAPACITY))
    case FinishDrain(outcome) =>
      s.phase.Draining? && (outcome.Drained? ==> DataDrained(s)) && (!outcome.Drained? ==> s.dataHeld)
    case PublishStopped => s.phase.PublishingStopped? && CanPublish(s)
  }

  function Next(s: State, a: Action): State
    requires Enabled(s, a) && CanResume(s)
  {
    match a
    case ConnectSucceeds => s.(input := Connected, phase := PublishingStarted)
    case ConnectFails(source) => BeginStop(s, Err(RunFailed(StreamError(source))))
    case ConnectExpires => BeginStop(s, Err(RunFailed(Timeout)))
    case PublishStarted =>
      if s.lifecycle.open
      then s.(lifecycle := s.lifecycle.Push(Started), phase := Streaming([], None, None))
      else BeginStop(s, Err(RunFailed(ChannelClosed)))
    case Cancel =>
      if Emitting(s) then OnEmitted(s, Err(if s.dataHeld then RunCancelled else RunFailed(ChannelClosed)))
      else BeginStop(s, Err(RunCancelled))
    case Signal(control) =>
      if Emitting(s) then EmitControl(s, control)
      else (match control
            case Released => BeginStop(s, Err(RunFailed(ChannelClosed)))
            case Limit(limit) =>
              var (applied, result) := ApplyLimit(s, limit);
              if result.Err? then BeginStop(applied, Err(result.error)) else applied)
    case IdleExpires => FlushAndConclude(s, IdleTimeout)
    case ItemArrives(bytes) => OnItem(s, bytes)
    case StreamEnds => FlushAndConclude(s, Validate)
    case StreamFails(source) => FlushAndConclude(s, UpstreamError(source))
    case PushStaged =>
      if s.dataHeld && s.data.open then OnEmitted(PushFrame(s), Ok(s.phase.staged.value.deferred))
      else OnEmitted(s, Err(RunFailed(ChannelClosed)))
    case FinishDrain(outcome) =>
      PublishStop(s, match outcome
                     case Drained => s.phase.result
                     case DrainCancelled => Err(RunCancelled)
                     case TimedOut => Err(RunFailed(Timeout)))
    case PublishStopped =>
      s.(lifecycle := if s.lifecycle.open then s.lifecycle.Push(s.phase.event) else s.lifecycle,
         phase := Done,
         dataHeld := false)
  }

  /** What the consumers of the two channels may do between two actions of the runner. */
  predicate Consumes(s: State, t: State) {
    && t == s.(data := t.data, lifecycle := t.lifecycle)
    && t.data.sent == s.data.sent && s.data.taken <= t.data.taken <= |s.data.sent|
    && t.lifecycle.sent == s.lifecycle.sent && s.lifecycle.taken <= t.lifecycle.taken <= |s.lifecycle.sent|
    && (t.data.open ==> s.data.open)
    && (t.lifecycle.open ==> s.lifecycle.open)
  }
}
