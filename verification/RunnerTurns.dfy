/**
 One turn of the runner's loop: a poll asks the sources of the current phase in priority order and
 the step it selects is handled. A turn is exactly a run of the actions of `Runner`.
 `RunnerLoop.dfy` holds the object that takes the turns.
 */
module RunnerTurns {
  import opened Wrappers
  import opened Runner
  import opened RunnerLaws

  datatype Download = Item(bytes: seq<Byte>) | End | Broken(source: AdapterError)

  /**
   What the sources answer during one poll. The cancel token is set from its `cancelAfter`th look
   on; `controls` are the signals that successive looks find.
   */
  datatype Sources = Sources(
    cancelAfter: Option<nat>,
    controls: seq<Control>,
    timerExpired: bool,
    connection: Option<Result<(), AdapterError>>,
    download: Option<Download>)

  datatype LoopStep =
    | StepConnected(connection: Result<(), AdapterError>)
    | StepConnectTimeout
    | StepStarted(result: RunResult)
    | StepCancelled
    | StepControl(control: Control)
    | StepIdleTimeout
    | StepDownload(download: Download)
    | StepEmitted(emitted: EmitResult)
    | StepDrained(outcome: DrainOutcome)
    | StepStoppedPublished

  predicate CancelledAt(e: Sources, look: nat) { e.cancelAfter.Some? && e.cancelAfter.value <= look }

  // ----- What a poll selects, and what it has done by then

  /** Emitting: cancel, then every signal found, then the consumer. */
  function EmitPoll(s: State, e: Sources, look: nat): (State, Option<EmitResult>)
    requires Emitting(s) && s.dataHeld
    decreases |e.controls| - look
  {
    if CancelledAt(e, look) then (s, Some(Err(RunCancelled)))
    else if s.phase.staged.value.controlOpen && look < |e.controls|
      then EmitPoll(EmitControl(s, e.controls[look]), e, look + 1)
    else if !s.data.open then (s, Some(Err(RunFailed(ChannelClosed))))
    else if !s.data.HasRoom(DATA_CAPACITY) then (s, None)
    else (PushFrame(s), Some(Ok(s.phase.staged.value.deferred)))
  }

  function Polled(s: State, e: Sources): (State, Option<LoopStep>) {
    match s.phase
    case Connecting =>
      (s, if CancelledAt(e, 0) then Some(StepCancelled)
          else if e.controls != [] then Some(StepControl(e.controls[0]))
          else if e.timerExpired then Some(StepConnectTimeout)
          else if e.connection.Some? then Some(StepConnected(e.connection.value)) else None)
    case PublishingStarted =>
      if !CanPublish(s) then (s, None)
      else if s.lifecycle.open then (s.(lifecycle := s.lifecycle.Push(Started)), Some(StepStarted(Ok(()))))
      else (s, Some(StepStarted(Err(RunFailed(ChannelClosed)))))
    case Streaming(_, _, Some(_)) =>
      if !s.dataHeld then (s, Some(StepEmitted(Err(RunFailed(ChannelClosed)))))
      else
        var (t, result) := EmitPoll(s, e, 0);
        (t, if result.Some? then Some(StepEmitted(result.value)) else None)
    case Streaming(_, _, None) =>
      (s, if CancelledAt(e, 0) then Some(StepCancelled)
          else if e.controls != [] then Some(StepControl(e.controls[0]))
          else if e.timerExpired then Some(StepIdleTimeout)
          else if e.download.Some? then Some(StepDownload(e.download.value)) else None)
    case Draining(_) =>
      (s, if !s.dataHeld then Some(StepDrained(Drained))
          else if CancelledAt(e, 0) then Some(StepDrained(DrainCancelled))
          else if DataDrained(s) then Some(StepDrained(Drained))
          else if e.timerExpired then Some(StepDrained(TimedOut)) else None)
    case PublishingStopped(event) =>
      if !CanPublish(s) then (s, None)
      else (s.(lifecycle := if s.lifecycle.open then s.lifecycle.Push(event) else s.lifecycle),
        Some(StepStoppedPublished))
    case Done => (s, None)
  }

  /** A step fits the phase it is handled in. */
  predicate Fits(s: State, step: LoopStep) {
    match step
    case StepConnected(_) => s.phase.Connecting?
    case StepConnectTimeout => s.phase.Connecting?
    case StepStarted(_) => s.phase.PublishingStarted?
    case StepCancelled => s.phase.Connecting? || Reading(s)
    case StepControl(_) => s.phase.Connecting? || Reading(s)
    case StepIdleTimeout => Reading(s)
    case StepDownload(_) => Reading(s)
    case StepEmitted(_) => Emitting(s) && CanResume(s)
    case StepDrained(_) => s.phase.Draining?
    case StepStoppedPublished => s.phase.PublishingStopped?
  }

  function Handled(s: State, step: LoopStep): State
    requires Fits(s, step)
  {
    match step
    case StepConnected(Ok(_)) => s.(input := Connected, phase := PublishingStarted)
    case StepConnected(Err(source)) => BeginStop(s, Err(RunFailed(StreamError(source))))
    case StepConnectTimeout => BeginStop(s, Err(RunFailed(Timeout)))
    case StepStarted(Ok(_)) => s.(phase := Streaming([], None, None))
    case StepStarted(Err(error)) => BeginStop(s, Err(error))
    case StepCancelled => BeginStop(s, Err(RunCancelled))
    case StepControl(Released) => BeginStop(s, Err(RunFailed(ChannelClosed)))
    case StepControl(Limit(limit)) =>
      var (applied, result) := ApplyLimit(s, limit);
      if result.Err? then BeginStop(applied, Err(result.error)) else applied
    case StepIdleTimeout => FlushAndConclude(s, IdleTimeout)
    case StepDownload(Item(bytes)) => OnItem(s, bytes)
    case StepDownload(End) => FlushAndConclude(s, Validate)
    case StepDownload(Broken(source)) => FlushAndConclude(s, UpstreamError(source))
    case StepEmitted(result) => OnEmitted(s, result)
    case StepDrained(outcome) =>
      PublishStop(s, match outcome
                     case Drained => s.phase.result
                     case DrainCancelled => Err(RunCancelled)
                     case TimedOut => Err(RunFailed(Timeout)))
    case StepStoppedPublished => s.(dataHeld := false, phase := Done)
  }

  // ----- One turn of the loop is a run of actions

  ghost predicate Reaches(s: State, actions: seq<Action>, t: State)
    decreases |actions|
  {
    if actions == [] then s == t
    else Enabled(s, actions[0]) && CanResume(s) && Reaches(Next(s, actions[0]), actions[1..], t)
  }

  /** The actions of an emitting poll: the signals found, and then what ends it. */
  function EmitActions(s: State, e: Sources, look: nat): seq<Action>
    requires Emitting(s) && s.dataHeld
    decreases |e.controls| - look
  {
    if CancelledAt(e, look) then [Cancel]
    else if s.phase.staged.value.controlOpen && look < |e.controls| then
      [Signal(e.controls[look])] + EmitActions(EmitControl(s, e.controls[look]), e, look + 1)
    else if s.data.open && !s.data.HasRoom(DATA_CAPACITY) then []
    else [PushStaged]
  }

  lemma {:induction false} EmitTurn(s: State, e: Sources, look: nat)
    requires Emitting(s) && s.dataHeld && CanResume(s)
    ensures var (t, result) := EmitPoll(s, e, look);
            && Emitting(t) && CanResume(t)
            && Reaches(s, EmitActions(s, e, look), if result.Some? then OnEmitted(t, result.value) else t)
    decreases |e.controls| - look
  {
    var actions := EmitActions(s, e, look);
    if CancelledAt(e, look) {
      assert actions[1..] == [];
    } else if s.phase.staged.value.controlOpen && look < |e.controls| {
      var next := EmitControl(s, e.controls[look]);
      EmitTurn(next, e, look + 1);
      assert actions[1..] == EmitActions(next, e, look + 1);
      assert Next(s, actions[0]) == next;
    } else if !(s.data.open && !s.data.HasRoom(DATA_CAPACITY)) {
      assert actions[1..] == [];
    }
  }

  function TurnActions(s: State, e: Sources): seq<Action>
    requires CanResume(s)
  {
    if Emitting(s) && s.dataHeld then EmitActions(s, e, 0)
    else
      match Polled(s, e).1
      case None => []
      case Some(step) =>
        [match step
         case StepConnected(Ok(_)) => ConnectSucceeds
         case StepConnected(Err(source)) => ConnectFails(source)
         case StepConnectTimeout => ConnectExpires
         case StepStarted(_) => PublishStarted
         case StepCancelled => Cancel
         case StepControl(control) => Signal(control)
         case StepIdleTimeout => IdleExpires
         case StepDownload(Item(bytes)) => ItemArrives(bytes)
         case StepDownload(End) => StreamEnds
         case StepDownload(Broken(source)) => StreamFails(source)
         case StepEmitted(_) => PushStaged
         case StepDrained(outcome) => FinishDrain(outcome)
         case StepStoppedPublished => PublishStopped]
  }

  /** A poll and the handling of what it selected are exactly a run of the runner's actions. */
  lemma TurnIsActions(s: State, e: Sources)
    requires CanResume(s)
    ensures var (t, step) := Polled(s, e);
            && (step.Some? ==> Fits(t, step.value))
            && Reaches(s, TurnActions(s, e), if step.Some? then Handled(t, step.value) else t)
  {
    var actions := TurnActions(s, e);
    if Emitting(s) && s.dataHeld {
      EmitTurn(s, e, 0);
    } else {
      var (t, step) := Polled(s, e);
      if step.Some? {
        assert actions[1..] == [];
        assert Enabled(s, actions[0]);
        assert Next(s, actions[0]) == Handled(t, step.value);
      }
    }
  }

  lemma {:induction false} ReachesKeepsInv(s: State, actions: seq<Action>, t: State)
    requires Inv(s) && Reaches(s, actions, t)
    ensures Inv(t)
    decreases |actions|
  {
    if actions != [] {
      NextKeepsInv(s, actions[0]);
      ReachesKeepsInv(Next(s, actions[0]), actions[1..], t);
    }
  }

  lemma {:induction false} ReachesThen(s: State, first: seq<Action>, t: State, more: seq<Action>, u: State)
    requires Reaches(s, first, t) && Reaches(t, more, u)
    ensures Reaches(s, first + more, u)
    decreases |first|
  {
    if first == [] {
      assert first + more == more;
    } else {
      assert (first + more)[1..] == first[1..] + more;
      ReachesThen(Next(s, first[0]), first[1..], t, more, u);
    }
  }

  /** A poll leaves what is buffered alone. */
  lemma {:induction false} EmitPollKeepsBuffer(s: State, e: Sources, look: nat)
    requires Emitting(s) && s.dataHeld
    ensures EmitPoll(s, e, look).0.phase.Streaming? && EmitPoll(s, e, look).0.phase.buffer == s.phase.buffer
    decreases |e.controls| - look
  {
    if !CancelledAt(e, look) && s.phase.staged.value.controlOpen && look < |e.controls| {
      EmitPollKeepsBuffer(EmitControl(s, e.controls[look]), e, look + 1);
    }
  }

  lemma PollKeepsBuffer(s: State, e: Sources)
    requires s.phase.Streaming? ==> |s.phase.buffer| <= BUFFER_SIZE
    ensures var t := Polled(s, e).0; t.phase.Streaming? ==> |t.phase.buffer| <= BUFFER_SIZE
  {
    if Emitting(s) && s.dataHeld {
      EmitPollKeepsBuffer(s, e, 0);
    }
  }

  lemma PendingIsNotDone(s: State, e: Sources)
    requires !s.phase.Done? && Polled(s, e).1.None?
    ensures !Polled(s, e).0.phase.Done?
  {
    if Emitting(s) && s.dataHeld {
      EmitPollKeepsBuffer(s, e, 0);
    }
  }

  /**
   Draining waits, and times out, only while the consumer has frames to take; the result it was entered with
   is reported exactly if they were all taken, or nobody takes them any more.
   */
  lemma DrainWaitsForFrames(s: State, e: Sources)
    requires Inv(s) && s.phase.Draining?
    ensures var (t, step) := Polled(s, e);
            && t == s
            && (step.None? || step.value == StepDrained(TimedOut) ==> s.data.open && s.data.taken < |s.data.sent|)
            && (step == Some(StepDrained(Drained)) ==> ConsumerDone(s))
            && (step.Some? && step.value != StepDrained(Drained) ==>
                  Handled(s, step.value).phase.event in {Stopped(Failed(Cancelled)), Stopped(Failed(Timeout))})
            && (step == Some(StepDrained(Drained)) ==> Handled(s, step.value).phase.event == StopEvent(s.phase.result))
  {
  }

  // ----- Who is asked first

  /** What one turn makes of the runner. */
  ghost function TurnTo(s: State, e: Sources): State
    requires CanResume(s)
  {
    TurnIsActions(s, e);
    var (t, step) := Polled(s, e);
    if step.Some? then Handled(t, step.value) else t
  }

  /** A set token ends a connecting, streaming or draining runner at its next turn, whatever else is ready. */
  lemma CancelWins(s: State, e: Sources)
    requires Inv(s) && CancelledAt(e, 0) && (s.phase.Connecting? || s.phase.Streaming? || s.phase.Draining?)
    ensures CanResume(s) && TurnTo(s, e).phase == PublishingStopped(Stopped(Failed(Cancelled)))
    ensures TurnTo(s, e).pushed == s.pushed && TurnTo(s, e).yielded == s.yielded
  {
  }

  /** While connecting or reading: the token, then the next signal, then the timer, and only then the work itself. */
  lemma PollOrder(s: State, e: Sources)
    requires s.phase.Connecting? || Reading(s)
    ensures Polled(s, e).0 == s
    ensures var step := Polled(s, e).1;
            && (CancelledAt(e, 0) <==> step == Some(StepCancelled))
            && (!CancelledAt(e, 0) && e.controls != [] ==> step == Some(StepControl(e.controls[0])))
            && (step.Some? && step.value.StepControl? ==> !CancelledAt(e, 0) && e.controls != [])
            && (step == Some(StepConnectTimeout) || step == Some(StepIdleTimeout) <==>
                  !CancelledAt(e, 0) && e.controls == [] && e.timerExpired)
            && (step.Some? && (step.value.StepConnected? || step.value.StepDownload?) ==>
                  !CancelledAt(e, 0) && e.controls == [] && !e.timerExpired)
            && (step.None? <==>
                  && !CancelledAt(e, 0) && e.controls == [] && !e.timerExpired
                  && (if Reading(s) then e.download.None? else e.connection.None?))
  {
  }

  /** A limit that waits is applied, or refused, before anything more is taken from the stream. */
  lemma LimitBeforeItem(s: State, e: Sources, limit: nat)
    requires Inv(s) && Reading(s) && !CancelledAt(e, 0) && e.controls != [] && e.controls[0] == Limit(limit)
    requires s.total.Some?
    ensures CanResume(s) && TurnTo(s, e).yielded == s.yielded && TurnTo(s, e).pushed == s.pushed
    ensures if limit < s.total.value then TurnTo(s, e) == s.(total := Some(limit))
            else TurnTo(s, e).refused && TurnTo(s, e).phase == Draining(Err(RunFailed(ExceededTotalSize)))
  {
  }

  /** The signals that an emission looks at: all that are there, up to the sender's end. */
  function Seen(controls: seq<Control>): seq<Control> {
    if controls == [] then []
    else [controls[0]] + if controls[0].Released? then [] else Seen(controls[1..])
  }

  /** The lowest of the total and the limits that are told. */
  function Lowest(total: nat, controls: seq<Control>): nat {
    if controls == [] then total
    else Lowest(if controls[0].Limit? && controls[0].total < total then controls[0].total else total, controls[1..])
  }

  /** A frame is pushed only once every signal that is there was applied, and not if the token is set by then. */
  lemma {:induction false} PushComesLast(s: State, e: Sources, look: nat)
    requires Emitting(s) && s.dataHeld && s.phase.staged.value.controlOpen && s.total.Some? && look <= |e.controls|
    ensures var (t, result) := EmitPoll(s, e, look);
            var seen := Seen(e.controls[look..]);
            if e.cancelAfter.Some? && e.cancelAfter.value <= look + |seen|
            then result == Some(Err(RunCancelled)) && t.pushed == s.pushed
            else
              && t.total == Some(Lowest(s.total.value, seen))
              && (result == Some(Err(RunFailed(ChannelClosed))) <==> !s.data.open)
              && (result.None? <==> s.data.open && |s.data.sent| >= s.data.taken + DATA_CAPACITY)
              && (result.Some? && result.value.Ok? <==> s.data.open && |s.data.sent| < s.data.taken + DATA_CAPACITY)
              && t.pushed == s.pushed + if result.Some? && result.value.Ok? then s.phase.staged.value.frame else []
    decreases |e.controls| - look
  {
    if !CancelledAt(e, look) && look < |e.controls| {
      var next := EmitControl(s, e.controls[look]);
      assert e.controls[look..][1..] == e.controls[look + 1..];
      if e.controls[look].Released? {
        SenderGone(next, e, look + 1);
      } else {
        PushComesLast(next, e, look + 1);
      }
    }
  }

  lemma SenderGone(s: State, e: Sources, look: nat)
    requires Emitting(s) && s.dataHeld && !s.phase.staged.value.controlOpen
    ensures var (t, result) := EmitPoll(s, e, look);
            && t.total == s.total
            && (result == Some(Err(RunCancelled)) <==> CancelledAt(e, look))
            && (result == Some(Err(RunFailed(ChannelClosed))) <==> !CancelledAt(e, look) && !s.data.open)
            && (result.None? <==>
                  !CancelledAt(e, look) && s.data.open && |s.data.sent| >= s.data.taken + DATA_CAPACITY)
            && t.pushed == s.pushed + if result.Some? && result.value.Ok? then s.phase.staged.value.frame else []
  {
  }

  // ----- Many turns

  /** Take turns until the runner is done, nothing is ready, or none is left. */
  ghost function Ran(s: State, turns: seq<Sources>): State
    requires Inv(s)
    decreases |turns|
  {
    if turns == [] || s.phase.Done? then s
    else
      InvCanResume(s);
      TurnIsActions(s, turns[0]);
      ReachesKeepsInv(s, TurnActions(s, turns[0]), TurnTo(s, turns[0]));
      if Polled(s, turns[0]).1.None? then TurnTo(s, turns[0]) else Ran(TurnTo(s, turns[0]), turns[1..])
  }
}
