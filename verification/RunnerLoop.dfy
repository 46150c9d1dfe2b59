/**
 The runner as the polled object. Its fields change step by step: the phase, the buffer and the
 item being buffered, the staged frame, the limit, the counters and the producing ends of its two
 channels. Each method computes the transition of `Runner` and `RunnerTurns` that names it.
 */
module RunnerLoop {
  import opened Wrappers
  import opened Numbers
  import opened Runner
  import opened RunnerTurns
  import RunnerLaws

  class RunnerLoop {
    var total: Option<nat>
    var downloaded: nat
    var input: Input
    var phase: Phase
    var dataHeld: bool
    var data: Channel<seq<Byte>>
    var lifecycle: Channel<LifecycleEvent>
    ghost var pushed: seq<Byte>
    ghost var yielded: seq<Byte>
    ghost var refused: bool

    ghost function View(): State
      reads this
    {
      State(total, downloaded, input, phase, dataHeld, data, lifecycle, pushed, yielded, refused)
    }

    /** A runner of the manager: it connects by itself and may download `total` bytes. */
    constructor Spawn(total: nat)
      ensures View() == Spawned(total)
    {
      this.total := Some(total);
      downloaded := 0;
      input := Connector;
      phase := Connecting;
      dataHeld := true;
      data := Channel([], 0, true);
      lifecycle := Channel([], 0, true);
      pushed, yielded, refused := [], [], false;
    }

    // ----- The size limit

    method Allowed(buffered: nat) returns (n: nat)
      ensures n == Allowance(View(), buffered)
      ensures total.Some? ==> downloaded + buffered + n == Max(downloaded + buffered, total.value)
    {
      if total.None? {
        return U64_MAX;
      }
      var used := downloaded + buffered;
      return if used <= total.value then total.value - used else 0;
    }

    method CheckSize() returns (result: RunResult)
      ensures result == ValidateSize(View())
      ensures result.Ok? <==> RunnerLaws.SizeMet(View())
    {
      match total {
        case Some(limit) =>
          if limit == downloaded {
            return Ok(());
          } else if limit > downloaded {
            return Err(RunFailed(SmallerThanTotalSize));
          } else {
            return Err(RunFailed(ExceededTotalSize));
          }
        case None =>
          return if downloaded > 0 then Ok(()) else Err(RunFailed(Empty));
      }
    }

    method LimitTo(limit: nat) returns (result: RunResult)
      modifies this
      ensures (View(), result) == ApplyLimit(old(View()), limit)
    {
      if total.Some? {
        if total.value > limit {
          total := Some(limit);
        } else {
          refused := true;
          return Err(RunFailed(ExceededTotalSize));
        }
      }
      return Ok(());
    }

    // ----- Stopping

    method SetStopped(result: RunResult)
      modifies this
      ensures View() == PublishStop(old(View()), result)
    {
      phase := PublishingStopped(StopEvent(result));
    }

    method Stop(result: RunResult)
      modifies this
      ensures View() == BeginStop(old(View()), result)
    {
      if phase.Connecting? {
        input := Abandoned;
      }
      if ShouldDrain(result) {
        phase := Draining(result);
      } else {
        SetStopped(result);
      }
    }

    // ----- Streaming

    /** The item being buffered and the offset of what is not buffered yet are known. */
    ghost predicate HasItem()
      reads this
    {
      phase.Streaming? && phase.item.Some? && phase.item.value.offset <= |phase.item.value.bytes|
    }

    method Buffer()
      requires HasItem() && phase.staged.None? && |phase.buffer| <= BUFFER_SIZE
      modifies this
      ensures View() == BufferItem(old(View()))
      decreases 3
    {
      var allowed := Allowed(|phase.buffer|);
      if allowed == 0 {
        Flush(Validate);
        return;
      }
      var item := phase.item.value;
      if item.offset == |item.bytes| {
        phase := phase.(item := None);
        return;
      }
      var remaining := |item.bytes| - item.offset;
      var writable := if remaining < allowed then remaining else allowed;
      ghost var rest := item.bytes[item.offset..];
      if |phase.buffer| + writable <= BUFFER_SIZE {
        assert item.bytes[item.offset..item.offset + writable] == rest[..writable];
        phase := phase.(buffer := phase.buffer + item.bytes[item.offset..item.offset + writable]);
        if writable == allowed {
          Flush(Validate);
          return;
        }
        assert rest[..writable] == rest;
        phase := phase.(item := None);
        return;
      }
      var take := BUFFER_SIZE - |phase.buffer|;
      assert item.bytes[item.offset..item.offset + take] == rest[..take];
      phase := phase.(buffer := phase.buffer + item.bytes[item.offset..item.offset + take]);
      phase := phase.(item := Some(Cursor(item.bytes, item.offset + take)));
      Flush(ResumeItem);
    }

    /** Stage what was buffered; with nothing buffered, go on at once. */
    method Flush(after: Continuation)
      requires phase.Streaming? && phase.staged.None?
      requires after.ResumeItem? && phase.buffer == [] ==> HasItem()
      modifies this
      ensures View() == if after.ResumeItem?
                        then if old(phase.buffer) == [] then BufferItem(old(View()))
                             else Stage(old(View()), old(phase.buffer), old(phase.item), after)
                        else FlushAndConclude(old(View()), after)
      decreases if after.ResumeItem? && phase.Streaming? && phase.buffer == [] then 6 else 2
    {
      if phase.buffer == [] {
        ResumeAfterEmit(after, Ok(None));
        return;
      }
      var frame := phase.buffer;
      phase := phase.(buffer := []);
      phase := phase.(staged := Some(Staged(frame, None, true, after)));
    }

    method Resume()
      requires HasItem() && phase.staged.None? && |phase.buffer| <= BUFFER_SIZE
      modifies this
      ensures View() == BufferItem(old(View()))
      decreases 4
    {
      Buffer();
    }

    /** Continue once nothing is staged any more. */
    method ResumeAfterEmit(after: Continuation, result: EmitResult)
      requires phase.Streaming? && phase.staged.None? && |phase.buffer| <= BUFFER_SIZE
      requires after.ResumeItem? && result == Ok(None) ==> HasItem()
      modifies this
      ensures View() == match result
                        case Err(error) => BeginStop(old(View()), Err(error))
                        case Ok(deferred) =>
                          if after.ResumeItem? then
                            if deferred.None? then BufferItem(old(View()))
                            else BeginStop(old(View()), Err(deferred.value))
                          else Conclude(old(View()), after, deferred)
      decreases if after.ResumeItem? && result == Ok(None) then 5 else 1
    {
      if result.Err? {
        Stop(Err(result.error));
        return;
      }
      match (after, result.value) {
        case (UpstreamError(source), _) => Stop(Err(RunFailed(StreamError(source))));
        case (_, Some(error)) => Stop(Err(error));
        case (ResumeItem, None) => Resume();
        case (Validate, None) =>
          var size := CheckSize();
          Stop(size);
        case (IdleTimeout, None) => Stop(Err(RunFailed(Timeout)));
      }
    }

    method TakeItem(bytes: seq<Byte>)
      requires phase.Streaming? && phase.staged.None? && |phase.buffer| <= BUFFER_SIZE
      modifies this
      ensures View() == OnItem(old(View()), bytes)
    {
      phase := phase.(item := Some(Cursor(bytes, 0)));
      yielded := yielded + bytes;
      Buffer();
    }

    method Unstage(result: EmitResult)
      requires Emitting(View()) && CanResume(View()) && |phase.buffer| <= BUFFER_SIZE
      modifies this
      ensures View() == OnEmitted(old(View()), result)
    {
      var after := phase.staged.value.after;
      phase := phase.(staged := None);
      ResumeAfterEmit(after, result);
    }

    // ----- Polling

    method ControlWhileEmitting(c: Control)
      requires Emitting(View())
      modifies this
      ensures View() == EmitControl(old(View()), c)
    {
      var staged := phase.staged.value;
      var error: Option<RunError> := None;
      match c {
        case Limit(limit) =>
          var result := LimitTo(limit);
          if result.Err? {
            error := Some(result.error);
          }
        case Released =>
          staged := staged.(controlOpen := false);
          error := Some(RunFailed(ChannelClosed));
      }
      if staged.deferred.None? {
        staged := staged.(deferred := error);
      }
      phase := phase.(staged := Some(staged));
    }

    /** A cancelled token is seen first, then every signal, and only then is the consumer asked for room. */
    method PollEmit(e: Sources) returns (result: Option<EmitResult>)
      requires Emitting(View()) && dataHeld
      modifies this
      ensures (View(), result) == EmitPoll(old(View()), e, 0)
    {
      var look := 0;
      while !CancelledAt(e, look) && phase.staged.value.controlOpen && look < |e.controls|
        invariant Emitting(View()) && dataHeld
        invariant look <= |e.controls|
        invariant EmitPoll(View(), e, look) == EmitPoll(old(View()), e, 0)
      {
        ControlWhileEmitting(e.controls[look]);
        look := look + 1;
      }
      if CancelledAt(e, look) {
        return Some(Err(RunCancelled));
      }
      if !data.open {
        return Some(Err(RunFailed(ChannelClosed)));
      }
      if !data.HasRoom(DATA_CAPACITY) {
        return None;
      }
      var frame := phase.staged.value.frame;
      data := data.Push(frame);
      downloaded := downloaded + |frame|;
      pushed := pushed + frame;
      return Some(Ok(phase.staged.value.deferred));
    }

    /** A timer only counts while the consumer still has frames to take. */
    method PollDrain(e: Sources) returns (outcome: Option<DrainOutcome>)
      requires phase.Draining?
      ensures Polled(View(), e) == (View(), if outcome.Some? then Some(StepDrained(outcome.value)) else None)
    {
      if !dataHeld {
        return Some(Drained);
      }
      if CancelledAt(e, 0) {
        return Some(DrainCancelled);
      }
      if !data.open || data.IsEmpty() {
        return Some(Drained);
      }
      return if e.timerExpired then Some(TimedOut) else None;
    }

    /** Tell the manager, if it listens: `None` while its queue is full, `Some(false)` if it does not. */
    method PollPublish(event: LifecycleEvent) returns (open: Option<bool>)
      modifies this
      ensures open == if CanPublish(old(View())) then Some(old(lifecycle.open)) else None
      ensures View() == if open == Some(true) then old(View()).(lifecycle := old(lifecycle).Push(event))
                        else old(View())
    {
      if !lifecycle.open {
        return Some(false);
      }
      if !lifecycle.HasRoom(LIFECYCLE_CAPACITY) {
        return None;
      }
      lifecycle := lifecycle.Push(event);
      return Some(true);
    }

    method PollStep(e: Sources) returns (step: Option<LoopStep>)
      requires CanResume(View())
      modifies this
      ensures (View(), step) == Polled(old(View()), e)
      ensures step.Some? ==> Fits(View(), step.value)
    {
      TurnIsActions(View(), e);
      match phase {
        case Connecting =>
          if CancelledAt(e, 0) {
            return Some(StepCancelled);
          }
          if e.controls != [] {
            return Some(StepControl(e.controls[0]));
          }
          if e.timerExpired {
            return Some(StepConnectTimeout);
          }
          return if e.connection.Some? then Some(StepConnected(e.connection.value)) else None;
        case PublishingStarted =>
          var open := PollPublish(Started);
          return match open
            case None => None
            case Some(true) => Some(StepStarted(Ok(())))
            case Some(false) => Some(StepStarted(Err(RunFailed(ChannelClosed))));
        case Streaming(_, _, Some(_)) =>
          if !dataHeld {
            return Some(StepEmitted(Err(RunFailed(ChannelClosed))));
          }
          var result := PollEmit(e);
          return if result.Some? then Some(StepEmitted(result.value)) else None;
        case Streaming(_, _, None) =>
          if CancelledAt(e, 0) {
            return Some(StepCancelled);
          }
          if e.controls != [] {
            return Some(StepControl(e.controls[0]));
          }
          if e.timerExpired {
            return Some(StepIdleTimeout);
          }
          return if e.download.Some? then Some(StepDownload(e.download.value)) else None;
        case Draining(_) =>
          var outcome := PollDrain(e);
          return if outcome.Some? then Some(StepDrained(outcome.value)) else None;
        case PublishingStopped(event) =>
          var open := PollPublish(event);
          return if open.Some? then Some(StepStoppedPublished) else None;
        case Done =>
          return None;
      }
    }

    method HandleStep(step: LoopStep)
      requires Fits(View(), step)
      requires phase.Streaming? ==> |phase.buffer| <= BUFFER_SIZE
      modifies this
      ensures View() == Handled(old(View()), step)
    {
      match step {
        case StepConnected(Ok(_)) =>
          input := Connected;
          phase := PublishingStarted;
        case StepConnected(Err(source)) => Stop(Err(RunFailed(StreamError(source))));
        case StepConnectTimeout => Stop(Err(RunFailed(Timeout)));
        case StepStarted(Ok(_)) => phase := Streaming([], None, None);
        case StepStarted(Err(error)) => Stop(Err(error));
        case StepCancelled => Stop(Err(RunCancelled));
        case StepControl(Released) => Stop(Err(RunFailed(ChannelClosed)));
        case StepControl(Limit(limit)) =>
          var result := LimitTo(limit);
          if result.Err? {
            Stop(Err(result.error));
          }
        case StepIdleTimeout => Flush(IdleTimeout);
        case StepDownload(End) => Flush(Validate);
        case StepDownload(Broken(source)) => Flush(UpstreamError(source));
        case StepDownload(Item(bytes)) => TakeItem(bytes);
        case StepEmitted(result) => Unstage(result);
        case StepDrained(outcome) =>
          var result := match outcome
            case Drained => phase.result
            case DrainCancelled => Err(RunCancelled)
            case TimedOut => Err(RunFailed(Timeout));
          SetStopped(result);
        case StepStoppedPublished =>
          dataHeld := false;
          phase := Done;
      }
    }

    /** One turn: poll the sources and handle the step they give; `false` if there is none. */
    method Turn(e: Sources) returns (went: bool)
      requires RunnerLaws.Inv(View())
      modifies this
      ensures RunnerLaws.Inv(View())
      ensures CanResume(old(View())) && Reaches(old(View()), TurnActions(old(View()), e), View())
      ensures View() == TurnTo(old(View()), e) && (went <==> Polled(old(View()), e).1.Some?)
    {
      ghost var before := View();
      RunnerLaws.InvCanResume(before);
      PollKeepsBuffer(before, e);
      TurnIsActions(before, e);
      var step := PollStep(e);
      if step.Some? {
        HandleStep(step.value);
      }
      ReachesKeepsInv(before, TurnActions(before, e), View());
      return step.Some?;
    }

    /** Take turns until the runner is done or nothing is ready; all of it is a run of the runner's actions. */
    method PollRun(turns: seq<Sources>) returns (done: bool, ghost actions: seq<Action>)
      requires RunnerLaws.Inv(View())
      modifies this
      ensures RunnerLaws.Inv(View()) && Reaches(old(View()), actions, View())
      ensures View() == Ran(old(View()), turns) && (done <==> phase.Done?)
    {
      actions := [];
      assert turns[0..] == turns;
      for i := 0 to |turns|
        invariant RunnerLaws.Inv(View()) && Reaches(old(View()), actions, View())
        invariant Ran(old(View()), turns) == Ran(View(), turns[i..])
      {
        if phase.Done? {
          return true, actions;
        }
        ghost var before := View();
        RunnerLaws.InvCanResume(before);
        assert turns[i..][0] == turns[i] && turns[i..][1..] == turns[i + 1..];
        var went := Turn(turns[i]);
        ReachesThen(old(View()), actions, before, TurnActions(before, turns[i]), View());
        actions := actions + TurnActions(before, turns[i]);
        if !went {
          PendingIsNotDone(before, turns[i]);
          return false, actions;
        }
      }
      return phase.Done?, actions;
    }
  }
}
