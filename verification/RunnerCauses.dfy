/**
 Why a runner stops. Every reason it gives has its cause among the events of its run; a broken stream is not
 covered up by anything but a cancellation, a closed channel or an expired timer; and exactly the results for which
 delivered bytes count wait for the consumer.
 */
module RunnerCauses {
  import opened Wrappers
  import opened Runner
  import opened RunnerLaws
  import opened RunnerRuns

  // ----- What happened so far

  /** The events so far that may stop a runner. */
  datatype Past = Past(
    cancelled: bool,
    expired: bool,
    released: bool,
    ended: bool,
    unconnected: Option<AdapterError>,
    broke: Option<AdapterError>)

  const NOTHING := Past(false, false, false, false, None, None)

  function Learn(p: Past, a: Action): Past {
    match a
    case Cancel => p.(cancelled := true)
    case FinishDrain(DrainCancelled) => p.(cancelled := true)
    case ConnectExpires => p.(expired := true)
    case IdleExpires => p.(expired := true)
    case FinishDrain(TimedOut) => p.(expired := true)
    case Signal(Released) => p.(released := true)
    case StreamEnds => p.(ended := true)
    case ConnectFails(source) => p.(unconnected := Some(source))
    case StreamFails(source) => p.(broke := Some(source))
    case _ => p
  }

  // ----- What a reason needs

  /** No limit was refused, and the limits' sender is not gone. */
  ghost predicate Undisturbed(s: State, p: Past) { !s.refused && !p.released }

  /** The event that an error stands for happened. */
  ghost predicate Caused(s: State, p: Past, e: TaskError) {
    match e
    case Cancelled => p.cancelled
    case Timeout => p.expired
    case StreamError(source) => p.unconnected == Some(source) || p.broke == Some(source)
    case ChannelClosed => p.released || !s.data.open || !s.lifecycle.open
    case ExceededTotalSize => s.refused || (s.total.Some? && s.downloaded > s.total.value)
    case SmallerThanTotalSize => Undisturbed(s, p) && p.ended && s.total.Some? && s.downloaded < s.total.value
    case Empty => Undisturbed(s, p) && p.ended && s.total.None? && s.downloaded == 0
    case Other => false
  }

  ghost predicate ReasonCaused(s: State, p: Past, reason: StoppedReason) {
    match reason
    case Finished => Undisturbed(s, p) && SizeMet(s) && (s.total.None? ==> p.ended)
    case Failed(e) => Caused(s, p, e)
  }

  /** What may be told of a stream that broke. */
  predicate TellsBreak(reason: StoppedReason, source: AdapterError) {
    reason.Failed? && reason.error in {StreamError(source), Cancelled, ChannelClosed, Timeout}
  }

  function ReasonOf(result: RunResult): StoppedReason {
    match result
    case Ok(_) => Finished
    case Err(RunCancelled) => Failed(Cancelled)
    case Err(RunFailed(e)) => Failed(e)
  }

  /** Reasons for which the bytes delivered so far count. */
  predicate Counts(reason: StoppedReason) {
    reason.Finished? || reason.error.ExceededTotalSize? || reason.error.StreamError? || reason.error.Timeout?
  }

  // ----- The invariant

  ghost predicate DeferredOk(s: State, p: Past, deferred: Option<RunError>) {
    match deferred
    case None => Undisturbed(s, p)
    case Some(RunFailed(ExceededTotalSize)) => s.refused
    case Some(RunFailed(ChannelClosed)) => p.released
    case _ => false
  }

  ghost predicate AfterOk(s: State, p: Past, after: Continuation, waiting: nat) {
    match after
    case ResumeItem => p.broke.None?
    case UpstreamError(source) => p.broke == Some(source)
    case IdleTimeout => p.broke.None? && p.expired
    case Validate => p.broke.None? && (p.ended || (s.total.Some? && s.downloaded + waiting >= s.total.value))
  }

  ghost predicate StopOk(s: State, p: Past, reason: StoppedReason) {
    && ReasonCaused(s, p, reason)
    && (p.broke.Some? ==> TellsBreak(reason, p.broke.value))
  }

  ghost predicate CauseInv(s: State, p: Past) {
    match s.phase
    case Connecting => p.broke.None? && Undisturbed(s, p)
    case PublishingStarted => p.broke.None? && Undisturbed(s, p)
    case Streaming(_, _, None) => p.broke.None? && Undisturbed(s, p)
    case Streaming(_, _, Some(staged)) =>
      DeferredOk(s, p, staged.deferred) && AfterOk(s, p, staged.after, |staged.frame|)
    case Draining(result) =>
      && StopOk(s, p, ReasonOf(result)) && Counts(ReasonOf(result))
      && (p.broke.Some? ==> ReasonOf(result) == Failed(StreamError(p.broke.value)))
    case PublishingStopped(event) => event.Stopped? && StopOk(s, p, event.reason)
    case Done =>
      s.lifecycle.open ==>
        && s.lifecycle.sent != [] && s.lifecycle.sent[|s.lifecycle.sent| - 1].Stopped?
        && StopOk(s, p, s.lifecycle.sent[|s.lifecycle.sent| - 1].reason)
  }

  // ----- Stopping

  lemma StopCaused(s: State, p: Past, result: RunResult)
    requires StopOk(s, p, ReasonOf(result))
    requires p.broke.Some? && Counts(ReasonOf(result)) ==> ReasonOf(result) == Failed(StreamError(p.broke.value))
    ensures CauseInv(BeginStop(s, result), p)
    ensures BeginStop(s, result).phase.Draining? <==> Counts(ReasonOf(result))
  {
  }

  lemma SizeCaused(s: State, p: Past)
    requires p.broke.None? && (p.ended || (s.total.Some? && s.downloaded >= s.total.value)) && Undisturbed(s, p)
    ensures StopOk(s, p, ReasonOf(ValidateSize(s)))
  {
  }

  /** What follows a push, or takes the place of one. */
  lemma ConcludeCaused(s: State, p: Past, after: Continuation, deferred: Option<RunError>)
    requires !after.ResumeItem? && DeferredOk(s, p, deferred) && AfterOk(s, p, after, 0)
    ensures CauseInv(Conclude(s, after, deferred), p)
  {
    match after
    case UpstreamError(source) => StopCaused(s, p, Err(RunFailed(StreamError(source))));
    case IdleTimeout => StopCaused(s, p, if deferred.Some? then Err(deferred.value) else Err(RunFailed(Timeout)));
    case Validate =>
      if deferred.Some? {
        StopCaused(s, p, Err(deferred.value));
      } else {
        SizeCaused(s, p);
        StopCaused(s, p, ValidateSize(s));
      }
  }

  lemma FlushCaused(s: State, p: Past, after: Continuation)
    requires Reading(s) && !after.ResumeItem? && AfterOk(s, p, after, 0) && Undisturbed(s, p)
    ensures CauseInv(FlushAndConclude(s, after), p)
  {
    if s.phase.buffer == [] {
      ConcludeCaused(s, p, after, None);
    }
  }

  lemma BufferCaused(s: State, p: Past)
    requires s.phase.Streaming? && s.phase.item.Some? && s.phase.item.value.offset <= |s.phase.item.value.bytes|
    requires s.phase.staged.None? && |s.phase.buffer| <= BUFFER_SIZE && p.broke.None? && Undisturbed(s, p)
    ensures CauseInv(BufferItem(s), p)
  {
    if Allowance(s, |s.phase.buffer|) == 0 {
      if s.phase.buffer == [] {
        ConcludeCaused(s, p, Validate, None);
      }
    }
  }

  // ----- Every action has its cause

  lemma PushCaused(s: State, p: Past)
    requires Inv(s) && CauseInv(s, p) && Emitting(s) && Enabled(s, PushStaged)
    ensures CauseInv(Next(s, PushStaged), p)
  {
    var staged := s.phase.staged.value;
    if s.data.open {
      var pushed := PushFrame(s);
      var unstaged := pushed.(phase := pushed.phase.(staged := None));
      if !staged.after.ResumeItem? {
        ConcludeCaused(unstaged, p, staged.after, staged.deferred);
      } else if staged.deferred.Some? {
        StopCaused(unstaged, p, Err(staged.deferred.value));
      } else {
        BufferCaused(unstaged, p);
      }
    } else {
      StopCaused(s.(phase := s.phase.(staged := None)), p, Err(RunFailed(ChannelClosed)));
    }
  }

  lemma SignalCaused(s: State, p: Past, control: Control)
    requires Inv(s) && CauseInv(s, p) && Enabled(s, Signal(control)) && CanResume(s)
    ensures CauseInv(Next(s, Signal(control)), Learn(p, Signal(control)))
  {
    if !Emitting(s) {
      match control
      case Released => StopCaused(s, p.(released := true), Err(RunFailed(ChannelClosed)));
      case Limit(limit) =>
        var (applied, result) := ApplyLimit(s, limit);
        if result.Err? {
          StopCaused(applied, p, Err(result.error));
        }
    }
  }

  lemma CancelCaused(s: State, p: Past)
    requires Inv(s) && CauseInv(s, p) && Enabled(s, Cancel) && CanResume(s)
    ensures CauseInv(Next(s, Cancel), Learn(p, Cancel))
  {
    var unstaged := if Emitting(s) then s.(phase := s.phase.(staged := None)) else s;
    StopCaused(unstaged, p.(cancelled := true), Err(RunCancelled));
  }

  lemma PublishedCaused(s: State, p: Past)
    requires Inv(s) && CauseInv(s, p) && Enabled(s, PublishStopped)
    ensures CauseInv(Next(s, PublishStopped), p)
  {
  }

  lemma NextCaused(s: State, p: Past, a: Action)
    requires Inv(s) && CauseInv(s, p) && Enabled(s, a) && CanResume(s)
    ensures CauseInv(Next(s, a), Learn(p, a))
  {
    var q := Learn(p, a);
    match a
    case ConnectSucceeds =>
    case ConnectFails(source) => StopCaused(s, q, Err(RunFailed(StreamError(source))));
    case ConnectExpires => StopCaused(s, q, Err(RunFailed(Timeout)));
    case PublishStarted =>
      if !s.lifecycle.open {
        StopCaused(s, q, Err(RunFailed(ChannelClosed)));
      }
    case Cancel => CancelCaused(s, p);
    case Signal(control) => SignalCaused(s, p, control);
    case IdleExpires => FlushCaused(s, q, IdleTimeout);
    case ItemArrives(bytes) =>
      BufferCaused(s.(phase := s.phase.(item := Some(Cursor(bytes, 0))), yielded := s.yielded + bytes), q);
    case StreamEnds => FlushCaused(s, q, Validate);
    case StreamFails(source) => FlushCaused(s, q, UpstreamError(source));
    case PushStaged => PushCaused(s, p);
    case FinishDrain(outcome) => DrainCaused(s, p, outcome);
    case PublishStopped => PublishedCaused(s, p);
  }

  lemma DrainCaused(s: State, p: Past, outcome: DrainOutcome)
    requires Inv(s) && CauseInv(s, p) && Enabled(s, FinishDrain(outcome))
    ensures CauseInv(Next(s, FinishDrain(outcome)), Learn(p, FinishDrain(outcome)))
  {
  }

  lemma ConsumeCaused(s: State, t: State, p: Past)
    requires CauseInv(s, p) && Consumes(s, t)
    ensures CauseInv(t, p)
  {
  }

  // ----- Whole runs

  /** What each step of the run was: an action of the runner, or its consumers' doing. */
  ghost predicate Explains(run: seq<State>, steps: seq<Option<Action>>) {
    && |steps| + 1 == |run|
    && forall i | 0 <= i < |steps| :: StepIs(run[i], steps[i], run[i + 1])
  }

  ghost predicate StepIs(s: State, step: Option<Action>, t: State) {
    if step.Some? then Acts(s, step.value, t) else Consumes(s, t)
  }

  /** What happened in the first `i` steps. */
  function Learned(steps: seq<Option<Action>>, i: nat): Past
    requires i <= |steps|
  {
    if i == 0 then NOTHING
    else if steps[i - 1].Some? then Learn(Learned(steps, i - 1), steps[i - 1].value)
    else Learned(steps, i - 1)
  }

  /** The action is one of the first `i` steps. */
  ghost predicate Happened(steps: seq<Option<Action>>, i: nat, a: Action)
    requires i <= |steps|
  {
    i > 0 && (steps[i - 1] == Some(a) || Happened(steps, i - 1, a))
  }

  /** Everything that `p` knows of is one of the first `i` steps. */
  ghost predicate Backed(p: Past, steps: seq<Option<Action>>, i: nat)
    requires i <= |steps|
  {
    && (p.broke.Some? ==> Happened(steps, i, StreamFails(p.broke.value)))
    && (p.unconnected.Some? ==> Happened(steps, i, ConnectFails(p.unconnected.value)))
    && (p.cancelled ==> Happened(steps, i, Cancel) || Happened(steps, i, FinishDrain(DrainCancelled)))
    && (p.expired ==> (Happened(steps, i, ConnectExpires) || Happened(steps, i, IdleExpires)
                       || Happened(steps, i, FinishDrain(TimedOut))))
    && (p.released ==> Happened(steps, i, Signal(Released)))
    && (p.ended ==> Happened(steps, i, StreamEnds))
  }

  lemma StillBacked(p: Past, steps: seq<Option<Action>>, i: nat)
    requires i < |steps| && Backed(p, steps, i)
    ensures Backed(p, steps, i + 1)
  {
  }

  lemma LastIsBacked(p: Past, steps: seq<Option<Action>>, i: nat, a: Action)
    requires i <= |steps| && Happened(steps, i, a) && Backed(p, steps, i)
    ensures Backed(Learn(p, a), steps, i)
  {
  }

  /** What was learned did happen. */
  lemma {:induction false} LearnedHappened(steps: seq<Option<Action>>, i: nat)
    requires i <= |steps|
    ensures Backed(Learned(steps, i), steps, i)
  {
    if i > 0 {
      LearnedHappened(steps, i - 1);
      StillBacked(Learned(steps, i - 1), steps, i - 1);
      if steps[i - 1].Some? {
        LastIsBacked(Learned(steps, i - 1), steps, i, steps[i - 1].value);
      }
    }
  }

  lemma {:induction false} RunCaused(run: seq<State>, steps: seq<Option<Action>>, i: nat)
    requires IsRun(run) && Explains(run, steps) && i < |run|
    ensures CauseInv(run[i], Learned(steps, i))
  {
    if i > 0 {
      RunCaused(run, steps, i - 1);
      RunKeepsInv(run, i - 1);
      assert StepIs(run[i - 1], steps[i - 1], run[i - 1 + 1]);
      if steps[i - 1].Some? {
        NextCaused(run[i - 1], Learned(steps, i - 1), steps[i - 1].value);
      } else {
        ConsumeCaused(run[i - 1], run[i], Learned(steps, i - 1));
      }
    }
  }

  /** Every reason that a runner gives has its cause in its run, and a broken stream is told. */
  lemma ReasonsHaveCauses(run: seq<State>, steps: seq<Option<Action>>, i: nat, reason: StoppedReason)
    requires IsRun(run) && Explains(run, steps) && i < |run| && run[i].phase.Done? && run[i].lifecycle.open
    requires Stopped(reason) in run[i].lifecycle.sent
    ensures ReasonCaused(run[i], Learned(steps, i), reason)
    ensures Learned(steps, i).broke.Some? ==> TellsBreak(reason, Learned(steps, i).broke.value)
  {
    RunCaused(run, steps, i);
    RunKeepsInv(run, i);
  }

  // ----- Who waits for the consumer

  /** Only what counts waits for the consumer, and only what does not is told at once. */
  ghost predicate EntersRightly(t: State) {
    && (t.phase.Draining? ==> Counts(ReasonOf(t.phase.result)))
    && (t.phase.PublishingStopped? ==> t.phase.event.Stopped? && !Counts(t.phase.event.reason))
  }

  lemma StopEnters(s: State, result: RunResult)
    ensures EntersRightly(BeginStop(s, result))
  {
  }

  lemma ConcludeEnters(s: State, after: Continuation, deferred: Option<RunError>)
    ensures EntersRightly(Conclude(s, after, deferred))
  {
    StopEnters(s, if after.UpstreamError? then Err(RunFailed(StreamError(after.source)))
                  else if deferred.Some? then Err(deferred.value)
                  else if after.IdleTimeout? then Err(RunFailed(Timeout))
                  else ValidateSize(s));
  }

  lemma BufferEnters(s: State)
    requires s.phase.Streaming? && s.phase.item.Some? && s.phase.item.value.offset <= |s.phase.item.value.bytes|
    ensures EntersRightly(BufferItem(s))
  {
    ConcludeEnters(s, Validate, None);
  }

  lemma EmittedEnters(s: State, result: EmitResult)
    requires Emitting(s) && CanResume(s)
    ensures EntersRightly(OnEmitted(s, result))
  {
    var unstaged := s.(phase := s.phase.(staged := None));
    if result.Err? {
      StopEnters(unstaged, Err(result.error));
    } else if s.phase.staged.value.after.ResumeItem? {
      if result.value.Some? {
        StopEnters(unstaged, Err(result.value.value));
      } else {
        BufferEnters(unstaged);
      }
    } else {
      ConcludeEnters(unstaged, s.phase.staged.value.after, result.value);
    }
  }

  lemma NextEnters(s: State, a: Action)
    requires Enabled(s, a) && CanResume(s) && !a.FinishDrain? && !a.PublishStopped?
    ensures EntersRightly(Next(s, a))
  {
    match a
    case ConnectFails(source) => StopEnters(s, Err(RunFailed(StreamError(source))));
    case ConnectExpires => StopEnters(s, Err(RunFailed(Timeout)));
    case Cancel =>
      if Emitting(s) {
        EmittedEnters(s, Err(if s.dataHeld then RunCancelled else RunFailed(ChannelClosed)));
      }
    case IdleExpires => ConcludeEnters(s, IdleTimeout, None);
    case StreamEnds => ConcludeEnters(s, Validate, None);
    case StreamFails(source) => ConcludeEnters(s, UpstreamError(source), None);
    case ItemArrives(bytes) =>
      BufferEnters(s.(phase := s.phase.(item := Some(Cursor(bytes, 0))), yielded := s.yielded + bytes));
    case PushStaged =>
      if s.dataHeld && s.data.open {
        EmittedEnters(PushFrame(s), Ok(s.phase.staged.value.deferred));
      } else {
        EmittedEnters(s, Err(RunFailed(ChannelClosed)));
      }
    case _ =>
  }

  /** A runner that stops waits for its consumer first exactly if what it delivered counts. */
  lemma WaitsIffItCounts(run: seq<State>, i: nat)
    requires IsRun(run) && i + 1 < |run| && !run[i].phase.Draining? && !run[i].phase.PublishingStopped?
    ensures EntersRightly(run[i + 1])
  {
    assert StepAt(run, i);
    StepEnters(run[i], run[i + 1]);
  }

  lemma StepEnters(s: State, t: State)
    requires Step(s, t) && !s.phase.Draining? && !s.phase.PublishingStopped?
    ensures EntersRightly(t)
  {
    if a :| Acts(s, a, t) {
      NextEnters(s, a);
    }
  }

  // ----- What wins after a push

  function StopsWith(t: State): Option<StoppedReason> {
    match t.phase
    case Draining(result) => Some(ReasonOf(result))
    case PublishingStopped(Stopped(reason)) => Some(reason)
    case _ => None
  }

  /** A broken stream wins over a signal that failed during the push, and that over everything else. */
  lemma PushTells(s: State)
    requires Inv(s) && Emitting(s) && Enabled(s, PushStaged) && s.data.open
    ensures var staged, t := s.phase.staged.value, Next(s, PushStaged);
            && t.pushed == s.pushed + staged.frame
            && (staged.after.UpstreamError? ==> StopsWith(t) == Some(Failed(StreamError(staged.after.source))))
            && (!staged.after.UpstreamError? && staged.deferred.Some? ==>
                  StopsWith(t) == Some(ReasonOf(Err(staged.deferred.value))))
            && (staged.after.IdleTimeout? && staged.deferred.None? ==> StopsWith(t) == Some(Failed(Timeout)))
            && (staged.after.Validate? && staged.deferred.None? ==> StopsWith(t).Some? && t.yielded == s.yielded)
            && (staged.after.ResumeItem? && staged.deferred.None? ==> t.phase.Streaming? || t.phase.Draining?)
  {
  }

  /** Of the signals that fail while a frame waits, the first is remembered. */
  lemma FirstFailureIsKept(s: State, control: Control)
    requires Emitting(s)
    ensures var before, after := s.phase.staged.value, EmitControl(s, control).phase.staged.value;
            && after.frame == before.frame && after.after == before.after
            && (before.deferred.Some? ==> after.deferred == before.deferred)
            && (before.deferred.None? && control.Released? ==> after.deferred == Some(RunFailed(ChannelClosed)))
            && (before.deferred.None? && control.Limit? ==>
                  (after.deferred == Some(RunFailed(ExceededTotalSize))
                   <==> s.total.Some? && control.total >= s.total.value)
                  && (after.deferred.Some? ==> after.deferred == Some(RunFailed(ExceededTotalSize))))
            && (after.controlOpen <==> before.controlOpen && control.Limit?)
  {
  }
}
