/**
 What every run of a runner keeps, whatever its stream, its signals, its timers and its consumers do:
 the pushed bytes are the stream's own, in order; the limit holds; the lifecycle is told once, in
 order and without blocking; and a reported success is true.
 */
module RunnerLaws {
  import opened Wrappers
  import opened Runner

  // ----- Frames and the bytes they carry

  function Flat(frames: seq<seq<Byte>>): seq<Byte> {
    if frames == [] then [] else Flat(frames[..|frames| - 1]) + frames[|frames| - 1]
  }

  lemma FlatSnoc(frames: seq<seq<Byte>>, frame: seq<Byte>)
    ensures Flat(frames + [frame]) == Flat(frames) + frame
  {
    assert (frames + [frame])[..|frames|] == frames;
  }

  /** The frames taken so far carry a prefix of all bytes sent; the next frame carries what follows. */
  lemma {:induction false} FlatPrefix(frames: seq<seq<Byte>>, taken: nat)
    requires taken <= |frames|
    ensures Flat(frames[..taken]) <= Flat(frames)
    ensures taken < |frames| ==>
              && Flat(frames[..taken + 1]) == Flat(frames[..taken]) + frames[taken]
              && Flat(frames[..taken + 1]) <= Flat(frames)
    decreases |frames| - taken
  {
    if taken == |frames| {
      assert frames[..taken] == frames;
    } else {
      assert frames[..taken + 1] == frames[..taken] + [frames[taken]];
      FlatSnoc(frames[..taken], frames[taken]);
      FlatPrefix(frames, taken + 1);
    }
  }

  // ----- The invariant

  /** Pushed or waiting to be pushed. */
  function Count(s: State): nat {
    s.downloaded + if s.phase.Streaming? then |Waiting(s)| else 0
  }

  function Waiting(s: State): seq<Byte>
    requires s.phase.Streaming?
  {
    (if s.phase.staged.Some? then s.phase.staged.value.frame else []) + s.phase.buffer
  }

  function Rest(s: State): seq<Byte>
    requires s.phase.Streaming? && (s.phase.item.Some? ==> s.phase.item.value.offset <= |s.phase.item.value.bytes|)
  {
    if s.phase.item.Some? then s.phase.item.value.bytes[s.phase.item.value.offset..] else []
  }

  /** The channels carry what was pushed, in frames of 1 to `BUFFER_SIZE` bytes. */
  ghost predicate ChannelsOk(s: State) {
    && s.data.Valid(DATA_CAPACITY)
    && s.lifecycle.Valid(LIFECYCLE_CAPACITY)
    && s.downloaded == |s.pushed|
    && s.pushed == Flat(s.data.sent)
    && (forall i | 0 <= i < |s.data.sent| :: 0 < |s.data.sent[i]| <= BUFFER_SIZE)
  }

  /** Not yet stopped, and nothing was pushed before `Started`. */
  ghost predicate Unstopped(s: State) {
    && s.dataHeld
    && s.pushed <= s.yielded
    && (s.lifecycle.sent == [Started] || (s.lifecycle.sent == [] && s.pushed == []))
  }

  ghost predicate SizeMet(s: State) {
    match s.total
    case Some(total) => s.downloaded == total
    case None => s.downloaded > 0
  }

  ghost predicate Exceeded(s: State) {
    s.refused || (s.total.Some? && s.downloaded > s.total.value)
  }

  ghost predicate ConsumerDone(s: State) { !s.data.open || s.data.IsEmpty() }

  /** A reason the runner may give for stopping. */
  ghost predicate Truthful(s: State, reason: StoppedReason) {
    && (reason == Finished ==> SizeMet(s) && ConsumerDone(s))
    && (reason == Failed(ExceededTotalSize) ==> Exceeded(s) && ConsumerDone(s))
    && (reason.Failed? && reason.error.StreamError? ==> ConsumerDone(s))
  }

  ghost predicate Justified(s: State, result: RunResult) {
    && (result.Ok? ==> SizeMet(s))
    && (result == Err(RunFailed(ExceededTotalSize)) ==> Exceeded(s))
  }

  /** Between polls an item is only held back while a full buffer, or the last one, is being emitted. */
  ghost predicate StreamingOk(s: State)
    requires s.phase.Streaming?
  {
    && s.input == Connected
    && s.lifecycle.sent == [Started]
    && s.dataHeld
    && |s.phase.buffer| <= BUFFER_SIZE
    && (match s.phase.staged
        case None => s.phase.item.None? && s.pushed + s.phase.buffer == s.yielded
        case Some(staged) =>
          && s.phase.buffer == []
          && 0 < |staged.frame| <= BUFFER_SIZE
          && (staged.deferred == Some(RunFailed(ExceededTotalSize)) ==> s.refused)
          && (match staged.after
              case ResumeItem =>
                && |staged.frame| == BUFFER_SIZE
                && s.phase.item.Some?
                && s.phase.item.value.offset < |s.phase.item.value.bytes|
                && s.pushed + staged.frame + Rest(s) == s.yielded
              case Validate => s.pushed + staged.frame <= s.yielded
              case _ => s.pushed + staged.frame == s.yielded))
  }

  ghost predicate LifecycleDone(s: State) {
    || !s.lifecycle.open
    || (exists r :: s.lifecycle.sent == [Stopped(r)] && s.pushed == [] && Truthful(s, r))
    || (exists r :: s.lifecycle.sent == [Started, Stopped(r)] && Truthful(s, r))
  }

  ghost predicate PhaseOk(s: State) {
    match s.phase
    case Connecting => s.input == Connector && s.lifecycle.sent == [] && s.yielded == [] && Unstopped(s)
    case PublishingStarted => s.input == Connected && s.lifecycle.sent == [] && s.yielded == [] && Unstopped(s)
    case Streaming(_, _, _) => StreamingOk(s)
    case Draining(result) => Unstopped(s) && Justified(s, result) && !s.input.Connector?
    case PublishingStopped(event) =>
      Unstopped(s) && event.Stopped? && Truthful(s, event.reason) && !s.input.Connector?
    case Done =>
      && !s.dataHeld && !s.input.Connector?
      && s.pushed <= s.yielded
      && |s.lifecycle.sent| <= 2
      && LifecycleDone(s)
  }

  ghost predicate Inv(s: State) { ChannelsOk(s) && PhaseOk(s) }

  lemma SpawnedInv(total: nat)
    ensures Inv(Spawned(total))
  {
  }

  // ----- The limit

  /** The allowance is the most that may still be buffered: more bytes fit below the limit exactly if it allows them. */
  lemma AllowanceIsExact(s: State, buffered: nat, n: nat)
    requires s.total.Some? && n > 0
    ensures n <= Allowance(s, buffered) <==> s.downloaded + buffered + n <= s.total.value
  {
  }

  /** The size check passes exactly the sizes a reported success promises, and tells too much from too little. */
  lemma SizeCheckIff(s: State)
    ensures ValidateSize(s).Ok? <==> SizeMet(s)
    ensures ValidateSize(s) == Err(RunFailed(ExceededTotalSize)) <==> s.total.Some? && s.downloaded > s.total.value
    ensures ValidateSize(s) == Err(RunFailed(SmallerThanTotalSize)) <==> s.total.Some? && s.downloaded < s.total.value
    ensures ValidateSize(s) == Err(RunFailed(Empty)) <==> s.total.None? && s.downloaded == 0
  {
  }

  // ----- Steps keep it

  lemma StopKeepsInv(s: State, result: RunResult)
    requires ChannelsOk(s) && Unstopped(s) && Justified(s, result) && (s.input.Connector? ==> s.phase.Connecting?)
    ensures Inv(BeginStop(s, result))
  {
  }

  lemma ConcludeKeepsInv(s: State, after: Continuation, deferred: Option<RunError>)
    requires ChannelsOk(s) && Unstopped(s) && !s.input.Connector?
    requires deferred == Some(RunFailed(ExceededTotalSize)) ==> s.refused
    ensures Inv(Conclude(s, after, deferred))
  {
    StopKeepsInv(s, if after.UpstreamError? then Err(RunFailed(StreamError(after.source)))
                    else if deferred.Some? then Err(deferred.value)
                    else if after.IdleTimeout? then Err(RunFailed(Timeout))
                    else ValidateSize(s));
  }

  lemma FlushKeepsInv(s: State, after: Continuation)
    requires Inv(s) && Reading(s) && !after.ResumeItem?
    ensures Inv(FlushAndConclude(s, after))
  {
    if s.phase.buffer == [] {
      ConcludeKeepsInv(s, after, None);
    }
  }

  /** The state in which an item is buffered: everything before it was pushed or buffered. */
  ghost predicate ReadyToBuffer(s: State) {
    && ChannelsOk(s)
    && s.phase.Streaming? && s.phase.staged.None? && s.phase.item.Some?
    && s.input == Connected && s.lifecycle.sent == [Started] && s.dataHeld
    && |s.phase.buffer| <= BUFFER_SIZE
    && s.phase.item.value.offset <= |s.phase.item.value.bytes|
    && s.pushed + s.phase.buffer + Rest(s) == s.yielded
  }

  /** Staging `frame` and keeping `left` of the item back. */
  lemma StageKeepsInv(s: State, frame: seq<Byte>, left: Option<Cursor>)
    requires ReadyToBuffer(s) && 0 < |frame| <= BUFFER_SIZE
    requires s.pushed + frame <= s.yielded
    ensures Inv(Stage(s, frame, left, Validate))
  {
  }

  lemma StageFullKeepsInv(s: State, frame: seq<Byte>, left: Cursor)
    requires ReadyToBuffer(s) && |frame| == BUFFER_SIZE && left.offset < |left.bytes|
    requires s.pushed + frame + left.bytes[left.offset..] == s.yielded
    ensures Inv(Stage(s, frame, Some(left), ResumeItem))
  {
  }

  lemma Regrouped(a: seq<Byte>, b: seq<Byte>, c: seq<Byte>, n: nat)
    requires n <= |c|
    ensures a + (b + c[..n]) + c[n..] == a + b + c && a + (b + c[..n]) <= a + b + c
  {
    var head, tail := c[..n], c[n..];
    assert c == head + tail;
    assert a + b + (head + tail) == a + (b + head) + tail;
  }

  lemma BufferSplits(s: State, n: nat)
    requires ReadyToBuffer(s) && n <= |Rest(s)|
    ensures s.pushed + (s.phase.buffer + Rest(s)[..n]) + Rest(s)[n..] == s.yielded
    ensures s.pushed + (s.phase.buffer + Rest(s)[..n]) <= s.yielded
    ensures var item := s.phase.item.value; item.bytes[item.offset + n..] == Rest(s)[n..]
  {
    Regrouped(s.pushed, s.phase.buffer, Rest(s), n);
  }

  lemma AbsorbKeepsInv(s: State)
    requires ReadyToBuffer(s) && |s.phase.buffer| + |Rest(s)| <= BUFFER_SIZE
    ensures Inv(s.(phase := Streaming(s.phase.buffer + Rest(s), None, None)))
  {
    assert s.pushed + s.phase.buffer + Rest(s) == s.pushed + (s.phase.buffer + Rest(s));
  }

  lemma LimitReachedKeepsInv(s: State)
    requires ReadyToBuffer(s)
    ensures Inv(FlushAndConclude(s, Validate))
  {
    BufferSplits(s, 0);
    assert s.phase.buffer + Rest(s)[..0] == s.phase.buffer;
    if s.phase.buffer == [] {
      ConcludeKeepsInv(s, Validate, None);
    } else {
      StageKeepsInv(s, s.phase.buffer, s.phase.item);
    }
  }

  lemma LastPartKeepsInv(s: State, n: nat)
    requires ReadyToBuffer(s) && 0 < n <= |Rest(s)| && |s.phase.buffer| + n <= BUFFER_SIZE
    ensures Inv(Stage(s, s.phase.buffer + Rest(s)[..n], s.phase.item, Validate))
  {
    BufferSplits(s, n);
    StageKeepsInv(s, s.phase.buffer + Rest(s)[..n], s.phase.item);
  }

  lemma FullBufferKeepsInv(s: State, take: nat, frame: seq<Byte>, left: Cursor)
    requires ReadyToBuffer(s) && take == BUFFER_SIZE - |s.phase.buffer| && take < |Rest(s)|
    requires frame == s.phase.buffer + Rest(s)[..take]
    requires var item := s.phase.item.value; left == Cursor(item.bytes, item.offset + take)
    ensures Inv(Stage(s, frame, Some(left), ResumeItem))
  {
    BufferSplits(s, take);
    assert left.bytes[left.offset..] == Rest(s)[take..];
    assert |frame| == BUFFER_SIZE && left.offset < |left.bytes|;
    StageFullKeepsInv(s, frame, left);
  }

  /** How much of the item may be taken: all of it, or what the limit allows. */
  function Writable(s: State): nat
    requires s.phase.Streaming? && s.phase.item.Some? && s.phase.item.value.offset <= |s.phase.item.value.bytes|
  {
    var allowed := Allowance(s, |s.phase.buffer|);
    if |Rest(s)| < allowed then |Rest(s)| else allowed
  }

  lemma FittingKeepsInv(s: State)
    requires ReadyToBuffer(s) && Rest(s) != [] && 0 < Writable(s) && |s.phase.buffer| + Writable(s) <= BUFFER_SIZE
    ensures Inv(BufferItem(s))
  {
    if Writable(s) == Allowance(s, |s.phase.buffer|) {
      LastPartKeepsInv(s, Writable(s));
      assert BufferItem(s) == Stage(s, s.phase.buffer + Rest(s)[..Writable(s)], s.phase.item, Validate);
    } else {
      AbsorbKeepsInv(s);
      assert BufferItem(s) == s.(phase := Streaming(s.phase.buffer + Rest(s), None, None));
    }
  }

  lemma OverfullKeepsInv(s: State)
    requires ReadyToBuffer(s) && Rest(s) != [] && 0 < Writable(s) && |s.phase.buffer| + Writable(s) > BUFFER_SIZE
    ensures Inv(BufferItem(s))
  {
    var item, take := s.phase.item.value, BUFFER_SIZE - |s.phase.buffer|;
    var frame, left := s.phase.buffer + Rest(s)[..take], Cursor(item.bytes, item.offset + take);
    FullBufferKeepsInv(s, take, frame, left);
    assert BufferItem(s) == Stage(s, frame, Some(left), ResumeItem);
  }

  lemma EmptyItemKeepsInv(s: State)
    requires ReadyToBuffer(s) && Rest(s) == []
    ensures Inv(s.(phase := s.phase.(item := None)))
  {
    AbsorbKeepsInv(s);
    assert s.phase.buffer + Rest(s) == s.phase.buffer;
  }

  lemma BufferItemKeepsInv(s: State)
    requires ReadyToBuffer(s)
    ensures Inv(BufferItem(s))
  {
    if Allowance(s, |s.phase.buffer|) == 0 {
      LimitReachedKeepsInv(s);
    } else if Rest(s) == [] {
      EmptyItemKeepsInv(s);
    } else if |s.phase.buffer| + Writable(s) <= BUFFER_SIZE {
      FittingKeepsInv(s);
    } else {
      OverfullKeepsInv(s);
    }
  }

  lemma ItemKeepsInv(s: State, bytes: seq<Byte>)
    requires Inv(s) && Reading(s)
    ensures Inv(OnItem(s, bytes))
  {
    var t := s.(phase := s.phase.(item := Some(Cursor(bytes, 0))), yielded := s.yielded + bytes);
    assert Rest(t) == bytes;
    BufferItemKeepsInv(t);
  }

  lemma PushFrameOk(s: State)
    requires Inv(s) && Emitting(s) && s.data.HasRoom(DATA_CAPACITY)
    ensures ChannelsOk(PushFrame(s))
  {
    FlatSnoc(s.data.sent, s.phase.staged.value.frame);
  }

  /** The state after a push in which its item is resumed. */
  lemma ResumedIsReady(s: State, unstaged: State)
    requires Inv(s) && Emitting(s) && s.phase.staged.value.after.ResumeItem? && s.data.HasRoom(DATA_CAPACITY)
    requires unstaged == PushFrame(s).(phase := s.phase.(staged := None))
    ensures ReadyToBuffer(unstaged) && Unstopped(unstaged)
  {
    PushFrameOk(s);
    assert unstaged.phase.buffer == [] && unstaged.pushed + unstaged.phase.buffer == unstaged.pushed;
  }

  lemma ConcludedKeepsInv(s: State, unstaged: State)
    requires Inv(s) && Emitting(s) && !s.phase.staged.value.after.ResumeItem? && s.data.HasRoom(DATA_CAPACITY)
    requires unstaged == PushFrame(s).(phase := s.phase.(staged := None))
    ensures Inv(Conclude(unstaged, s.phase.staged.value.after, s.phase.staged.value.deferred))
  {
    PushFrameOk(s);
    ConcludeKeepsInv(unstaged, s.phase.staged.value.after, s.phase.staged.value.deferred);
  }

  lemma PushKeepsInv(s: State)
    requires Inv(s) && Emitting(s) && Enabled(s, PushStaged)
    ensures Inv(Next(s, PushStaged))
  {
    var staged := s.phase.staged.value;
    if !s.data.open {
      StopKeepsInv(s.(phase := s.phase.(staged := None)), Err(RunFailed(ChannelClosed)));
    } else {
      var unstaged := PushFrame(s).(phase := s.phase.(staged := None));
      if !staged.after.ResumeItem? {
        ConcludedKeepsInv(s, unstaged);
      } else {
        ResumedIsReady(s, unstaged);
        if staged.deferred.None? {
          BufferItemKeepsInv(unstaged);
        } else {
          StopKeepsInv(unstaged, Err(staged.deferred.value));
        }
      }
    }
  }

  lemma AppliedKeepsInv(s: State, limit: nat)
    requires Inv(s) && Emitting(s)
    ensures Inv(ApplyLimit(s, limit).0)
  {
  }

  /** Noting a failure changes nothing of the frame that waits. */
  lemma NotedKeepsInv(s: State, staged: Staged)
    requires Inv(s) && Emitting(s)
    requires staged.frame == s.phase.staged.value.frame && staged.after == s.phase.staged.value.after
    requires staged.deferred == Some(RunFailed(ExceededTotalSize)) ==> s.refused
    ensures Inv(s.(phase := s.phase.(staged := Some(staged))))
  {
  }

  lemma EmitControlNotes(s: State, control: Control, applied: State, noted: State)
    requires Emitting(s) && noted == EmitControl(s, control)
    requires applied == if control.Limit? then ApplyLimit(s, control.total).0 else s
    requires s.phase.staged.value.deferred == Some(RunFailed(ExceededTotalSize)) ==> s.refused
    ensures Emitting(applied) && Emitting(noted)
    ensures noted == applied.(phase := applied.phase.(staged := noted.phase.staged))
    ensures var staged, more := applied.phase.staged.value, noted.phase.staged.value;
            && more.frame == staged.frame && more.after == staged.after
            && (more.deferred == Some(RunFailed(ExceededTotalSize)) ==> applied.refused)
  {
  }

  lemma EmitControlKeepsInv(s: State, control: Control)
    requires Inv(s) && Emitting(s)
    ensures Inv(EmitControl(s, control))
  {
    var applied, noted := if control.Limit? then ApplyLimit(s, control.total).0 else s, EmitControl(s, control);
    EmitControlNotes(s, control, applied, noted);
    if control.Limit? {
      AppliedKeepsInv(s, control.total);
    }
    NotedKeepsInv(applied, noted.phase.staged.value);
  }

  lemma SignalKeepsInv(s: State, control: Control)
    requires Inv(s) && Enabled(s, Signal(control)) && CanResume(s)
    ensures Inv(Next(s, Signal(control)))
  {
    if Emitting(s) {
      EmitControlKeepsInv(s, control);
    } else {
      assert s.phase.Streaming? ==> s.pushed <= s.pushed + s.phase.buffer;
      match control
      case Released => StopKeepsInv(s, Err(RunFailed(ChannelClosed)));
      case Limit(limit) =>
        var (applied, result) := ApplyLimit(s, limit);
        if result.Err? {
          StopKeepsInv(applied, Err(result.error));
        }
    }
  }

  lemma CancelKeepsInv(s: State)
    requires Inv(s) && Enabled(s, Cancel) && CanResume(s)
    ensures Inv(Next(s, Cancel))
  {
    if s.phase.Streaming? {
      assert s.pushed <= s.yielded;
    }
  }

  lemma FinishDrainKeepsInv(s: State, outcome: DrainOutcome)
    requires Inv(s) && Enabled(s, FinishDrain(outcome)) && CanResume(s)
    ensures Inv(Next(s, FinishDrain(outcome)))
  {
  }

  lemma PublishStoppedKeepsInv(s: State)
    requires Inv(s) && Enabled(s, PublishStopped) && CanResume(s)
    ensures Inv(Next(s, PublishStopped))
  {
    var t := Next(s, PublishStopped);
    if s.lifecycle.open {
      var r := s.phase.event.reason;
      assert t.lifecycle.sent == [Stopped(r)] || t.lifecycle.sent == [Started, Stopped(r)];
      assert Truthful(t, r);
    }
  }

  /** Nothing the runner resumes is ever missing. */
  lemma InvCanResume(s: State)
    requires Inv(s)
    ensures CanResume(s)
  {
  }

  lemma NextKeepsInv(s: State, a: Action)
    requires Inv(s) && Enabled(s, a) && CanResume(s)
    ensures Inv(Next(s, a))
  {
    match a
    case ConnectSucceeds =>
    case ConnectFails(source) => StopKeepsInv(s, Err(RunFailed(StreamError(source))));
    case ConnectExpires => StopKeepsInv(s, Err(RunFailed(Timeout)));
    case PublishStarted =>
    case Cancel => CancelKeepsInv(s);
    case Signal(control) => SignalKeepsInv(s, control);
    case IdleExpires => FlushKeepsInv(s, IdleTimeout);
    case ItemArrives(bytes) => ItemKeepsInv(s, bytes);
    case StreamEnds => FlushKeepsInv(s, Validate);
    case StreamFails(source) => FlushKeepsInv(s, UpstreamError(source));
    case PushStaged => PushKeepsInv(s);
    case FinishDrain(outcome) => FinishDrainKeepsInv(s, outcome);
    case PublishStopped => PublishStoppedKeepsInv(s);
  }

  lemma ConsumeKeepsInv(s: State, t: State)
    requires Inv(s) && Consumes(s, t)
    ensures Inv(t)
  {
    if s.phase.Done? && t.lifecycle.open {
      if r :| s.lifecycle.sent == [Stopped(r)] && s.pushed == [] && Truthful(s, r) {
        assert Truthful(t, r);
      } else {
        var r :| s.lifecycle.sent == [Started, Stopped(r)] && Truthful(s, r);
        assert Truthful(t, r);
      }
    }
  }
}
