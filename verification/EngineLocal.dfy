/**
 The views of one chunk agree: what the planner allocated and accepted, what the mailbox holds, and
 what the runner was told, has pushed and has reported.
 */
module EngineLocal {
  import opened Wrappers
  import opened Numbers
  import opened Planner
  import opened Manager
  import opened Engine
  import Runner
  import opened RunnerLaws

  /** The bytes of the frames the manager took so far. */
  function Received(p: Proc): nat
    requires p.loop.data.taken <= |p.loop.data.sent|
  {
    |Flat(p.loop.data.sent[..p.loop.data.taken])|
  }

  ghost predicate StrictlyDecreasing(limits: seq<nat>) {
    forall i, j | 0 <= i < j < |limits| :: limits[i] > limits[j]
  }

  /**
   The limits strictly decrease to the chunk's length; the newest is either still unread, and then
   lower than the runner's own, or it is the runner's own.
   */
  ghost predicate LimitsAgree(c: ChunkState, box: Mailbox, p: Proc) {
    && p.limits != [] && p.limits[0] == p.size && StrictlyDecreasing(p.limits)
    && p.limits[|p.limits| - 1] == c.span.Len()
    && p.loop.total.Some? && !p.loop.refused
    && (box.unread.None? ==> p.loop.total.value == c.span.Len())
    && (box.unread.Some? ==> box.unread.value == c.span.Len() < p.loop.total.value)
    && box.receiver == p.alive
  }

  /** The stream yielded the source's bytes as far as its range goes. */
  ghost predicate YieldedOk(source: seq<Byte>, p: Proc) {
    && p.start + p.size <= |source|
    && forall i | 0 <= i < |p.loop.yielded| && i < p.size :: p.loop.yielded[i] == source[p.start + i]
  }

  /** What the manager has seen of the runner's lifecycle, and where its data end is kept. */
  ghost predicate LifecycleAgrees(c: ChunkState, p: Proc, connecting: bool, streaming: bool) {
    && p.loop.data.open && p.loop.lifecycle.open
    && p.loop.lifecycle.taken <= 1
    && (p.loop.lifecycle.taken == 0 ==> c.status == Pending && connecting && !streaming && p.loop.data.taken == 0)
    && (p.loop.lifecycle.taken == 1 ==>
          && p.loop.lifecycle.sent != [] && p.loop.lifecycle.sent[0] == Runner.Started
          && !connecting
          && (c.status == Running || (c.status == Finished && c.IsComplete()))
          && (!streaming ==> p.loop.data.IsEmpty() && (!p.alive || !p.loop.dataHeld)))
  }

  ghost predicate ProcOk(source: seq<Byte>, c: ChunkState, box: Mailbox, p: Proc, connecting: bool, streaming: bool) {
    && RunnerLaws.Inv(p.loop)
    && c.span.start == p.start < c.span.end
    && c.downloaded == Range(p.start, p.start + Min(Received(p), c.span.Len()))
    && LimitsAgree(c, box, p)
    && LifecycleAgrees(c, p, connecting, streaming)
    && YieldedOk(source, p)
  }

  // ----- A new runner

  lemma NewProcOk(source: seq<Byte>, range: Range, r: RunnerId)
    requires range.start < range.end <= |source|
    ensures ProcOk(source, NewChunk(range, Some(r), Pending), Mailbox(None, true), NewProc(range), true, false)
  {
    SpawnedInv(range.end - range.start);
  }

  // ----- The runner acts

  /** Only the phase, the input and nothing the manager can see differ. */
  ghost predicate OnlyPhase(s: Runner.State, t: Runner.State) {
    t == s.(phase := t.phase, input := t.input)
  }

  lemma ConcludeOnlyPhase(s: Runner.State, after: Runner.Continuation, deferred: Option<Runner.RunError>)
    ensures OnlyPhase(s, Runner.Conclude(s, after, deferred))
  {
  }

  lemma BufferOnlyPhase(s: Runner.State)
    requires s.phase.Streaming? && s.phase.item.Some? && s.phase.item.value.offset <= |s.phase.item.value.bytes|
    ensures OnlyPhase(s, Runner.BufferItem(s))
  {
    ConcludeOnlyPhase(s, Runner.Validate, None);
  }

  lemma EmittedOnlyPhase(s: Runner.State, result: Runner.EmitResult)
    requires Runner.Emitting(s) && Runner.CanResume(s)
    ensures OnlyPhase(s, Runner.OnEmitted(s, result))
  {
    var unstaged := s.(phase := s.phase.(staged := None));
    if result.Ok? {
      if s.phase.staged.value.after.ResumeItem? {
        if result.value.None? {
          BufferOnlyPhase(unstaged);
        }
      } else {
        ConcludeOnlyPhase(unstaged, s.phase.staged.value.after, result.value);
      }
    }
  }

  /** What of an action the rest of the system can see. */
  ghost predicate Seen(s: Runner.State, a: Runner.Action, t: Runner.State) {
    && t.data.taken == s.data.taken && t.data.open == s.data.open && s.data.sent <= t.data.sent
    && t.lifecycle.taken == s.lifecycle.taken && t.lifecycle.open == s.lifecycle.open
    && s.lifecycle.sent <= t.lifecycle.sent
    && t.yielded == s.yielded + (if a.ItemArrives? then a.bytes else [])
    && (!a.Signal? ==> t.total == s.total && t.refused == s.refused)
  }

  lemma ActIsSeen(s: Runner.State, a: Runner.Action)
    requires Runner.Enabled(s, a) && Runner.CanResume(s)
    ensures Seen(s, a, Runner.Next(s, a))
  {
    match a
    case ItemArrives(bytes) =>
      BufferOnlyPhase(s.(phase := s.phase.(item := Some(Runner.Cursor(bytes, 0))), yielded := s.yielded + bytes));
    case PushStaged =>
      if s.dataHeld && s.data.open {
        EmittedOnlyPhase(Runner.PushFrame(s), Ok(s.phase.staged.value.deferred));
      } else {
        EmittedOnlyPhase(s, Err(Runner.RunFailed(Runner.ChannelClosed)));
      }
    case IdleExpires => ConcludeOnlyPhase(s, Runner.IdleTimeout, None);
    case StreamEnds => ConcludeOnlyPhase(s, Runner.Validate, None);
    case StreamFails(source) => ConcludeOnlyPhase(s, Runner.UpstreamError(source), None);
    case _ =>
  }

  /** A lower limit is applied and not refused. */
  lemma LowerLimitApplies(s: Runner.State, limit: nat)
    requires Runner.Enabled(s, Runner.Signal(Runner.Limit(limit))) && Runner.CanResume(s)
    requires s.total.Some? && limit < s.total.value
    ensures var t := Runner.Next(s, Runner.Signal(Runner.Limit(limit)));
            t.total == Some(limit) && t.refused == s.refused
  {
  }

  /** A runner that gave up its data end is done. */
  lemma DoneIsIdle(s: Runner.State, a: Runner.Action)
    requires RunnerLaws.Inv(s) && !s.dataHeld
    ensures !Runner.Enabled(s, a)
  {
  }

  lemma ActReceives(p: Proc, loop: Runner.State)
    requires p.loop.data.taken <= |p.loop.data.sent|
    requires loop.data.taken == p.loop.data.taken && p.loop.data.sent <= loop.data.sent
    ensures Received(p.(loop := loop)) == Received(p)
  {
    assert loop.data.sent[..loop.data.taken] == p.loop.data.sent[..p.loop.data.taken];
  }

  lemma ActKeepsLimits(c: ChunkState, box: Mailbox, p: Proc, a: Runner.Action)
    requires LimitsAgree(c, box, p)
    requires Runner.Enabled(p.loop, a) && Runner.CanResume(p.loop) && (a.Signal? ==> SignalAvailable(box, a.control))
    ensures LimitsAgree(c, ActBox(box, a), p.(loop := Runner.Next(p.loop, a)))
  {
    ActIsSeen(p.loop, a);
    if a.Signal? {
      LowerLimitApplies(p.loop, a.control.total);
    }
  }

  lemma ActKeepsYielded(source: seq<Byte>, p: Proc, a: Runner.Action, loop: Runner.State)
    requires YieldedOk(source, p) && Seen(p.loop, a, loop)
    requires a.ItemArrives? ==> Faithful(source, p, a.bytes)
    ensures YieldedOk(source, p.(loop := loop))
  {
    forall i | 0 <= i < |loop.yielded| && i < p.size ensures loop.yielded[i] == source[p.start + i] {
      if i >= |p.loop.yielded| {
        assert loop.yielded[i] == a.bytes[i - |p.loop.yielded|];
      }
    }
  }

  lemma ActKeepsLifecycle(c: ChunkState, p: Proc, connecting: bool, streaming: bool, a: Runner.Action,
      loop: Runner.State)
    requires RunnerLaws.Inv(p.loop) && p.alive && Runner.Enabled(p.loop, a)
    requires LifecycleAgrees(c, p, connecting, streaming) && Seen(p.loop, a, loop)
    ensures LifecycleAgrees(c, p.(loop := loop), connecting, streaming)
  {
    if !p.loop.dataHeld {
      DoneIsIdle(p.loop, a);
    }
  }

  lemma ActKeepsProc(source: seq<Byte>, c: ChunkState, box: Mailbox, p: Proc, connecting: bool, streaming: bool,
      a: Runner.Action)
    requires ProcOk(source, c, box, p, connecting, streaming) && CanAct(source, box, p, a)
    ensures ProcOk(source, c, ActBox(box, a), p.(loop := Runner.Next(p.loop, a)), connecting, streaming)
  {
    var loop := Runner.Next(p.loop, a);
    ActIsSeen(p.loop, a);
    ActKeepsParts(source, c, box, p, connecting, streaming, a);
    NextKeepsInv(p.loop, a);
    ActReceives(p, loop);
  }

  lemma ActKeepsParts(source: seq<Byte>, c: ChunkState, box: Mailbox, p: Proc, connecting: bool, streaming: bool,
      a: Runner.Action)
    requires RunnerLaws.Inv(p.loop) && LimitsAgree(c, box, p) && YieldedOk(source, p)
    requires LifecycleAgrees(c, p, connecting, streaming) && CanAct(source, box, p, a)
    ensures var q := p.(loop := Runner.Next(p.loop, a));
            LimitsAgree(c, ActBox(box, a), q) && YieldedOk(source, q) && LifecycleAgrees(c, q, connecting, streaming)
  {
    var loop := Runner.Next(p.loop, a);
    ActIsSeen(p.loop, a);
    ActKeepsLimits(c, box, p, a);
    ActKeepsYielded(source, p, a, loop);
    ActKeepsLifecycle(c, p, connecting, streaming, a, loop);
  }

  lemma DeathKeepsProc(source: seq<Byte>, c: ChunkState, box: Mailbox, p: Proc, connecting: bool, streaming: bool)
    requires ProcOk(source, c, box, p, connecting, streaming)
    ensures ProcOk(source, c, box.(receiver := false), p.(alive := false), connecting, streaming)
  {
  }

  // ----- The manager shrinks the chunk

  lemma ShrinkKeepsProc(source: seq<Byte>, c: ChunkState, box: Mailbox, p: Proc, connecting: bool, streaming: bool,
      newEnd: nat)
    requires ProcOk(source, c, box, p, connecting, streaming)
    requires c.span.start < newEnd < c.span.end && c.downloaded.end <= newEnd && p.alive
    ensures var limit := newEnd - c.span.start;
            ProcOk(source, c.(span := Range(c.span.start, newEnd)), Mailbox(Some(limit), true),
                   p.(limits := p.limits + [limit]), connecting, streaming)
  {
  }

  // ----- The manager takes an event or a frame

  lemma StartedKeepsProc(source: seq<Byte>, c: ChunkState, box: Mailbox, p: Proc, connecting: bool, streaming: bool)
    requires ProcOk(source, c, box, p, connecting, streaming)
    requires p.loop.lifecycle.taken < |p.loop.lifecycle.sent|
             && p.loop.lifecycle.sent[p.loop.lifecycle.taken] == Runner.Started
    ensures connecting && c.status == Pending
    ensures ProcOk(source, c.(status := Running), box, TakeLifecycle(p), false, true)
  {
    var q := TakeLifecycle(p);
    SentEvents(p.loop);
    ConsumeKeepsInv(p.loop, q.loop);
  }

  /** What a runner's lifecycle channel may hold. */
  lemma SentEvents(s: Runner.State)
    requires RunnerLaws.Inv(s) && s.lifecycle.open
    ensures |s.lifecycle.sent| <= 2
    ensures |s.lifecycle.sent| == 2 ==> s.lifecycle.sent[0] == Runner.Started && s.lifecycle.sent[1].Stopped?
    ensures forall i | 0 <= i < |s.lifecycle.sent| && s.lifecycle.sent[i].Stopped? ::
              s.phase.Done? && Truthful(s, s.lifecycle.sent[i].reason) && (i == 0 ==> s.pushed == [])
  {
    if s.phase.Done? {
      if r :| s.lifecycle.sent == [Runner.Stopped(r)] && s.pushed == [] && Truthful(s, r) {
      } else {
        var r :| s.lifecycle.sent == [Runner.Started, Runner.Stopped(r)] && Truthful(s, r);
      }
    }
  }

  /** A runner that never started neither finished nor received too much. */
  lemma NoSuccessBeforeStart(source: seq<Byte>, c: ChunkState, box: Mailbox, p: Proc, connecting: bool, streaming: bool)
    requires ProcOk(source, c, box, p, connecting, streaming)
    requires p.loop.lifecycle.taken == 0 && p.loop.lifecycle.sent != [] && p.loop.lifecycle.sent[0].Stopped?
    ensures p.loop.lifecycle.sent[0].reason != Runner.Finished
    ensures p.loop.lifecycle.sent[0].reason != Runner.Failed(Runner.ExceededTotalSize)
  {
    SentEvents(p.loop);
    assert Truthful(p.loop, p.loop.lifecycle.sent[0].reason);
  }

  /** The runner's word is enough: a started runner that reports success has delivered its whole chunk. */
  lemma SuccessMeansComplete(source: seq<Byte>, c: ChunkState, box: Mailbox, p: Proc, connecting: bool, streaming: bool)
    requires ProcOk(source, c, box, p, connecting, streaming)
    requires p.loop.lifecycle.taken == 1 < |p.loop.lifecycle.sent|
    requires Runner.TellsSuccess(p.loop.lifecycle.sent[1])
    ensures c.IsComplete()
  {
    SentEvents(p.loop);
    var reason := p.loop.lifecycle.sent[1].reason;
    assert Truthful(p.loop, reason);
    assert p.loop.data.sent[..p.loop.data.taken] == p.loop.data.sent;
    assert Received(p) == |p.loop.pushed| == p.loop.downloaded;
  }

  /** Taking a frame accepts exactly the part of it that lies in the chunk, and it holds the source's bytes. */
  lemma FrameKeepsProc(source: seq<Byte>, c: ChunkState, box: Mailbox, p: Proc, connecting: bool, streaming: bool)
    requires ProcOk(source, c, box, p, connecting, streaming)
    requires streaming && p.loop.data.taken < |p.loop.data.sent|
    ensures var frame := p.loop.data.sent[p.loop.data.taken];
            ProcOk(source, AdvanceChunk(c, |frame|), box, TakeFrame(p), connecting, streaming)
  {
    var taken := p.loop.data.taken;
    FlatPrefix(p.loop.data.sent, taken);
    ConsumeKeepsInv(p.loop, TakeFrame(p).loop);
  }

  /** The taken frames carry the source's bytes as far as the range goes. */
  lemma TakenIsSource(source: seq<Byte>, p: Proc, i: nat)
    requires YieldedOk(source, p) && p.loop.pushed <= p.loop.yielded && p.loop.pushed == Flat(p.loop.data.sent)
    requires p.loop.data.taken < |p.loop.data.sent|
    requires i < |p.loop.data.sent[p.loop.data.taken]| && Received(p) + i < p.size
    ensures p.loop.data.sent[p.loop.data.taken][i] == source[p.start + Received(p) + i]
  {
    var taken := p.loop.data.taken;
    FlatPrefix(p.loop.data.sent, taken);
    var before, upto := Flat(p.loop.data.sent[..taken]), Flat(p.loop.data.sent[..taken + 1]);
    var at := |before| + i;
    assert upto[at] == p.loop.data.sent[taken][i];
    assert upto[at] == p.loop.pushed[at] == p.loop.yielded[at];
  }

  lemma FrameHoldsSource(source: seq<Byte>, c: ChunkState, box: Mailbox, p: Proc, connecting: bool, streaming: bool)
    requires ProcOk(source, c, box, p, connecting, streaming)
    requires p.loop.data.taken < |p.loop.data.sent|
    ensures var frame := p.loop.data.sent[p.loop.data.taken];
            var range := AcceptedRange(c, |frame|);
            && range.Len() <= |frame|
            && range.end <= |source|
            && Truncate(frame, range.Len()) == source[range.start..range.end]
  {
    var frame := p.loop.data.sent[p.loop.data.taken];
    var range := AcceptedRange(c, |frame|);
    PushedIsYielded(p.loop);
    LimitsBelowSize(c, box, p);
    forall i: nat | i < range.Len() ensures frame[i] == source[range.start + i] {
      TakenIsSource(source, p, i);
    }
    SliceIsSource(frame, source, range.start, range.Len());
  }

  lemma SliceIsSource(frame: seq<Byte>, source: seq<Byte>, start: nat, n: nat)
    requires n <= |frame| && start + n <= |source|
    requires forall i: nat | i < n :: frame[i] == source[start + i]
    ensures frame[..n] == source[start..start + n]
  {
  }

  lemma PushedIsYielded(s: Runner.State)
    requires RunnerLaws.Inv(s)
    ensures s.pushed <= s.yielded && s.pushed == Flat(s.data.sent)
  {
  }

  lemma LimitsBelowSize(c: ChunkState, box: Mailbox, p: Proc)
    requires LimitsAgree(c, box, p)
    ensures c.span.Len() <= p.size
  {
  }
}
