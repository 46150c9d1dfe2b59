/**
 Whole runs of a runner: any interleaving of its own actions with what the consumers of its
 channels do.
 */
module RunnerRuns {
  import opened Wrappers
  import opened Numbers
  import opened Runner
  import opened RunnerLaws

  ghost predicate Acts(s: State, a: Action, t: State) {
    Enabled(s, a) && CanResume(s) && t == Next(s, a)
  }

  ghost predicate Step(s: State, t: State) {
    (exists a :: Acts(s, a, t)) || Consumes(s, t)
  }

  /** A run from the start: connecting, or already given a stream. */
  ghost predicate Starts(s: State) {
    && ((s.phase.Connecting? && s.input == Connector) || (s.phase.PublishingStarted? && s.input == Connected))
    && s.downloaded == 0 && s.pushed == [] && s.yielded == [] && s.dataHeld && !s.refused
    && s.data.sent == [] && s.data.taken == 0 && s.lifecycle.sent == [] && s.lifecycle.taken == 0
  }

  ghost predicate IsRun(run: seq<State>) {
    && run != []
    && Starts(run[0])
    && forall i: nat | i + 1 < |run| :: StepAt(run, i)
  }

  ghost predicate StepAt(run: seq<State>, i: nat)
    requires i + 1 < |run|
  {
    Step(run[i], run[i + 1])
  }

  lemma StepKeepsInv(s: State, t: State)
    requires Inv(s) && Step(s, t)
    ensures Inv(t)
  {
    if a :| Acts(s, a, t) {
      NextKeepsInv(s, a);
    } else {
      ConsumeKeepsInv(s, t);
    }
  }

  lemma StartsInv(s: State)
    requires Starts(s)
    ensures Inv(s)
  {
  }

  lemma {:induction false} RunKeepsInv(run: seq<State>, i: nat)
    requires IsRun(run) && i < |run|
    ensures Inv(run[i])
  {
    if i == 0 {
      StartsInv(run[0]);
    } else {
      RunKeepsInv(run, i - 1);
      assert StepAt(run, i - 1);
      StepKeepsInv(run[i - 1], run[i]);
    }
  }

  // ----- Re-framing

  /** What is pushed is a prefix of the stream, in frames of 1 to 32 KiB, and is counted exactly. */
  lemma PushedIsAPrefix(run: seq<State>, i: nat)
    requires IsRun(run) && i < |run|
    ensures Flat(run[i].data.sent) <= run[i].yielded
    ensures forall k | 0 <= k < |run[i].data.sent| :: 1 <= |run[i].data.sent[k]| <= BUFFER_SIZE
    ensures run[i].downloaded == |Flat(run[i].data.sent)|
  {
    RunKeepsInv(run, i);
  }

  /** While reading, nothing yielded is missing: every byte was pushed or is buffered. */
  lemma NothingIsLostWhileReading(run: seq<State>, i: nat)
    requires IsRun(run) && i < |run| && Reading(run[i])
    ensures Flat(run[i].data.sent) + run[i].phase.buffer == run[i].yielded
  {
    RunKeepsInv(run, i);
  }

  /** A frame that is pushed while more of its item waits is full. */
  lemma FramesAreFull(run: seq<State>, i: nat)
    requires IsRun(run) && i < |run| && Emitting(run[i]) && run[i].phase.staged.value.after.ResumeItem?
    ensures |run[i].phase.staged.value.frame| == BUFFER_SIZE
  {
    RunKeepsInv(run, i);
  }

  /** Pushing a full buffer of a long item leaves strictly less of the item, until it is done. */
  lemma ItemShrinks(s: State)
    requires Inv(s) && Emitting(s) && Enabled(s, PushStaged) && s.phase.staged.value.after.ResumeItem?
    ensures var t := Next(s, PushStaged);
            Emitting(t) && t.phase.staged.value.after.ResumeItem? ==> |Rest(t)| < |Rest(s)|
  {
    PushKeepsInv(s);
  }

  // ----- The limit

  /** From `s` to `t` the limit is not raised and what counts towards it stays below it, or as it was. */
  ghost predicate Within(s: State, t: State) {
    s.total.Some? ==>
      t.total.Some? && t.total.value <= s.total.value && Count(t) <= Max(Count(s), s.total.value)
  }

  lemma WithinTransitive(s: State, t: State, u: State)
    requires Within(s, t) && Within(t, u)
    ensures Within(s, u)
  {
  }

  lemma BufferItemWithin(s: State)
    requires s.phase.Streaming? && s.phase.item.Some? && s.phase.item.value.offset <= |s.phase.item.value.bytes|
    requires s.phase.staged.None? && |s.phase.buffer| <= BUFFER_SIZE
    ensures Within(s, BufferItem(s))
  {
  }

  lemma ConcludeWithin(s: State, after: Continuation, deferred: Option<RunError>)
    ensures Within(s, Conclude(s, after, deferred))
  {
  }

  lemma PushWithin(s: State)
    requires Inv(s) && Emitting(s) && Enabled(s, PushStaged)
    ensures Within(s, Next(s, PushStaged))
  {
    if s.data.open {
      var p, staged := PushFrame(s), s.phase.staged.value;
      var unstaged := p.(phase := p.phase.(staged := None));
      assert Count(unstaged) == Count(s) && unstaged.total == s.total;
      if staged.after.ResumeItem? {
        if staged.deferred.None? {
          BufferItemWithin(unstaged);
        }
      } else {
        ConcludeWithin(unstaged, staged.after, staged.deferred);
      }
    }
  }

  lemma ItemWithin(s: State, bytes: seq<Byte>)
    requires Inv(s) && Reading(s)
    ensures Within(s, OnItem(s, bytes))
  {
    BufferItemWithin(s.(phase := s.phase.(item := Some(Cursor(bytes, 0))), yielded := s.yielded + bytes));
  }

  lemma ActWithin(s: State, a: Action)
    requires Inv(s) && Enabled(s, a) && CanResume(s)
    ensures Within(s, Next(s, a))
  {
    if a.PushStaged? {
      PushWithin(s);
    } else if a.ItemArrives? {
      ItemWithin(s, a.bytes);
    } else if a.IdleExpires? || a.StreamEnds? || a.StreamFails? {
      FlushWithin(s, if a.IdleExpires? then IdleTimeout
                     else if a.StreamEnds? then Validate
                     else UpstreamError(a.source));
    }
  }

  lemma FlushWithin(s: State, after: Continuation)
    requires Inv(s) && Reading(s)
    ensures Within(s, FlushAndConclude(s, after))
  {
    ConcludeWithin(s, after, None);
  }

  lemma StepWithin(s: State, t: State)
    requires Inv(s) && Step(s, t)
    ensures Within(s, t)
  {
    if a :| Acts(s, a, t) {
      ActWithin(s, a);
    }
  }

  lemma RunStepWithin(run: seq<State>, j: nat)
    requires IsRun(run) && j + 1 < |run|
    ensures Within(run[j], run[j + 1])
  {
    RunKeepsInv(run, j);
    assert StepAt(run, j);
    StepWithin(run[j], run[j + 1]);
  }

  lemma {:induction false} RunWithin(run: seq<State>, i: nat, j: nat)
    requires IsRun(run) && i <= j < |run|
    ensures Within(run[i], run[j])
    decreases j
  {
    if i < j {
      var s, t, u := run[i], run[j - 1], run[j];
      RunWithin(run, i, j - 1);
      RunStepWithin(run, j - 1);
      WithinTransitive(s, t, u);
    }
  }

  /**
   After a limit is applied, what was already pushed, staged or buffered may exceed it, but nothing
   more is ever added beyond it.
   */
  lemma LimitHolds(run: seq<State>, i: nat, j: nat)
    requires IsRun(run) && i <= j < |run| && run[i].total.Some?
    ensures run[j].total.Some? && run[j].total.value <= run[i].total.value
    ensures run[j].downloaded <= Max(Count(run[i]), run[i].total.value)
  {
    RunWithin(run, i, j);
  }

  // ----- The lifecycle

  /** `Started` at most once, before any data; then one final `Stopped`. */
  ghost predicate WellOrdered(s: State) {
    || s.lifecycle.sent == []
    || s.lifecycle.sent == [Started]
    || (exists r :: s.lifecycle.sent == [Stopped(r)])
    || (exists r :: s.lifecycle.sent == [Started, Stopped(r)])
  }

  lemma LifecycleIsOrdered(run: seq<State>, i: nat)
    requires IsRun(run) && i < |run| && run[i].lifecycle.open
    ensures WellOrdered(run[i])
    ensures run[i].data.sent != [] ==> run[i].lifecycle.sent != [] && run[i].lifecycle.sent[0] == Started
    ensures run[i].phase.Done? ==>
              exists r :: run[i].lifecycle.sent == [Stopped(r)] || run[i].lifecycle.sent == [Started, Stopped(r)]
  {
    var s := run[i];
    RunKeepsInv(run, i);
    if s.data.sent != [] {
      var last := |s.data.sent| - 1;
      assert |s.data.sent[last]| > 0;
      assert |Flat(s.data.sent)| >= |s.data.sent[last]|;
    }
  }

  /** Publishing never waits: the two slots of the lifecycle channel are enough. */
  lemma PublishingNeverBlocks(run: seq<State>, i: nat)
    requires IsRun(run) && i < |run|
    ensures run[i].phase.PublishingStarted? ==> Enabled(run[i], PublishStarted)
    ensures run[i].phase.PublishingStopped? ==> Enabled(run[i], PublishStopped)
  {
    RunKeepsInv(run, i);
  }

  /** A runner that stops holds no connection attempt, and once it is done no data channel. */
  lemma StoppedHoldsNothing(run: seq<State>, i: nat)
    requires IsRun(run) && i < |run|
    requires run[i].phase.Draining? || run[i].phase.PublishingStopped? || run[i].phase.Done?
    ensures !run[i].input.Connector? && (run[i].phase.Done? ==> !run[i].dataHeld)
  {
    RunKeepsInv(run, i);
  }

  /** A broken stream is reported only once the consumer has taken everything pushed before, or is gone. */
  lemma StreamErrorIsDrained(run: seq<State>, i: nat, source: AdapterError)
    requires IsRun(run) && i < |run| && run[i].lifecycle.open
    requires Stopped(Failed(StreamError(source))) in run[i].lifecycle.sent
    ensures !run[i].data.open || run[i].data.IsEmpty()
  {
    RunKeepsInv(run, i);
  }

  /**
   A reported success is true: the pushed bytes are exactly the limit, or not empty when the size
   is unknown, and the consumer has taken them all or is gone.
   */
  lemma FinishedIsTrue(run: seq<State>, i: nat)
    requires IsRun(run) && i < |run| && run[i].lifecycle.open
    requires Stopped(Finished) in run[i].lifecycle.sent
    ensures run[i].total.Some? ==> |Flat(run[i].data.sent)| == run[i].total.value
    ensures run[i].total.None? ==> Flat(run[i].data.sent) != []
    ensures !run[i].data.open || run[i].data.IsEmpty()
  {
    RunKeepsInv(run, i);
  }

  /** `ExceededTotalSize` means a refused limit or more bytes than the limit, all of them taken. */
  lemma ExceededIsTrue(run: seq<State>, i: nat)
    requires IsRun(run) && i < |run| && run[i].lifecycle.open
    requires Stopped(Failed(ExceededTotalSize)) in run[i].lifecycle.sent
    ensures run[i].refused || (run[i].total.Some? && |Flat(run[i].data.sent)| > run[i].total.value)
    ensures !run[i].data.open || run[i].data.IsEmpty()
  {
    RunKeepsInv(run, i);
  }
}
