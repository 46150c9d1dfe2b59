/**
 Every run of the slot: any interleaving of the receiver's steps with those of the sending threads.
 */
module SlotRuns {
  import opened Wrappers
  import opened Slot
  import opened SlotLaws

  ghost predicate Inv(s: Slot) {
    Exclusive(s) && Tokens(s) && InOrder(s.mail) && ClosedOk(s) && Wakes(s)
  }

  ghost predicate Steps(s: Slot, step: Step, n: Slot) { Enabled(s, step) && n == Next(s, step) }

  ghost predicate SomeStep(s: Slot, n: Slot) { exists step :: Steps(s, step, n) }

  ghost predicate StepAt(run: seq<Slot>, i: nat)
    requires i + 1 < |run|
  {
    SomeStep(run[i], run[i + 1])
  }

  ghost predicate IsRun(run: seq<Slot>) {
    run != [] && run[0] == Channel() && forall i: nat | i + 1 < |run| :: StepAt(run, i)
  }

  lemma ChannelInv()
    ensures Inv(Channel())
  {
    assert forall p :: Held(Channel(), p).None?;
  }

  lemma StepKeepsInv(s: Slot, step: Step, n: Slot)
    requires Inv(s) && Steps(s, step, n)
    ensures Inv(n)
  {
    ExclusiveKept(s, step, n);
    TokensKept(s, step, n);
    InOrderKept(s, step, n);
    ClosedKept(s, step, n);
    WakesKept(s, step, n);
  }

  lemma {:induction false} RunKeepsInv(run: seq<Slot>, i: nat)
    requires IsRun(run) && i < |run|
    ensures Inv(run[i])
  {
    if i == 0 {
      ChannelInv();
    } else {
      RunKeepsInv(run, i - 1);
      assert StepAt(run, i - 1);
      var step :| Steps(run[i - 1], step, run[i]);
      StepKeepsInv(run[i - 1], step, run[i]);
    }
  }

  // ----- The atomic waker

  /** The parties that may touch the waker cell. */
  predicate Owns(s: Slot, p: Party) {
    match p
    case Rx => ReceiverOwns(s.recv)
    case Tx(t) => ThreadOwns(Pc(s, t))
  }

  /** At most one party owns the waker cell, and the state is one of the four legal ones. */
  lemma CellHasOneOwner(run: seq<Slot>, i: nat, p: Party, q: Party)
    requires IsRun(run) && i < |run|
    ensures run[i].waker.state <= REGISTERING + WAKING
    ensures Owns(run[i], p) && Owns(run[i], q) ==> p == q
  {
    RunKeepsInv(run, i);
    if Owns(run[i], p) && Owns(run[i], q) {
      OnlyOwner(run[i], p, q);
    }
  }

  lemma OnlyOwner(s: Slot, p: Party, q: Party)
    requires Exclusive(s) && Owns(s, p) && Owns(s, q)
    ensures p == q
  {
    assert p.Tx? ==> p.thread in s.senders;
    assert q.Tx? ==> q.thread in s.senders;
  }

  /** `register` never finds another `register` at work; if its release fails, a `wake` arrived meanwhile. */
  lemma RegisterIsAlone(run: seq<Slot>, i: nat)
    requires IsRun(run) && i < |run|
    ensures run[i].recv.Claiming? ==> run[i].waker.state == WAITING || run[i].waker.state == WAKING
    ensures run[i].recv.Reclaiming? ==> run[i].waker.state == REGISTERING + WAKING
  {
    RunKeepsInv(run, i);
  }

  /** No waker is woken twice, none that was not taken, and a taken one that was not woken is in someone's hands. */
  lemma TakenWakersAreWokenOnce(run: seq<Slot>, i: nat)
    requires IsRun(run) && i < |run|
    ensures NoTwice(run[i].waker.woken)
    ensures forall x | x in run[i].waker.woken :: x in run[i].waker.taken
    ensures forall x | x in run[i].waker.taken && x !in run[i].waker.woken :: exists p :: Held(run[i], p) == Some(x)
    ensures forall p {:trigger Held(run[i], p)} | Held(run[i], p).Some? :: Held(run[i], p).value !in run[i].waker.woken
  {
    RunKeepsInv(run, i);
  }

  // ----- Wake-ups

  /**
   A parked receiver that has news, a value or the close, was woken since its poll began, or some
   thread still has a pending step that will wake it.
   */
  lemma NewsReachesTheParked(run: seq<Slot>, i: nat)
    requires IsRun(run) && i < |run| && run[i].recv.Parked?
    requires run[i].mail.value != EMPTY || run[i].mail.closed
    ensures run[i].notified || SomeoneWillWake(run[i], run[i].recv.task)
  {
    RunKeepsInv(run, i);
  }

  function Rank(pc: SendPc): nat {
    match pc
    case Announcing => 4
    case Taking => 3
    case Clearing(_) => 2
    case Waking(_) => 1
    case _ => 0
  }

  ghost predicate CloserWake(s: Slot, task: Task, rank: nat) {
    exists t :: t in s.senders && WillWake(s, t, task) && Rank(Pc(s, t)) < rank
  }

  /**
   Every step of a thread that will wake brings the wake closer: it wakes, or less is left to it or to the cell's
   owner.
   */
  lemma PendingWakeProgresses(s: Slot, t: Thread, n: Slot)
    requires Inv(s) && s.recv.Parked? && !s.notified && WillWake(s, t, s.recv.task) && n == ThreadNext(s, t)
    ensures n.notified || CloserWake(n, s.recv.task, Rank(Pc(s, t)))
  {
    if Pc(s, t).Announcing? {
      AnnouncementProgresses(s, t, n, s.recv.task);
    } else if !Pc(s, t).Waking? {
      assert t in n.senders && WillWake(n, t, s.recv.task);
    }
  }

  lemma AnnouncementProgresses(s: Slot, t: Thread, n: Slot, task: Task)
    requires Exclusive(s) && ArmedFor(s, task) && !ReceiverOwns(s.recv)
    requires Pc(s, t).Announcing? && n == ThreadNext(s, t)
    ensures CloserWake(n, task, 4)
  {
    if SomeoneHolds(s.senders, task) {
      var u :| u in s.senders && HeldFor(s.senders[u], task);
      assert u in n.senders && WillWake(n, u, task);
    } else if s.waker.state == WAITING {
      assert t in n.senders && WillWake(n, t, task);
    } else {
      var u :| u in s.senders && ThreadOwns(s.senders[u]);
      assert u in n.senders && WillWake(n, u, task);
    }
  }

  // ----- Values

  /**
   What was read is a subsequence of what was sent, each send read at most once; an empty slot has been read to
   its last value.
   */
  lemma ReadsAreASubsequence(run: seq<Slot>, i: nat)
    requires IsRun(run) && i < |run|
    ensures InOrder(run[i].mail)
  {
    RunKeepsInv(run, i);
  }

  /** A poll ends the stream only once the sender closed the slot and its last value was read. */
  lemma EndedMeansDrained(run: seq<Slot>, i: nat)
    requires IsRun(run) && i < |run| && run[i].ended
    ensures run[i].mail.closed && run[i].mail.value == EMPTY
    ensures var m := run[i].mail; m.sent != [] ==> m.got != [] && m.got[|m.got| - 1] == m.sent[|m.sent| - 1]
    ensures forall t | t in run[i].senders :: !run[i].senders[t].Storing?
  {
    RunKeepsInv(run, i);
  }

  // ----- How a poll goes

  /** A poll is over exactly when it read a value or told the end; it parks only with nothing to read and not closed. */
  lemma PollsEnd(s: Slot, n: Slot)
    requires ClosedOk(s) && Enabled(s, Receive) && n == ReceiverNext(s)
    ensures n.recv.Idle? <==> |n.mail.got| == |s.mail.got| + 1 || (n.ended && !n.recv.Parked? && Telling(s.recv))
    ensures n.mail.got == s.mail.got || n.mail.got == s.mail.got + [s.mail.value]
    ensures n.mail.got != s.mail.got ==> s.mail.value != EMPTY && n.mail.value == EMPTY
    ensures n.recv.Parked? ==> n.mail == s.mail && n.mail.value == EMPTY && !s.recv.closed && !Telling(s.recv)
  {
  }

  /** About to look for a value for the last time, the close having been seen, and finding none. */
  predicate Telling(pc: RecvPc) { (pc.SecondLoad? || pc.SecondSwap?) && pc.closed }

  /** A value that is there when a poll begins is read without registering. */
  lemma ReadyPollRegistersNothing(s: Slot, task: Task)
    requires Enabled(s, Poll(task)) && s.mail.value != EMPTY
    ensures var polled := Next(s, Poll(task));
            var looked := Next(polled, Receive);
            var read := Next(looked, Receive);
            read.recv.Idle? && read.mail == ReadValue(s.mail) && read.waker == s.waker
  {
  }

  /** `register` owes its own task a wake: a `wake` came while it stored the waker. */
  predicate OwesItself(s: Slot) {
    || (s.recv.Finishing? && s.waker.state != REGISTERING)
    || s.recv.Reclaiming? || s.recv.Unlocking? || s.recv.WakingItself?
  }

  /** A `wake` that meets a `register` is not dropped: the register wakes its own task before it is over. */
  lemma MetWakeIsKept(s: Slot, step: Step, n: Slot)
    requires Inv(s) && Steps(s, step, n) && OwesItself(s)
    ensures OwesItself(n) || (n.recv.ReadingClosed? && n.notified && |n.waker.woken| == |s.waker.woken| + 1)
  {
    if step.Continue? {
      assert Pc(s, step.thread) == s.senders[step.thread];
    }
  }
}
