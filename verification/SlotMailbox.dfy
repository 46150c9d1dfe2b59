/**
 The mailbox the manager sends limits through is the slot, seen at its stores, its swaps and the receiver's
 leaving. Everything in between changes nothing of it.
 */
module SlotMailbox {
  import opened Wrappers
  import opened Slot
  import opened SlotLaws
  import opened SlotRuns
  import Manager

  /** What the sender's side sees of a slot; a value nobody can read any more is no limit. */
  function Box(s: Slot): Manager.Mailbox {
    Manager.Mailbox(if s.mail.value == EMPTY || s.recv.Gone? then None else Some(s.mail.value), !s.recv.Gone?)
  }

  datatype BoxOp = Nothing | Sent(limit: nat) | Got(limit: nat) | ReceiverLeft

  /** The mailbox operations of the manager and of its runners. */
  ghost predicate BoxStep(b: Manager.Mailbox, op: BoxOp, c: Manager.Mailbox) {
    match op
    case Nothing => c == b
    case Sent(limit) => Manager.Send(b, limit) == Some(c)
    case Got(limit) => b.unread == Some(limit) && c == b.(unread := None)
    case ReceiverLeft => b.receiver && c == Manager.Mailbox(None, false)
  }

  /** The mailbox operation a step of the slot is. */
  function OpOf(s: Slot, step: Step): BoxOp {
    match step
    case Continue(t) => if Pc(s, t).Storing? && !s.recv.Gone? then Sent(Pc(s, t).value) else Nothing
    case Receive =>
      if (s.recv.FirstSwap? || s.recv.SecondSwap?) && s.mail.value != EMPTY then Got(s.mail.value) else Nothing
    case Leave => ReceiverLeft
    case _ => Nothing
  }

  function SentBy(op: BoxOp): seq<nat> { if op.Sent? then [op.limit] else [] }

  function GotBy(op: BoxOp): seq<nat> { if op.Got? then [op.limit] else [] }

  ghost predicate IsOperation(s: Slot, op: BoxOp, n: Slot) {
    && BoxStep(Box(s), op, Box(n))
    && (!n.recv.Gone? ==> n.mail.sent == s.mail.sent + SentBy(op))
    && n.mail.got == s.mail.got + GotBy(op)
  }

  lemma ReceiveIsOperation(s: Slot, n: Slot)
    requires Steps(s, Receive, n)
    ensures IsOperation(s, OpOf(s, Receive), n)
  {
  }

  lemma ThreadIsOperation(s: Slot, t: Thread, n: Slot)
    requires ClosedOk(s) && Steps(s, Continue(t), n)
    ensures IsOperation(s, OpOf(s, Continue(t)), n)
  {
    assert Pc(s, t).Storing? ==> t in s.senders && s.senders[t].Storing?;
  }

  /** Every step of the slot is its mailbox operation, and what is stored and read is what that sends and gets. */
  lemma StepIsOperation(s: Slot, step: Step, n: Slot)
    requires ClosedOk(s) && Steps(s, step, n)
    ensures IsOperation(s, OpOf(s, step), n)
  {
    match step
    case Receive => ReceiveIsOperation(s, n);
    case Continue(t) => ThreadIsOperation(s, t, n);
    case _ =>
  }

  /** A send is refused exactly when the mailbox refuses it. */
  lemma RefusedAlike(s: Slot, t: Thread, v: nat)
    requires Enabled(s, Send(t, v))
    ensures Manager.Send(Box(s), v).None? <==> Next(s, Send(t, v)) == s
  {
    assert !s.recv.Gone? ==> Pc(Next(s, Send(t, v)), t).Storing?;
  }

  ghost predicate BoxRun(boxes: seq<Manager.Mailbox>, ops: seq<BoxOp>) {
    && |boxes| == |ops| + 1
    && forall i | 0 <= i < |ops| :: BoxStep(boxes[i], ops[i], boxes[i + 1])
  }

  function AllSent(ops: seq<BoxOp>): seq<nat> {
    if ops == [] then [] else AllSent(ops[..|ops| - 1]) + SentBy(ops[|ops| - 1])
  }

  function AllGot(ops: seq<BoxOp>): seq<nat> {
    if ops == [] then [] else AllGot(ops[..|ops| - 1]) + GotBy(ops[|ops| - 1])
  }

  function Boxes(run: seq<Slot>): seq<Manager.Mailbox> { seq(|run|, i requires 0 <= i < |run| => Box(run[i])) }

  lemma {:induction false} ShorterRun(run: seq<Slot>)
    requires IsRun(run) && |run| > 1
    ensures IsRun(run[..|run| - 1])
  {
    var shorter := run[..|run| - 1];
    forall i: nat | i + 1 < |shorter| ensures StepAt(shorter, i) {
      assert StepAt(run, i);
    }
  }

  /** Every run of the slot is a run of the mailbox: the same limits are sent and got, in the same order. */
  lemma {:induction false} RunIsMailboxRun(run: seq<Slot>) returns (ops: seq<BoxOp>)
    requires IsRun(run)
    ensures BoxRun(Boxes(run), ops) && Boxes(run)[0] == Manager.Mailbox(None, true)
    ensures AllGot(ops) == run[|run| - 1].mail.got
    ensures !run[|run| - 1].recv.Gone? ==> AllSent(ops) == run[|run| - 1].mail.sent
    decreases |run|
  {
    if |run| == 1 {
      ops := [];
    } else {
      var last := |run| - 1;
      ShorterRun(run);
      var before := RunIsMailboxRun(run[..last]);
      RunKeepsInv(run, last - 1);
      assert StepAt(run, last - 1);
      var step :| Steps(run[last - 1], step, run[last]);
      StepIsOperation(run[last - 1], step, run[last]);
      var op := OpOf(run[last - 1], step);
      ops := before + [op];
      assert ops[..|ops| - 1] == before;
      forall i | 0 <= i < |ops| ensures BoxStep(Boxes(run)[i], ops[i], Boxes(run)[i + 1]) {
        assert i < |before| ==>
            Boxes(run[..last])[i] == Boxes(run)[i] && Boxes(run[..last])[i + 1] == Boxes(run)[i + 1];
      }
    }
  }
}
