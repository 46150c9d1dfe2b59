/**
 What every interleaving of the watch channel keeps: the version and the value agree outside a
 publication, reads never go back, a mark is never ahead of what is read next, the close comes last,
 and no parked receiver misses news.
 */
module WatchLaws {
  import opened Wrappers
  import opened Watch

  // ----- The lock, the version and the value

  predicate SenderHolds(pc: SendPc) { pc.Bumping? || pc.Replacing? || pc.Unlocking? }

  predicate ReceiverHolds(pc: RecvPc) { pc.Loading? || pc.Cloning? || pc.Leaving? }

  ghost predicate LockOk(w: Watch) {
    && (forall t | t in w.senders && SenderHolds(w.senders[t]) :: w.lock == Some(Tx(t)))
    && (forall r | r in w.receivers && ReceiverHolds(w.receivers[r].pc) :: w.lock == Some(Rx(r)))
    && (w.lock.Some? ==>
          match w.lock.value
          case Tx(t) => t in w.senders && SenderHolds(w.senders[t])
          case Rx(r) => r in w.receivers && ReceiverHolds(w.receivers[r].pc))
  }

  /** A publication bumps the version before it replaces the value, both under the lock. */
  predicate MidPublication(w: Watch) {
    w.lock.Some? && w.lock.value.Tx? && Pc(w, w.lock.value.thread).Replacing?
  }

  ghost predicate ValueOk(w: Watch) {
    && w.published != []
    && w.bumps == |w.published| - 1 + (if MidPublication(w) then 1 else 0)
    && w.state < WORD
    && Version(w) == VersionOf(w.bumps)
    && (IsClosed(w) ==> forall t | t in w.senders :: w.senders[t].Resting? || w.senders[t].Notifying?)
  }

  lemma ThreadKeepsLock(w: Watch, t: Thread, n: Watch)
    requires LockOk(w) && Enabled(w, Continue(t)) && n == ThreadNext(w, t)
    ensures LockOk(n)
  {
    assert w.senders[t] == Pc(w, t);
  }

  lemma AdvanceKeepsLock(w: Watch, r: ReceiverId, n: Watch)
    requires LockOk(w) && Enabled(w, Advance(r)) && n == Next(w, Advance(r))
    ensures LockOk(n)
  {
    var before, after := w.receivers[r].pc, n.receivers[r].pc;
    assert ReceiverHolds(after) <==> before.Seeking? || (ReceiverHolds(before) && !before.Leaving?);
  }

  lemma LockKept(w: Watch, step: Step, n: Watch)
    requires LockOk(w) && Enabled(w, step) && n == Next(w, step)
    ensures LockOk(n)
  {
    match step
    case Continue(t) => ThreadKeepsLock(w, t, n);
    case Advance(r) => AdvanceKeepsLock(w, r, n);
    case _ => CallKeepsLock(w, step, n);
  }

  lemma CallKeepsLock(w: Watch, step: Step, n: Watch)
    requires LockOk(w) && Enabled(w, step) && n == Next(w, step) && !step.Continue? && !step.Advance?
    ensures LockOk(n)
  {
  }

  lemma BumpVersion(state: nat, bumps: nat)
    requires state < WORD && state % STEP == 0 && state == VersionOf(bumps)
    ensures (state + STEP) % WORD == VersionOf(bumps + 1) && VersionOf(bumps + 1) % STEP == 0
            && VersionOf(bumps + 1) < WORD - 1
  {
  }

  lemma VersionIsEven(bumps: nat)
    ensures VersionOf(bumps) % STEP == 0 && VersionOf(bumps) < WORD - 1
  {
  }

  lemma BumpKeepsValue(w: Watch, t: Thread, n: Watch)
    requires LockOk(w) && ValueOk(w) && Pc(w, t).Bumping? && n == ThreadNext(w, t)
    ensures ValueOk(n)
  {
    assert t in w.senders && w.lock == Some(Tx(t));
    assert !IsClosed(w);
    BumpVersion(w.state, w.bumps);
  }

  lemma ThreadKeepsValue(w: Watch, t: Thread, n: Watch)
    requires LockOk(w) && ValueOk(w) && Enabled(w, Continue(t)) && n == ThreadNext(w, t)
    ensures ValueOk(n)
  {
    assert t in w.senders && w.senders[t] == Pc(w, t);
    if Pc(w, t).Bumping? {
      BumpKeepsValue(w, t, n);
    }
  }

  lemma ValueKept(w: Watch, step: Step, n: Watch)
    requires LockOk(w) && ValueOk(w) && Enabled(w, step) && n == Next(w, step)
    ensures ValueOk(n)
  {
    VersionIsEven(w.bumps);
    match step
    case Continue(t) => ThreadKeepsValue(w, t, n);
    case Send(t, _) => assert MidPublication(n) == MidPublication(w);
    case Drop(t) => assert w.lock.Some? ==> w.lock.value.Rx?;
    case Advance(r) => assert MidPublication(n) == MidPublication(w);
    case _ => assert n.senders == w.senders && n.lock == w.lock;
  }

  // ----- The receivers

  /** A publication is past its bump, so its notification is still to come. */
  ghost predicate AboutToNotify(w: Watch) {
    exists t :: t in w.senders && (w.senders[t].Replacing? || w.senders[t].Unlocking? || w.senders[t].Notifying?)
  }

  predicate Follows(p: Purpose) { p.Testing? || p.Yielding? }

  /** The last value read is the one marked as seen. */
  predicate Covered(x: Receiver) { x.read != [] && x.read[|x.read| - 1] == x.marked }

  ghost predicate ReadsOk(x: Receiver, published: nat) {
    && (forall i | 0 <= i < |x.read| :: x.read[i] < published)
    && (forall i, j | 0 <= i < j < |x.read| :: x.read[i] <= x.read[j])
  }

  /**
   Whoever reads and marks, marks what it reads; whoever follows the values has read what it marked whenever it
   waits or ends.
   */
  predicate CoverOk(x: Receiver) {
    match x.pc
    case Leaving(p) => !p.Peek? ==> Covered(x)
    case Judging => Covered(x)
    case Yielded => Covered(x)
    case Checking(p) => Follows(p) ==> Covered(x)
    case Listening(p) => Follows(p) ==> Covered(x)
    case Waiting(p) => Follows(p) ==> Covered(x)
    case Ended(p) => Follows(p) ==> Covered(x)
    case _ => true
  }

  ghost predicate MarkOk(w: Watch, x: Receiver) {
    && x.seen == VersionOf(x.marked) && x.marked <= w.bumps
    && (x.pc.Cloning? && !x.pc.purpose.Peek? ==> x.marked == w.bumps)
    && (x.pc.Ended? ==> IsClosed(w) && x.seen == Version(w))
  }

  predicate HasNews(w: Watch, x: Receiver) { Version(w) != x.seen || IsClosed(w) }

  /** Whoever is registered is about to wait, and only checks again before it does. */
  ghost predicate WaitOk(w: Watch, x: Receiver) {
    && (x.listener.Some? ==> x.pc.Checking? || x.pc.Waiting?)
    && (x.pc.Waiting? ==>
      && x.listener.Some?
      && (HasNews(w, x) ==> x.listener == Some(true) || AboutToNotify(w)))
  }

  /** The publications that the test accepted, in order. */
  function Accepted(tested: seq<Verdict>): seq<nat> {
    if tested == [] then []
    else Accepted(tested[..|tested| - 1])
         + if tested[|tested| - 1].accepted then [tested[|tested| - 1].publication] else []
  }

  predicate WaitsOn(pc: RecvPc, p: Purpose) {
    match pc
    case Checking(q) => q == p
    case Listening(q) => q == p
    case Waiting(q) => q == p
    case Ended(q) => q == p
    case _ => false
  }

  /** What was accepted was returned, and nothing else; whoever goes on waiting has had its last value rejected. */
  ghost predicate VerdictsOk(x: Receiver) {
    && x.returned == Accepted(x.tested)
    && (forall i | 0 <= i < |x.tested| :: x.tested[i].publication in x.read)
    && (WaitsOn(x.pc, Testing) ==>
          x.tested != [] && x.read != [] && x.tested[|x.tested| - 1] == Verdict(x.read[|x.read| - 1], false))
  }

  predicate Reads(pc: RecvPc, p: Purpose) {
    match pc
    case Seeking(q) => q == p
    case Loading(q) => q == p
    case Cloning(q) => q == p
    case Leaving(q) => q == p
    case _ => false
  }

  /**
   Before the version wraps, a stream yields ever newer publications. What it yielded last it marked, until there is
   news, and then what it marks is newer.
   */
  ghost predicate YieldsOk(w: Watch, x: Receiver) {
    w.bumps < WORD / STEP ==>
      && (forall i, j | 0 <= i < j < |x.yielded| :: x.yielded[i] < x.yielded[j])
      && (x.pc.Yielded? || WaitsOn(x.pc, Yielding) ==> x.yielded != [] && x.yielded[|x.yielded| - 1] == x.marked)
      && (Reads(x.pc, Yielding) && x.yielded != [] ==> x.yielded[|x.yielded| - 1] < x.marked)
  }

  ghost predicate RecvOk(w: Watch, x: Receiver) {
    ViewOk(w, x) && VerdictsOk(x) && YieldsOk(w, x)
  }

  /** What the receiver read, marked and waits for fits the channel. */
  ghost predicate ViewOk(w: Watch, x: Receiver) {
    ReadsOk(x, |w.published|) && CoverOk(x) && MarkOk(w, x) && WaitOk(w, x)
  }

  ghost predicate RecvAt(w: Watch, r: ReceiverId)
    requires r in w.receivers
  {
    RecvOk(w, w.receivers[r])
  }

  ghost predicate ReceiversOk(w: Watch) {
    forall r {:trigger RecvAt(w, r)} | r in w.receivers :: RecvAt(w, r)
  }

  /** A receiver's own step. */
  lemma AdvanceKeepsRecv(w: Watch, x: Receiver, y: Receiver)
    requires ValueOk(w) && RecvOk(w, x) && CanAdvance(w, x) && y == ReceiverNext(w, x)
    requires x.pc.Cloning? ==> !MidPublication(w)
    ensures RecvOk(w, y)
  {
    AdvanceKeepsView(w, x, y);
    AdvanceKeepsVerdicts(w, x, y);
    AdvanceKeepsYields(w, x, y);
  }

  lemma AdvanceKeepsYields(w: Watch, x: Receiver, y: Receiver)
    requires ValueOk(w) && ViewOk(w, x) && YieldsOk(w, x) && y == ReceiverNext(w, x)
    ensures YieldsOk(w, y)
  {
    if w.bumps < WORD / STEP {
      if x.pc.Checking? {
        NewsIsNewer(w, x);
      } else if x.pc == Leaving(Yielding) {
        YieldIsNewer(w, x, y);
      }
    }
  }

  lemma YieldIsNewer(w: Watch, x: Receiver, y: Receiver)
    requires CoverOk(x) && YieldsOk(w, x) && x.pc == Leaving(Yielding) && y == ReceiverNext(w, x)
    requires w.bumps < WORD / STEP
    ensures YieldsOk(w, y)
  {
    assert y.yielded == x.yielded + [x.marked];
  }

  /** Before the version wraps, another version than the marked one is a newer publication. */
  lemma NewsIsNewer(w: Watch, x: Receiver)
    requires ValueOk(w) && MarkOk(w, x) && w.bumps < WORD / STEP
    ensures Version(w) != x.seen <==> x.marked < w.bumps
  {
  }

  lemma AdvanceKeepsView(w: Watch, x: Receiver, y: Receiver)
    requires ValueOk(w) && ViewOk(w, x) && CanAdvance(w, x) && y == ReceiverNext(w, x)
    requires x.pc.Cloning? ==> !MidPublication(w)
    ensures ViewOk(w, y)
  {
    if x.pc.Checking? {
      CheckKeepsView(w, x, y);
    }
  }

  lemma AdvanceKeepsVerdicts(w: Watch, x: Receiver, y: Receiver)
    requires VerdictsOk(x) && y == ReceiverNext(w, x)
    ensures VerdictsOk(y)
  {
    forall i | 0 <= i < |y.tested| ensures y.tested[i].publication in y.read {
      assert x.tested[i].publication in x.read;
    }
  }

  lemma CheckKeepsView(w: Watch, x: Receiver, y: Receiver)
    requires ValueOk(w) && ViewOk(w, x) && x.pc.Checking? && y == Check(w, x, x.pc.purpose)
    ensures ViewOk(w, y)
  {
  }

  function Heard(x: Receiver): Receiver { if x.listener.Some? then x.(listener := Some(true)) else x }

  /** A publication's step, before its notification, is fine with every receiver that does not read meanwhile. */
  lemma ThreadKeepsRecv(w: Watch, t: Thread, n: Watch, x: Receiver)
    requires ValueOk(w) && ValueOk(n) && RecvOk(w, x)
    requires Enabled(w, Continue(t)) && n == ThreadNext(w, t) && !Pc(w, t).Notifying?
    requires Pc(w, t).Bumping? ==> !x.pc.Cloning?
    ensures RecvOk(n, x)
  {
    assert w.senders[t] == Pc(w, t);
    if AboutToNotify(w) {
      var u :| u in w.senders && (w.senders[u].Replacing? || w.senders[u].Unlocking? || w.senders[u].Notifying?);
      assert u in n.senders && (n.senders[u].Replacing? || n.senders[u].Unlocking? || n.senders[u].Notifying?);
    }
    if Pc(w, t).Bumping? {
      assert n.senders[t].Replacing?;
    }
  }

  lemma NotificationKeepsRecv(w: Watch, t: Thread, n: Watch, x: Receiver)
    requires RecvOk(w, x) && Pc(w, t).Notifying? && n == ThreadNext(w, t)
    ensures RecvOk(n, Heard(x))
  {
  }

  lemma ThreadKeepsReceivers(w: Watch, t: Thread, n: Watch)
    requires LockOk(w) && ValueOk(w) && ReceiversOk(w) && Enabled(w, Continue(t)) && n == ThreadNext(w, t)
    ensures ReceiversOk(n)
  {
    ThreadKeepsValue(w, t, n);
    forall r | r in n.receivers ensures RecvAt(n, r) {
      assert RecvAt(w, r);
      if Pc(w, t).Notifying? {
        NotificationKeepsRecv(w, t, n, w.receivers[r]);
      } else {
        assert Pc(w, t).Bumping? ==> w.lock == Some(Tx(t));
        ThreadKeepsRecv(w, t, n, w.receivers[r]);
      }
    }
  }

  /** Starting to send, or closing, is fine with every receiver. */
  lemma SenderKeepsRecv(w: Watch, step: Step, n: Watch, x: Receiver)
    requires ValueOk(w) && RecvOk(w, x) && Enabled(w, step) && (step.Send? || step.Drop?) && n == Next(w, step)
    ensures RecvOk(n, x)
  {
    VersionIsEven(w.bumps);
    if AboutToNotify(w) {
      var u :| u in w.senders && (w.senders[u].Replacing? || w.senders[u].Unlocking? || w.senders[u].Notifying?);
      assert u in n.senders && (n.senders[u].Replacing? || n.senders[u].Unlocking? || n.senders[u].Notifying?);
    }
    if step.Drop? {
      assert n.senders[step.thread].Notifying?;
    }
  }

  /** Nothing a receiver is told of changes for the others. */
  ghost predicate SameNews(w: Watch, n: Watch) {
    n.state == w.state && n.bumps == w.bumps && n.published == w.published && n.senders == w.senders
  }

  lemma SameNewsKeepsRecv(w: Watch, n: Watch, x: Receiver)
    requires RecvOk(w, x) && SameNews(w, n)
    ensures RecvOk(n, x)
  {
  }

  lemma OneReceiverKeeps(w: Watch, n: Watch, r: ReceiverId)
    requires ReceiversOk(w) && SameNews(w, n) && r in n.receivers && n.receivers == w.receivers[r := n.receivers[r]]
    requires RecvOk(w, n.receivers[r])
    ensures ReceiversOk(n)
  {
    forall q | q in n.receivers ensures RecvAt(n, q) {
      if q != r {
        assert RecvAt(w, q);
        SameNewsKeepsRecv(w, n, w.receivers[q]);
      } else {
        SameNewsKeepsRecv(w, n, n.receivers[r]);
      }
    }
  }

  lemma CallKeepsRecv(w: Watch, step: Step, n: Watch, r: ReceiverId)
    requires ValueOk(w) && ReceiversOk(w) && Enabled(w, step) && n == Next(w, step)
    requires !step.Send? && !step.Drop? && !step.Continue? && !step.Advance?
    requires r == if step.CloneReceiver? || step.Subscribe? then step.copy else step.receiver
    ensures SameNews(w, n) && r in n.receivers && n.receivers == w.receivers[r := n.receivers[r]]
    ensures RecvOk(w, n.receivers[r])
  {
    if !step.Subscribe? {
      assert RecvAt(w, step.receiver);
    }
    if step.Judge? {
      JudgedOk(w, w.receivers[r], step.accepted);
    } else {
      CallKeepsView(w, step, n, r);
      CallKeepsVerdicts(w, step, n, r);
      CallKeepsYields(w, step, n, r);
    }
  }

  /** Asking the test keeps the account of its verdicts. */
  lemma JudgedOk(w: Watch, x: Receiver, accepted: bool)
    requires RecvOk(w, x) && x.pc.Judging?
    ensures RecvOk(w, Judged(x, accepted))
  {
    var y := Judged(x, accepted);
    JudgedVerdicts(x, accepted, y);
    assert ViewOk(w, y) && YieldsOk(w, y);
  }

  lemma JudgedVerdicts(x: Receiver, accepted: bool, y: Receiver)
    requires VerdictsOk(x) && x.read != [] && y == Judged(x, accepted)
    ensures VerdictsOk(y)
  {
    assert y.tested == x.tested + [Verdict(x.read[|x.read| - 1], accepted)];
    assert y.tested[..|y.tested| - 1] == x.tested;
    forall i | 0 <= i < |y.tested| ensures y.tested[i].publication in y.read {
      assert i < |x.tested| ==> x.tested[i].publication in x.read;
    }
  }

  lemma CallKeepsView(w: Watch, step: Step, n: Watch, r: ReceiverId)
    requires ValueOk(w) && Enabled(w, step) && n == Next(w, step)
    requires !step.Send? && !step.Drop? && !step.Continue? && !step.Advance? && !step.Judge?
    requires r == if step.CloneReceiver? || step.Subscribe? then step.copy else step.receiver
    requires !step.Subscribe? ==> ViewOk(w, w.receivers[step.receiver])
    ensures ViewOk(w, n.receivers[r])
  {
  }

  lemma CallKeepsYields(w: Watch, step: Step, n: Watch, r: ReceiverId)
    requires Enabled(w, step) && n == Next(w, step)
    requires !step.Send? && !step.Drop? && !step.Continue? && !step.Advance? && !step.Judge?
    requires r == if step.CloneReceiver? || step.Subscribe? then step.copy else step.receiver
    requires !step.Subscribe? ==> YieldsOk(w, w.receivers[step.receiver])
    ensures YieldsOk(w, n.receivers[r])
  {
  }

  lemma CallKeepsVerdicts(w: Watch, step: Step, n: Watch, r: ReceiverId)
    requires Enabled(w, step) && n == Next(w, step)
    requires !step.Send? && !step.Drop? && !step.Continue? && !step.Advance? && !step.Judge?
    requires r == if step.CloneReceiver? || step.Subscribe? then step.copy else step.receiver
    requires !step.Subscribe? ==> VerdictsOk(w.receivers[step.receiver])
    ensures VerdictsOk(n.receivers[r])
  {
  }

  lemma ReceiversKept(w: Watch, step: Step, n: Watch)
    requires LockOk(w) && ValueOk(w) && ReceiversOk(w) && Enabled(w, step) && n == Next(w, step)
    ensures ReceiversOk(n)
  {
    if step.Continue? {
      ThreadKeepsReceivers(w, step.thread, n);
    } else if step.Send? || step.Drop? {
      forall r | r in n.receivers ensures RecvAt(n, r) {
        assert RecvAt(w, r);
        SenderKeepsRecv(w, step, n, w.receivers[r]);
      }
    } else if step.Advance? {
      var r := step.receiver;
      assert RecvAt(w, r);
      AdvanceKeepsRecv(w, w.receivers[r], n.receivers[r]);
      OneReceiverKeeps(w, n, r);
    } else {
      var r := if step.CloneReceiver? || step.Subscribe? then step.copy else step.receiver;
      CallKeepsRecv(w, step, n, r);
      OneReceiverKeeps(w, n, r);
    }
  }
}
