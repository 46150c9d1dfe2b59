/**
 What every interleaving of the slot keeps: the waker cell has one owner, every waker taken is woken
 once, no wake-up is lost, and values arrive in order, the last one always.
 */
module SlotLaws {
  import opened Wrappers
  import opened Slot

  // ----- Exclusive access to the waker cell

  predicate ReceiverOwns(pc: RecvPc) { pc.Registering? || pc.Finishing? || pc.Reclaiming? || pc.Unlocking? }

  predicate ThreadOwns(pc: SendPc) { pc.Taking? || pc.Clearing? }

  /** The `WAKING` state is one thread's claim on the cell. */
  ghost predicate OneOwner(senders: map<Thread, SendPc>, waking: bool) {
    && (waking <==> exists t :: t in senders && ThreadOwns(senders[t]))
    && (forall t, u | t in senders && u in senders && ThreadOwns(senders[t]) && ThreadOwns(senders[u]) :: t == u)
  }

  ghost predicate StateOk(state: nat, recv: RecvPc) {
    && state <= REGISTERING + WAKING
    && (ReceiverOwns(recv) <==> state == REGISTERING || state == REGISTERING + WAKING)
    && (recv.Reclaiming? || recv.Unlocking? ==> state == REGISTERING + WAKING)
  }

  ghost predicate Exclusive(s: Slot) {
    StateOk(s.waker.state, s.recv) && OneOwner(s.senders, s.waker.state == WAKING)
  }

  /** A thread moves on: it claims the cell, keeps its claim, gives it up, or never had it. */
  lemma OwnerMoves(senders: map<Thread, SendPc>, waking: bool, t: Thread, before: SendPc, after: SendPc)
    requires OneOwner(senders, waking) && before == (if t in senders then senders[t] else Resting)
    requires ThreadOwns(after) && !ThreadOwns(before) ==> !waking
    ensures OneOwner(senders[t := after], if ThreadOwns(before) then ThreadOwns(after) else waking || ThreadOwns(after))
  {
    var moved := senders[t := after];
    if u :| u in senders && ThreadOwns(senders[u]) && u != t {
      assert u in moved && ThreadOwns(moved[u]);
    }
    assert t in moved;
  }

  /** What the bit operations do to the four legal states. */
  lemma Bits(state: nat)
    requires state < 4
    ensures OrWaking(state) == if state < 2 then state + 2 else state
    ensures AndNotWaking(state) == if state < 2 then state else state - 2
  {
  }

  lemma ReceiverKeepsExclusive(s: Slot, n: Slot)
    requires Exclusive(s) && Enabled(s, Receive) && n == ReceiverNext(s)
    ensures Exclusive(n)
  {
    ReceiverKeepsState(s, n);
  }

  /** The receiver claims the cell, lets go of it, or leaves the state alone. */
  lemma ReceiverMovesState(s: Slot, n: Slot)
    requires Enabled(s, Receive) && n == ReceiverNext(s)
    ensures n.senders == s.senders
    ensures n.waker.state == s.waker.state || n.waker.state == WAITING || n.waker.state == REGISTERING
    ensures n.waker.state != s.waker.state ==> s.recv.Claiming? || s.recv.Finishing? || s.recv.Unlocking?
  {
  }

  lemma ReceiverKeepsState(s: Slot, n: Slot)
    requires StateOk(s.waker.state, s.recv) && Enabled(s, Receive) && n == ReceiverNext(s)
    ensures StateOk(n.waker.state, n.recv) && (n.waker.state == WAKING <==> s.waker.state == WAKING)
            && n.senders == s.senders
  {
    ReceiverMovesState(s, n);
  }

  lemma ThreadKeepsExclusive(s: Slot, t: Thread, n: Slot)
    requires Exclusive(s) && n.recv == s.recv && n.senders == s.senders[t := Pc(n, t)]
    requires var before, after := Pc(s, t), Pc(n, t);
             || (ThreadOwns(before) == ThreadOwns(after) && n.waker.state == s.waker.state)
             || (!ThreadOwns(before) && ThreadOwns(after) == (s.waker.state == WAITING)
                && n.waker.state == OrWaking(s.waker.state))
             || (ThreadOwns(before) && !ThreadOwns(after) && n.waker.state == AndNotWaking(s.waker.state))
    ensures Exclusive(n)
  {
    Bits(s.waker.state);
    OwnerMoves(s.senders, s.waker.state == WAKING, t, Pc(s, t), Pc(n, t));
    assert ThreadOwns(Pc(s, t)) ==> s.waker.state == WAKING;
  }

  lemma ExclusiveKept(s: Slot, step: Step, n: Slot)
    requires Exclusive(s) && Enabled(s, step) && n == Next(s, step)
    ensures Exclusive(n)
  {
    match step
    case Receive => ReceiverKeepsExclusive(s, n);
    case Poll(_) =>
    case Leave =>
    case Send(t, _) => if !s.recv.Gone? { ThreadKeepsExclusive(s, t, n); }
    case Drop(t) => ThreadKeepsExclusive(s, t, n);
    case Continue(t) => ThreadKeepsExclusive(s, t, n);
  }

  // ----- Each taken waker is woken once

  /** Whoever may hold a waker between taking it and waking it. */
  datatype Party = Rx | Tx(thread: Thread)

  function Held(s: Slot, p: Party): Option<nat> {
    match p
    case Rx =>
      if (s.recv.Unlocking? || s.recv.WakingItself?) && s.recv.held.Some? then Some(s.recv.held.value.token) else None
    case Tx(t) =>
      if Pc(s, t).Waking? then Some(Pc(s, t).waker.token)
      else if Pc(s, t).Clearing? && Pc(s, t).held.Some? then Some(Pc(s, t).held.value.token)
      else None
  }

  ghost predicate CellFresh(a: AtomicWaker) {
    && (a.cell.Some? ==> a.cell.value.token < a.stored && a.cell.value.token !in a.taken)
    && (forall x | x in a.taken :: x < a.stored)
  }

  ghost predicate NoTwice(woken: seq<nat>) {
    forall i, j | 0 <= i < j < |woken| :: woken[i] != woken[j]
  }

  ghost predicate Tokens(s: Slot) {
    && CellFresh(s.waker)
    && NoTwice(s.waker.woken)
    && (forall x | x in s.waker.woken :: x in s.waker.taken)
    && (forall p {:trigger Held(s, p)} | Held(s, p).Some? ::
          Held(s, p).value in s.waker.taken && Held(s, p).value !in s.waker.woken)
    && (forall p, q {:trigger Held(s, p), Held(s, q)} | p != q && Held(s, p).Some? && Held(s, q).Some? ::
          Held(s, p) != Held(s, q))
    && (forall x | x in s.waker.taken && x !in s.waker.woken :: exists p :: Held(s, p) == Some(x))
  }

  ghost predicate OthersHold(s: Slot, n: Slot, p: Party) {
    forall q {:trigger Held(n, q)} | q != p :: Held(n, q) == Held(s, q)
  }

  lemma TakeKeepsTokens(s: Slot, n: Slot, p: Party)
    requires Tokens(s) && Held(s, p).None? && OthersHold(s, n, p) && n.waker == TakeWaker(s.waker)
    requires Held(n, p) == if s.waker.cell.Some? then Some(s.waker.cell.value.token) else None
    ensures Tokens(n)
  {
    forall x | x in n.waker.taken && x !in n.waker.woken ensures exists q :: Held(n, q) == Some(x) {
      if x in s.waker.taken {
        var q :| Held(s, q) == Some(x);
        assert Held(n, q) == Some(x);
      } else {
        assert Held(n, p) == Some(x);
      }
    }
  }

  lemma WakeKeepsTokens(s: Slot, n: Slot, p: Party)
    requires Tokens(s) && Held(s, p).Some? && OthersHold(s, n, p) && Held(n, p).None?
    requires n.waker == s.waker.(woken := s.waker.woken + [Held(s, p).value])
    ensures Tokens(n)
  {
    forall x | x in n.waker.taken && x !in n.waker.woken ensures exists q :: Held(n, q) == Some(x) {
      assert x !in s.waker.woken;
      var q :| Held(s, q) == Some(x);
      assert Held(n, q) == Some(x);
    }
  }

  lemma SameHoldersKeepTokens(s: Slot, n: Slot, p: Party)
    requires Tokens(s) && OthersHold(s, n, p) && Held(n, p) == Held(s, p)
    requires n.waker.taken == s.waker.taken && n.waker.woken == s.waker.woken && CellFresh(n.waker)
    ensures Tokens(n)
  {
    forall x | x in n.waker.taken && x !in n.waker.woken ensures exists q :: Held(n, q) == Some(x) {
      var q :| Held(s, q) == Some(x);
      assert Held(n, q) == Some(x);
    }
  }

  lemma ReceiverHolds(s: Slot, n: Slot)
    requires n.senders == s.senders
    ensures OthersHold(s, n, Rx)
  {
    forall q | q != Rx ensures Held(n, q) == Held(s, q) {
      assert Pc(n, q.thread) == Pc(s, q.thread);
    }
  }

  lemma ThreadHolds(s: Slot, n: Slot, t: Thread)
    requires n.senders == s.senders[t := Pc(n, t)] && n.recv == s.recv
    ensures OthersHold(s, n, Tx(t))
  {
    forall q | q != Tx(t) ensures Held(n, q) == Held(s, q) {
      if q.Tx? {
        assert Pc(n, q.thread) == Pc(s, q.thread);
      }
    }
  }

  lemma ReceiverKeepsTokens(s: Slot, n: Slot)
    requires Tokens(s) && Enabled(s, Receive) && n == ReceiverNext(s)
    ensures Tokens(n)
  {
    ReceiverHolds(s, n);
    if s.recv.Reclaiming? {
      TakeKeepsTokens(s, n, Rx);
    } else if s.recv.WakingItself? && s.recv.held.Some? {
      WakeKeepsTokens(s, n, Rx);
    } else {
      SameHoldersKeepTokens(s, n, Rx);
    }
  }

  lemma ThreadKeepsTokens(s: Slot, t: Thread, n: Slot)
    requires Tokens(s) && n == ThreadNext(s, t) && !Pc(s, t).Resting?
    ensures Tokens(n)
  {
    ThreadHolds(s, n, t);
    if Pc(s, t).Taking? {
      TakeKeepsTokens(s, n, Tx(t));
    } else if Pc(s, t).Waking? {
      WakeKeepsTokens(s, n, Tx(t));
    } else {
      SameHoldersKeepTokens(s, n, Tx(t));
    }
  }

  lemma TokensKept(s: Slot, step: Step, n: Slot)
    requires Tokens(s) && Enabled(s, step) && n == Next(s, step)
    ensures Tokens(n)
  {
    match step
    case Receive => ReceiverKeepsTokens(s, n);
    case Continue(t) => ThreadKeepsTokens(s, t, n);
    case Send(t, _) =>
      if !s.recv.Gone? {
        ThreadHolds(s, n, t);
        SameHoldersKeepTokens(s, n, Tx(t));
      }
    case Drop(t) =>
      ThreadHolds(s, n, t);
      SameHoldersKeepTokens(s, n, Tx(t));
    case _ =>
      ReceiverHolds(s, n);
      SameHoldersKeepTokens(s, n, Rx);
  }

  // ----- Delivery

  /** Values are read in the order they were stored, each at most once; an empty slot has been read to the end. */
  ghost predicate InOrder(m: Mail) {
    && |m.got| == |m.read|
    && (forall i | 0 <= i < |m.read| :: m.read[i] < |m.sent| && m.got[i] == m.sent[m.read[i]])
    && (forall i, j | 0 <= i < j < |m.read| :: m.read[i] < m.read[j])
    && (m.value != EMPTY ==>
          && m.sent != [] && m.value == m.sent[|m.sent| - 1]
          && (m.read == [] || m.read[|m.read| - 1] < |m.sent| - 1))
    && (m.value == EMPTY && m.sent != [] ==> m.read != [] && m.read[|m.read| - 1] == |m.sent| - 1)
  }

  /** Once closed, nothing is stored any more; a poll that saw the slot closed and found nothing is final. */
  ghost predicate ClosedOk(s: Slot) {
    && (forall t | t in s.senders && s.senders[t].Storing? :: !s.mail.closed && s.senders[t].value < EMPTY)
    && ((s.recv.SecondLoad? || s.recv.SecondSwap?) && s.recv.closed ==> s.mail.closed)
    && (s.ended ==> s.mail.closed && s.mail.value == EMPTY)
  }

  lemma StoreInOrder(m: Mail, v: nat)
    requires InOrder(m) && v < EMPTY
    ensures InOrder(StoreValue(m, v))
  {
  }

  lemma ReadInOrder(m: Mail)
    requires InOrder(m)
    ensures InOrder(ReadValue(m))
  {
  }

  /** What one step may do to the mail. */
  ghost predicate MailStep(m: Mail, n: Mail, storing: Option<nat>) {
    || n == m
    || n == ReadValue(m)
    || n == m.(closed := true)
    || (storing.Some? && n == StoreValue(m, storing.value))
  }

  function StoringBy(s: Slot, step: Step): Option<nat> {
    if step.Continue? && Pc(s, step.thread).Storing? then Some(Pc(s, step.thread).value) else None
  }

  lemma MailSteps(s: Slot, step: Step, n: Slot)
    requires Enabled(s, step) && n == Next(s, step)
    ensures MailStep(s.mail, n.mail, StoringBy(s, step))
  {
  }

  lemma MailStepKeepsOrder(m: Mail, n: Mail, storing: Option<nat>)
    requires InOrder(m) && MailStep(m, n, storing) && (storing.Some? ==> storing.value < EMPTY)
    ensures InOrder(n)
  {
    ReadInOrder(m);
    if storing.Some? {
      StoreInOrder(m, storing.value);
    }
  }

  lemma InOrderKept(s: Slot, step: Step, n: Slot)
    requires InOrder(s.mail) && ClosedOk(s) && Enabled(s, step) && n == Next(s, step)
    ensures InOrder(n.mail)
  {
    MailSteps(s, step, n);
    MailStepKeepsOrder(s.mail, n.mail, StoringBy(s, step));
  }

  lemma ReceiverKeepsClosed(s: Slot, n: Slot)
    requires ClosedOk(s) && Enabled(s, Receive) && n == ReceiverNext(s)
    ensures ClosedOk(n)
  {
    assert n.senders == s.senders && n.mail.closed == s.mail.closed;
  }

  lemma ClosedKept(s: Slot, step: Step, n: Slot)
    requires ClosedOk(s) && Enabled(s, step) && n == Next(s, step)
    ensures ClosedOk(n)
  {
    match step
    case Receive => ReceiverKeepsClosed(s, n);
    case Continue(t) =>
      assert forall u | u in n.senders && n.senders[u].Storing? :: u in s.senders && s.senders[u] == n.senders[u];
    case _ =>
  }

  // ----- No wake-up is lost

  predicate Registered(pc: RecvPc) { pc.ReadingClosed? || pc.SecondLoad? || pc.SecondSwap? || pc.Parked? }

  predicate InCell(s: Slot, task: Task) { s.waker.cell.Some? && s.waker.cell.value.task == task }

  predicate HeldFor(pc: SendPc, task: Task) {
    (pc.Waking? && pc.waker.task == task) || (pc.Clearing? && pc.held.Some? && pc.held.value.task == task)
  }

  /** The thread will wake the task, by its own remaining steps. */
  predicate WillWake(s: Slot, t: Thread, task: Task) {
    Pc(s, t).Announcing? || (Pc(s, t).Taking? && InCell(s, task)) || HeldFor(Pc(s, t), task)
  }

  ghost predicate NobodyClears(senders: map<Thread, SendPc>) {
    forall t | t in senders :: !senders[t].Clearing?
  }

  ghost predicate SomeoneHolds(senders: map<Thread, SendPc>, task: Task) {
    exists t :: t in senders && HeldFor(senders[t], task)
  }

  /** The waker of a registered poll that was not notified waits in the cell or is about to be woken. */
  ghost predicate Armed(s: Slot) {
    Registered(s.recv) && !s.notified ==>
      (InCell(s, s.recv.task) && NobodyClears(s.senders)) || SomeoneHolds(s.senders, s.recv.task)
  }

  /** While `register` owns the cell, its own waker is in it or in hand. */
  ghost predicate Registers(s: Slot) {
    && (s.recv.Finishing? || s.recv.Reclaiming? ==> InCell(s, s.recv.task))
    && (s.recv.Unlocking? || s.recv.WakingItself? ==> s.recv.held.Some? && s.recv.held.value.task == s.recv.task)
  }

  /** There is something to tell the receiver that its poll has missed, or will miss. */
  predicate Missed(s: Slot) {
    || (s.recv.Parked? && (s.mail.value != EMPTY || s.mail.closed))
    || ((s.recv.SecondLoad? || s.recv.SecondSwap?) && !s.recv.closed && s.mail.closed)
  }

  ghost predicate SomeoneWillWake(s: Slot, task: Task) {
    exists t :: t in s.senders && WillWake(s, t, task)
  }

  ghost predicate NoLostWakeUp(s: Slot) {
    Missed(s) && !s.notified ==> SomeoneWillWake(s, s.recv.task)
  }

  ghost predicate Wakes(s: Slot) { Registers(s) && Armed(s) && NoLostWakeUp(s) }

  lemma NobodyOwnsNobodyClears(s: Slot)
    requires Exclusive(s) && s.waker.state != WAKING
    ensures NobodyClears(s.senders)
  {
  }

  lemma ReceiverKeepsRegisters(s: Slot, n: Slot)
    requires Exclusive(s) && Registers(s) && Enabled(s, Receive) && n == ReceiverNext(s)
    ensures Registers(n)
  {
  }

  lemma ReceiverKeepsArmed(s: Slot, n: Slot)
    requires Exclusive(s) && Registers(s) && Armed(s) && Enabled(s, Receive) && n == ReceiverNext(s)
    ensures Armed(n)
  {
    if s.recv.Finishing? && s.waker.state == REGISTERING {
      NobodyOwnsNobodyClears(s);
    }
  }

  lemma ReceiverKeepsWakeUp(s: Slot, n: Slot)
    requires NoLostWakeUp(s) && Enabled(s, Receive) && n == ReceiverNext(s)
    ensures NoLostWakeUp(n)
  {
    if s.recv.SecondLoad? || s.recv.SecondSwap? {
      if SomeoneWillWake(s, s.recv.task) && n.recv.Parked? {
        var t :| t in s.senders && WillWake(s, t, s.recv.task);
        assert WillWake(n, t, s.recv.task);
      }
    }
  }

  lemma StillHeld(senders: map<Thread, SendPc>, t: Thread, pc: SendPc, task: Task)
    requires SomeoneHolds(senders, task)
    requires t in senders && HeldFor(senders[t], task) ==> HeldFor(pc, task)
    ensures SomeoneHolds(senders[t := pc], task)
  {
    var u :| u in senders && HeldFor(senders[u], task);
    assert u in senders[t := pc] && HeldFor(senders[t := pc][u], task);
  }

  /** What an armed, unnotified poll knows of its waker. */
  ghost predicate ArmedFor(s: Slot, task: Task) {
    (InCell(s, task) && NobodyClears(s.senders)) || SomeoneHolds(s.senders, task)
  }

  lemma ThreadKeepsArmed(s: Slot, t: Thread, n: Slot, task: Task)
    requires Exclusive(s) && ArmedFor(s, task) && n == ThreadNext(s, t) && !Pc(s, t).Resting?
    requires Pc(s, t).Waking? ==> Pc(s, t).waker.task != task
    ensures ArmedFor(n, task)
  {
    assert Pc(s, t) == s.senders[t];
    if SomeoneHolds(s.senders, task) {
      StillHeld(s.senders, t, Pc(n, t), task);
    } else if Pc(s, t).Taking? {
      assert HeldFor(n.senders[t], task);
    }
  }

  /** An announced wake of an armed poll reaches its waker, through this thread or the one that owns the cell. */
  lemma AnnouncedReaches(s: Slot, t: Thread, n: Slot, task: Task)
    requires Exclusive(s) && ArmedFor(s, task) && !ReceiverOwns(s.recv)
    requires Pc(s, t).Announcing? && n == ThreadNext(s, t)
    ensures SomeoneWillWake(n, task)
  {
    if SomeoneHolds(s.senders, task) {
      var u :| u in s.senders && HeldFor(s.senders[u], task);
      assert u in n.senders && WillWake(n, u, task);
    } else if s.waker.state == WAITING {
      assert t in n.senders && WillWake(n, t, task);
    } else {
      var u :| u in s.senders && ThreadOwns(s.senders[u]);
      assert u in n.senders && WillWake(n, u, task);
    }
  }

  lemma ThreadKeepsWakeUp(s: Slot, t: Thread, n: Slot, task: Task)
    requires Exclusive(s) && ArmedFor(s, task) && !ReceiverOwns(s.recv) && SomeoneWillWake(s, task)
    requires n == ThreadNext(s, t) && !Pc(s, t).Resting?
    requires Pc(s, t).Waking? ==> Pc(s, t).waker.task != task
    ensures SomeoneWillWake(n, task)
  {
    var u :| u in s.senders && WillWake(s, u, task);
    assert t in n.senders;
    if Pc(s, t).Announcing? {
      AnnouncedReaches(s, t, n, task);
    } else if Pc(s, t).Storing? {
      assert WillWake(n, t, task);
    } else if u == t {
      assert WillWake(n, t, task);
    } else {
      assert ThreadOwns(s.senders[t]) ==> !ThreadOwns(s.senders[u]);
      assert Pc(n, u) == Pc(s, u) && WillWake(n, u, task);
    }
  }

  lemma ThreadKeepsRegisters(s: Slot, t: Thread, n: Slot)
    requires Exclusive(s) && Registers(s) && n == ThreadNext(s, t) && !Pc(s, t).Resting?
    ensures Registers(n)
  {
    assert Pc(s, t) == s.senders[t];
  }

  lemma ThreadKeepsWakes(s: Slot, t: Thread, n: Slot)
    requires Exclusive(s) && Wakes(s) && n == ThreadNext(s, t) && !Pc(s, t).Resting?
    ensures Wakes(n)
  {
    ThreadKeepsRegisters(s, t, n);
    if Registered(s.recv) && !n.notified {
      ThreadKeepsArmed(s, t, n, s.recv.task);
      if Missed(s) {
        ThreadKeepsWakeUp(s, t, n, s.recv.task);
      } else if Missed(n) {
        assert Pc(s, t).Storing?;
        assert t in n.senders && WillWake(n, t, s.recv.task);
      }
    }
  }

  lemma ArmedAnyway(s: Slot, t: Thread, pc: SendPc, n: Slot, task: Task)
    requires ArmedFor(s, task) && Pc(s, t).Resting? && !pc.Clearing?
    requires n.senders == s.senders[t := pc] && n.waker == s.waker
    ensures ArmedFor(n, task)
  {
    if SomeoneHolds(s.senders, task) {
      StillHeld(s.senders, t, pc, task);
    }
  }

  lemma SenderKeepsWakes(s: Slot, step: Step, n: Slot)
    requires Wakes(s) && Enabled(s, step) && (step.Send? || step.Drop?) && n == Next(s, step)
    ensures Wakes(n)
  {
    var t := step.thread;
    if Registered(s.recv) && !s.notified {
      if n != s {
        ArmedAnyway(s, t, Pc(n, t), n, s.recv.task);
      }
      if Missed(n) {
        if step.Drop? {
          assert t in n.senders && WillWake(n, t, s.recv.task);
        } else if n != s {
          var u :| u in s.senders && WillWake(s, u, s.recv.task);
          assert u in n.senders && WillWake(n, u, s.recv.task);
        }
      }
    }
  }

  lemma WakesKept(s: Slot, step: Step, n: Slot)
    requires Exclusive(s) && Wakes(s) && Enabled(s, step) && n == Next(s, step)
    ensures Wakes(n)
  {
    match step
    case Receive =>
      ReceiverKeepsRegisters(s, n);
      ReceiverKeepsArmed(s, n);
      ReceiverKeepsWakeUp(s, n);
    case Continue(t) => ThreadKeepsWakes(s, t, n);
    case Poll(_) =>
    case Leave =>
    case _ => SenderKeepsWakes(s, step, n);
  }
}
