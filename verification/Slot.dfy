/**
 The lock-free latest-value slot and the atomic waker it parks its receiver with, as an interleaving
 of their atomic steps: one receiver, any number of threads sending through the shared sender.

 Every atomic operation, and every access to the waker cell, is one sequentially consistent step.
 A waker is known by the task it wakes; its token tells clones of it apart.
 */
module Slot {
  import opened Wrappers
  import opened Numbers

  const EMPTY: nat := U64_MAX

  // The states of the atomic waker: bit 0 for a `register`, bit 1 for a `wake`.
  const WAITING: nat := 0
  const REGISTERING: nat := 1
  const WAKING: nat := 2

  type Thread = nat
  type Task = nat

  datatype Waker = Waker(task: Task, token: nat)

  /**
   Where a sending thread is: about to store, to announce the wake, to take the waker, to let go of it, to wake
   it.
   */
  datatype SendPc =
    | Resting
    | Storing(value: nat)
    | Announcing
    | Taking
    | Clearing(held: Option<Waker>)
    | Waking(waker: Waker)

  /** Where the receiver is in `poll_recv`, and in `register` within it. */
  datatype RecvPc =
    | Idle
    | FirstLoad(task: Task)
    | FirstSwap(task: Task)
    | Claiming(task: Task)
    | Registering(task: Task)
    | Finishing(task: Task)
    | Reclaiming(task: Task)
    | Unlocking(task: Task, held: Option<Waker>)
    | WakingItself(task: Task, held: Option<Waker>)
    | WakingDirectly(task: Task)
    | ReadingClosed(task: Task)
    | SecondLoad(task: Task, closed: bool)
    | SecondSwap(task: Task, closed: bool)
    | Parked(task: Task)
    | Gone

  /**
   The atomic waker. `stored` is the number of clones made so far, `taken` holds the tokens taken from
   the cell, `woken` those woken, in order.
   */
  datatype AtomicWaker = AtomicWaker(state: nat, cell: Option<Waker>, stored: nat, taken: set<nat>, woken: seq<nat>)

  /** The slot's value; `sent` holds every value stored, `got` every value read, `read` when each was stored. */
  datatype Mail = Mail(value: nat, closed: bool, sent: seq<nat>, got: seq<nat>, read: seq<nat>)

  /**
   `notified`: the task of the current or parked poll was woken since that poll began. `ended`: a poll
   said that the slot is closed and drained.
   */
  datatype Slot = Slot(mail: Mail, waker: AtomicWaker, recv: RecvPc, senders: map<Thread, SendPc>, notified: bool,
      ended: bool)

  function Channel(): Slot {
    Slot(Mail(EMPTY, false, [], [], []), AtomicWaker(WAITING, None, 0, {}, []), Idle, map[], false, false)
  }

  function Pc(s: Slot, t: Thread): SendPc { if t in s.senders then s.senders[t] else Resting }

  function Go(s: Slot, t: Thread, pc: SendPc): Slot { s.(senders := s.senders[t := pc]) }

  predicate Polling(pc: RecvPc) { !pc.Idle? && !pc.Gone? }

  predicate Quiet(pc: RecvPc) { pc.Idle? || pc.Parked? }

  function OrWaking(state: nat): nat { if (state / 2) % 2 == 1 then state else state + 2 }

  function AndNotWaking(state: nat): nat { if (state / 2) % 2 == 1 then state - 2 else state }

  function TokenOf(w: Option<Waker>): set<nat> { if w.Some? then {w.value.token} else {} }

  /** Wake a waker: its token is spent, and the receiver's task is notified if it is its own. */
  function WakeUp(s: Slot, w: Waker): Slot {
    s.(waker := s.waker.(woken := s.waker.woken + [w.token]),
       notified := s.notified || (Polling(s.recv) && s.recv.task == w.task))
  }

  /** Take the waker out of the cell. */
  function TakeWaker(a: AtomicWaker): AtomicWaker {
    a.(cell := None, taken := a.taken + TokenOf(a.cell))
  }

  /** Keep a clone of the task's waker in the cell, unless it already holds one. */
  function StoreWaker(a: AtomicWaker, task: Task): AtomicWaker {
    if a.cell.Some? && a.cell.value.task == task then a
    else a.(cell := Some(Waker(task, a.stored)), stored := a.stored + 1)
  }

  /** Read the slot's value, the last one stored, and empty it. */
  function ReadValue(m: Mail): Mail {
    if m.value == EMPTY then m
    else m.(value := EMPTY, got := m.got + [m.value], read := m.read + [if |m.sent| > 0 then |m.sent| - 1 else 0])
  }

  function StoreValue(m: Mail, v: nat): Mail { m.(value := v, sent := m.sent + [v]) }

  datatype Step =
    | Send(thread: Thread, value: nat)
    | Drop(thread: Thread)
    | Continue(thread: Thread)
    | Poll(task: Task)
    | Receive
    | Leave

  predicate Enabled(s: Slot, step: Step) {
    match step
    case Send(t, v) => !s.mail.closed && Pc(s, t).Resting? && v < EMPTY
    case Drop(_) => !s.mail.closed && forall t | t in s.senders :: s.senders[t].Resting?
    case Continue(t) => !Pc(s, t).Resting?
    case Poll(_) => Quiet(s.recv)
    case Receive => Polling(s.recv) && !s.recv.Parked?
    case Leave => Quiet(s.recv)
  }

  /** The receiver's next atomic step. */
  function ReceiverNext(s: Slot): Slot
    requires Polling(s.recv) && !s.recv.Parked?
  {
    match s.recv
    case FirstLoad(task) => s.(recv := if s.mail.value == EMPTY then Claiming(task) else FirstSwap(task))
    case FirstSwap(task) =>
      s.(mail := ReadValue(s.mail), recv := if s.mail.value == EMPTY then Claiming(task) else Idle)
    case Claiming(task) =>
      if s.waker.state == WAITING then s.(waker := s.waker.(state := REGISTERING), recv := Registering(task))
      else if s.waker.state == WAKING then s.(recv := WakingDirectly(task))
      else s.(recv := ReadingClosed(task))
    case Registering(task) => s.(waker := StoreWaker(s.waker, task), recv := Finishing(task))
    case Finishing(task) =>
      if s.waker.state == REGISTERING then s.(waker := s.waker.(state := WAITING), recv := ReadingClosed(task))
      else s.(recv := Reclaiming(task))
    case Reclaiming(task) => s.(waker := TakeWaker(s.waker), recv := Unlocking(task, s.waker.cell))
    case Unlocking(task, held) => s.(waker := s.waker.(state := WAITING), recv := WakingItself(task, held))
    case WakingItself(task, held) =>
      (if held.Some? then WakeUp(s, held.value) else s).(recv := ReadingClosed(task))
    case WakingDirectly(task) => s.(notified := true, recv := ReadingClosed(task))
    case ReadingClosed(task) => s.(recv := SecondLoad(task, s.mail.closed))
    case SecondLoad(task, closed) =>
      if s.mail.value != EMPTY then s.(recv := SecondSwap(task, closed)) else NothingRead(s, task, closed)
    case SecondSwap(task, closed) =>
      if s.mail.value != EMPTY then s.(mail := ReadValue(s.mail), recv := Idle) else NothingRead(s, task, closed)
    case _ => s
  }

  function NothingRead(s: Slot, task: Task, closed: bool): Slot {
    if closed then s.(recv := Idle, ended := true) else s.(recv := Parked(task))
  }

  /** A sending thread's next atomic step, if it has one. */
  function ThreadNext(s: Slot, t: Thread): Slot {
    match Pc(s, t)
    case Resting => s
    case Storing(v) => Go(s, t, Announcing).(mail := StoreValue(s.mail, v))
    case Announcing =>
      Go(s, t, if s.waker.state == WAITING then Taking else Resting).(
        waker := s.waker.(state := OrWaking(s.waker.state)))
    case Taking => Go(s, t, Clearing(s.waker.cell)).(waker := TakeWaker(s.waker))
    case Clearing(held) =>
      Go(s, t, if held.Some? then Waking(held.value) else Resting).(
        waker := s.waker.(state := AndNotWaking(s.waker.state)))
    case Waking(w) => WakeUp(Go(s, t, Resting), w)
  }

  function Next(s: Slot, step: Step): Slot
    requires Enabled(s, step)
  {
    match step
    case Send(t, v) => if s.recv.Gone? then s else Go(s, t, Storing(v))
    case Drop(t) => Go(s, t, Announcing).(mail := s.mail.(closed := true))
    case Continue(t) => ThreadNext(s, t)
    case Poll(task) => s.(recv := FirstLoad(task), notified := false)
    case Receive => ReceiverNext(s)
    case Leave => s.(recv := Gone)
  }
}
