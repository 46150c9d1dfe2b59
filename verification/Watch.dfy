/**
 The watch channel, which keeps the latest value for any number of receivers, as an interleaving of
 its steps: taking and leaving the value lock, every atomic access to the state word, and every
 registration and notification of a listener. Publishing threads share one sender.
 */
module Watch {
  import opened Wrappers

  type Thread = nat
  type ReceiverId = nat
  type Value = nat

  const CLOSED: nat := 1
  const STEP: nat := 2
  const WORD: nat := 0x1_0000_0000_0000_0000

  /** Where a publishing thread is; it holds the lock from `Bumping` to `Unlocking`. */
  datatype SendPc =
    | Resting
    | Locking(value: Value)
    | Bumping(value: Value)
    | Replacing(value: Value)
    | Unlocking
    | Notifying

  /** What a read or a wait is for: `borrow`, `borrow_and_update` or `changed`, `wait_for`, or a stream. */
  datatype Purpose = Peek | Plain | Testing | Yielding

  /** Where a receiver is; it holds the lock from `Loading` or `Cloning` to `Leaving`. */
  datatype RecvPc =
    | Idle
    | Seeking(purpose: Purpose)
    | Loading(purpose: Purpose)
    | Cloning(purpose: Purpose)
    | Leaving(purpose: Purpose)
    | Judging
    | Yielded
    | Checking(purpose: Purpose)
    | Listening(purpose: Purpose)
    | Waiting(purpose: Purpose)
    | Ended(purpose: Purpose)

  /** What the test of a `wait_for` said of a publication; a test may change its mind from call to call. */
  datatype Verdict = Verdict(publication: nat, accepted: bool)

  /**
   `seen` is the version marked as seen, `marked` the publication it stood for. `read` holds the
   publications read, in order, `tested` the verdicts on those that a `wait_for` read, `returned` what a
   `wait_for` returned, and `yielded` what the stream, if it is one, yielded. `listener`: registered, and whether it
   was notified.
   */
  datatype Receiver = Receiver(
    seen: nat,
    marked: nat,
    read: seq<nat>,
    tested: seq<Verdict>,
    returned: seq<nat>,
    yielded: seq<nat>,
    listener: Option<bool>,
    pc: RecvPc)

  function Fresh(seen: nat, marked: nat): Receiver { Receiver(seen, marked, [], [], [], [], None, Idle) }

  datatype Party = Tx(thread: Thread) | Rx(receiver: ReceiverId)

  /** `published` holds every value that was in the slot, the initial one first; `bumps` counts version bumps. */
  datatype Watch = Watch(
    lock: Option<Party>,
    state: nat,
    bumps: nat,
    published: seq<Value>,
    senders: map<Thread, SendPc>,
    receivers: map<ReceiverId, Receiver>)

  function Channel(initial: Value, r: ReceiverId): Watch {
    Watch(None, 0, 0, [initial], map[], map[r := Fresh(0, 0)])
  }

  function Pc(w: Watch, t: Thread): SendPc { if t in w.senders then w.senders[t] else Resting }

  predicate IsClosed(w: Watch) { w.state % STEP == CLOSED }

  function Version(w: Watch): nat { if IsClosed(w) then w.state - CLOSED else w.state }

  /** The version after `n` publications; it wraps. */
  function VersionOf(n: nat): nat { (STEP * n) % WORD }

  datatype Step =
    | Send(thread: Thread, value: Value)
    | Drop(thread: Thread)
    | Continue(thread: Thread)
    | Read(receiver: ReceiverId, purpose: Purpose)
    | Await(receiver: ReceiverId)
    | PollStream(receiver: ReceiverId)
    | Mark(receiver: ReceiverId)
    | Advance(receiver: ReceiverId)
    | Judge(receiver: ReceiverId, accepted: bool)
    | Repoll(receiver: ReceiverId)
    | Cancel(receiver: ReceiverId)
    | CloneReceiver(receiver: ReceiverId, copy: ReceiverId)
    | Subscribe(copy: ReceiverId)

  predicate Enabled(w: Watch, step: Step) {
    match step
    case Send(t, _) => !IsClosed(w) && Pc(w, t).Resting?
    case Drop(_) => !IsClosed(w) && forall t | t in w.senders :: w.senders[t].Resting?
    case Continue(t) => !Pc(w, t).Resting? && (Pc(w, t).Locking? ==> w.lock.None?)
    case Read(r, _) => r in w.receivers && Free(w.receivers[r].pc)
    case Await(r) => r in w.receivers && Free(w.receivers[r].pc)
    case PollStream(r) => r in w.receivers && w.receivers[r].pc.Yielded?
    case Mark(r) => r in w.receivers && Free(w.receivers[r].pc)
    case Advance(r) => r in w.receivers && CanAdvance(w, w.receivers[r])
    case Judge(r, _) => r in w.receivers && w.receivers[r].pc.Judging?
    case Repoll(r) => r in w.receivers && w.receivers[r].pc.Waiting?
    case Cancel(r) => r in w.receivers && w.receivers[r].pc.Waiting?
    case CloneReceiver(r, copy) => r in w.receivers && Free(w.receivers[r].pc) && copy !in w.receivers
    case Subscribe(copy) => !IsClosed(w) && copy !in w.receivers
  }

  /** No call is in progress. */
  predicate Free(pc: RecvPc) { pc.Idle? || pc.Ended? }

  predicate CanAdvance(w: Watch, x: Receiver) {
    || (x.pc.Seeking? && w.lock.None?)
    || x.pc.Loading? || x.pc.Cloning? || x.pc.Leaving? || x.pc.Checking? || x.pc.Listening?
    || (x.pc.Waiting? && x.listener == Some(true))
  }

  /** Notify every registered listener. */
  function NotifyAll(receivers: map<ReceiverId, Receiver>): map<ReceiverId, Receiver> {
    map r | r in receivers ::
      if receivers[r].listener.Some? then receivers[r].(listener := Some(true)) else receivers[r]
  }

  function ThreadNext(w: Watch, t: Thread): Watch {
    var go := (pc: SendPc) => w.senders[t := pc];
    match Pc(w, t)
    case Resting => w
    case Locking(v) => w.(lock := Some(Tx(t)), senders := go(Bumping(v)))
    case Bumping(v) => w.(state := (w.state + STEP) % WORD, bumps := w.bumps + 1, senders := go(Replacing(v)))
    case Replacing(v) => w.(published := w.published + [v], senders := go(Unlocking))
    case Unlocking => w.(lock := None, senders := go(Notifying))
    case Notifying => w.(receivers := NotifyAll(w.receivers), senders := go(Resting))
  }

  /** Mark the current version as seen. */
  function MarkSeen(w: Watch, x: Receiver): Receiver { x.(seen := Version(w), marked := w.bumps) }

  /** What `poll_state` decides: news is marked as seen, then the close counts, then there is nothing to return. */
  function Check(w: Watch, x: Receiver, purpose: Purpose): Receiver {
    if Version(w) != x.seen then
      MarkSeen(w, x).(listener := None, pc := if purpose.Plain? then Idle else Seeking(purpose))
    else if IsClosed(w) then x.(listener := None, pc := Ended(purpose))
    else x.(pc := if x.listener.None? then Listening(purpose) else Waiting(purpose))
  }

  function AfterRead(purpose: Purpose): RecvPc {
    match purpose
    case Testing => Judging
    case Yielding => Yielded
    case _ => Idle
  }

  function ReceiverNext(w: Watch, x: Receiver): Receiver {
    match x.pc
    case Seeking(p) => x.(pc := if p.Peek? then Cloning(p) else Loading(p))
    case Loading(p) => MarkSeen(w, x).(pc := Cloning(p))
    case Cloning(p) => x.(read := x.read + [if |w.published| > 0 then |w.published| - 1 else 0], pc := Leaving(p))
    case Leaving(p) =>
      x.(pc := AfterRead(p), yielded := if p.Yielding? then x.yielded + [LastRead(x)] else x.yielded)
    case Checking(p) => Check(w, x, p)
    case Listening(p) => x.(listener := Some(false), pc := Checking(p))
    case Waiting(p) => x.(listener := None, pc := Checking(p))
    case _ => x
  }

  function LastRead(x: Receiver): nat { if x.read == [] then 0 else x.read[|x.read| - 1] }

  /** A stream begins anew with every call that makes one. */
  function Begun(x: Receiver, purpose: Purpose): Receiver {
    x.(pc := Seeking(purpose), yielded := if purpose.Yielding? then [] else x.yielded)
  }

  /** The test was asked about the value read last; an accepted one is returned. */
  function Judged(x: Receiver, accepted: bool): Receiver {
    var y := x.(tested := x.tested + [Verdict(LastRead(x), accepted)]);
    if accepted then y.(returned := x.returned + [LastRead(x)], pc := Idle) else y.(pc := Checking(Testing))
  }

  function LockAfter(w: Watch, r: ReceiverId, pc: RecvPc): Option<Party> {
    if pc.Seeking? then Some(Rx(r)) else if pc.Leaving? then None else w.lock
  }

  function Put(w: Watch, r: ReceiverId, x: Receiver): Watch { w.(receivers := w.receivers[r := x]) }

  function Next(w: Watch, step: Step): Watch
    requires Enabled(w, step)
  {
    match step
    case Send(t, v) => w.(senders := w.senders[t := Locking(v)])
    case Drop(t) => w.(state := w.state + CLOSED, senders := w.senders[t := Notifying])
    case Continue(t) => ThreadNext(w, t)
    case Read(r, purpose) => Put(w, r, Begun(w.receivers[r], purpose))
    case Await(r) => Put(w, r, w.receivers[r].(pc := Checking(Plain)))
    case PollStream(r) => Put(w, r, w.receivers[r].(pc := Checking(Yielding)))
    case Mark(r) => Put(w, r, MarkSeen(w, w.receivers[r]).(pc := Idle))
    case Advance(r) =>
      Put(w, r, ReceiverNext(w, w.receivers[r])).(lock := LockAfter(w, r, w.receivers[r].pc))
    case Judge(r, accepted) => Put(w, r, Judged(w.receivers[r], accepted))
    case Repoll(r) => Put(w, r, w.receivers[r].(pc := Checking(w.receivers[r].pc.purpose)))
    case Cancel(r) => Put(w, r, w.receivers[r].(listener := None, pc := Idle))
    case CloneReceiver(r, copy) => Put(w, copy, Fresh(w.receivers[r].seen, w.receivers[r].marked))
    case Subscribe(copy) => Put(w, copy, Fresh(Version(w), w.bumps))
  }
}
