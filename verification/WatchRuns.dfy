/**
 Every run of the watch channel: any number of publishing threads and receivers, in any interleaving.
 */
module WatchRuns {
  import opened Wrappers
  import opened Watch
  import opened WatchLaws

  ghost predicate Inv(w: Watch) { LockOk(w) && ValueOk(w) && ReceiversOk(w) }

  ghost predicate Steps(w: Watch, step: Step, n: Watch) { Enabled(w, step) && n == Next(w, step) }

  ghost predicate SomeStep(w: Watch, n: Watch) { exists step :: Steps(w, step, n) }

  ghost predicate StepAt(run: seq<Watch>, i: nat)
    requires i + 1 < |run|
  {
    SomeStep(run[i], run[i + 1])
  }

  ghost predicate IsRun(initial: Value, first: ReceiverId, run: seq<Watch>) {
    run != [] && run[0] == Channel(initial, first) && forall i: nat | i + 1 < |run| :: StepAt(run, i)
  }

  lemma StepKeepsInv(w: Watch, step: Step, n: Watch)
    requires Inv(w) && Steps(w, step, n)
    ensures Inv(n)
  {
    LockKept(w, step, n);
    ValueKept(w, step, n);
    ReceiversKept(w, step, n);
  }

  lemma {:induction false} RunKeepsInv(initial: Value, first: ReceiverId, run: seq<Watch>, i: nat)
    requires IsRun(initial, first, run) && i < |run|
    ensures Inv(run[i])
  {
    if i > 0 {
      RunKeepsInv(initial, first, run, i - 1);
      assert StepAt(run, i - 1);
      var step :| Steps(run[i - 1], step, run[i]);
      StepKeepsInv(run[i - 1], step, run[i]);
    }
  }

  /** Two versions are told apart exactly when the publications between them are no multiple of 2^63. */
  lemma ToldApartIff(earlier: nat, later: nat)
    requires earlier <= later
    ensures VersionOf(earlier) != VersionOf(later) <==> (later - earlier) % (WORD / STEP) != 0
  {
    var apart := later - earlier;
    assert VersionOf(later) == VersionOf(earlier) <==> (STEP * apart) % WORD == 0;
  }

  /** A receiver's successive reads never go back to an older publication. */
  lemma ReadsNeverGoBack(initial: Value, first: ReceiverId, run: seq<Watch>, i: nat, r: ReceiverId)
    requires IsRun(initial, first, run) && i < |run| && r in run[i].receivers
    ensures var read := run[i].receivers[r].read;
            && (forall j | 0 <= j < |read| :: read[j] < |run[i].published|)
            && (forall j, k | 0 <= j < k < |read| :: read[j] <= read[k])
  {
    RunKeepsInv(initial, first, run, i);
    assert RecvAt(run[i], r);
  }

  /** Whoever reads under the lock finds the newest publication, and it is no older than any version marked as seen. */
  lemma MarksAreNeverAhead(initial: Value, first: ReceiverId, run: seq<Watch>, i: nat, r: ReceiverId)
    requires IsRun(initial, first, run) && i < |run| && r in run[i].receivers && run[i].receivers[r].pc.Cloning?
    ensures run[i].published != [] && |run[i].published| - 1 == run[i].bumps
    ensures run[i].receivers[r].marked <= |run[i].published| - 1
  {
    RunKeepsInv(initial, first, run, i);
    assert RecvAt(run[i], r);
  }

  /**
   With fewer than 2^63 publications, `Closed` means that the sender is gone, that the last publication
   was marked as seen, and that whoever follows the values has read it.
   */
  lemma ClosedComesLast(initial: Value, first: ReceiverId, run: seq<Watch>, i: nat, r: ReceiverId)
    requires IsRun(initial, first, run) && i < |run| && r in run[i].receivers && run[i].receivers[r].pc.Ended?
    requires run[i].bumps < WORD / STEP
    ensures IsClosed(run[i]) && run[i].receivers[r].marked == |run[i].published| - 1
    ensures var x := run[i].receivers[r];
            Follows(x.pc.purpose) ==> x.read != [] && x.read[|x.read| - 1] == |run[i].published| - 1
  {
    RunKeepsInv(initial, first, run, i);
    assert RecvAt(run[i], r);
    EndedIsLast(run[i], run[i].receivers[r]);
  }

  lemma EndedIsLast(w: Watch, x: Receiver)
    requires ValueOk(w) && LockOk(w) && RecvOk(w, x) && x.pc.Ended? && w.bumps < WORD / STEP
    ensures IsClosed(w) && x.marked == w.bumps == |w.published| - 1
    ensures Follows(x.pc.purpose) ==> x.read != [] && x.read[|x.read| - 1] == |w.published| - 1
  {
    ToldApartIff(x.marked, w.bumps);
  }

  /** A parked receiver that has news was notified, or a publication or the close is about to notify it. */
  lemma NewsReachesTheParked(initial: Value, first: ReceiverId, run: seq<Watch>, i: nat, r: ReceiverId)
    requires IsRun(initial, first, run) && i < |run| && r in run[i].receivers && run[i].receivers[r].pc.Waiting?
    requires HasNews(run[i], run[i].receivers[r])
    ensures run[i].receivers[r].listener == Some(true) || AboutToNotify(run[i])
  {
    RunKeepsInv(initial, first, run, i);
    assert RecvAt(run[i], r);
  }

  // ----- What a wait is told

  /** The test always says the same of the same value. */
  ghost predicate Agrees(x: Receiver, published: seq<Value>, test: Value -> bool) {
    forall v | v in x.tested && v.publication < |published| :: v.accepted <==> test(published[v.publication])
  }

  lemma {:induction false} AcceptedWere(tested: seq<Verdict>, publication: nat)
    requires publication in Accepted(tested)
    ensures Verdict(publication, true) in tested
  {
    var front, last := tested[..|tested| - 1], tested[|tested| - 1];
    if !(last.accepted && last.publication == publication) {
      AcceptedWere(front, publication);
    }
  }

  /**
   Whatever a `wait_for` returned, it read and its test accepted; while it goes on waiting, its test rejected what
   it read last; and if it ends for want of a sender, its test rejected the last publication of all.
   */
  lemma WaitForKeepsItsWord(initial: Value, first: ReceiverId, run: seq<Watch>, i: nat, r: ReceiverId,
      test: Value -> bool)
    requires IsRun(initial, first, run) && i < |run| && r in run[i].receivers
    requires Agrees(run[i].receivers[r], run[i].published, test)
    ensures var x, published := run[i].receivers[r], run[i].published;
            && (forall p | p in x.returned :: p in x.read && p < |published| && test(published[p]))
            && (WaitsOn(x.pc, Testing) ==> x.read != [] && LastRead(x) < |published| && !test(published[LastRead(x)]))
            && (x.pc == Ended(Testing) && run[i].bumps < WORD / STEP ==> !test(published[|published| - 1]))
  {
    var x := run[i].receivers[r];
    RunKeepsInv(initial, first, run, i);
    assert RecvAt(run[i], r);
    forall p | p in x.returned ensures p in x.read && p < |run[i].published| && test(run[i].published[p]) {
      ReturnedWasAccepted(x, p);
      var j :| 0 <= j < |x.read| && x.read[j] == p;
    }
    if WaitsOn(x.pc, Testing) {
      assert x.tested[|x.tested| - 1] in x.tested;
    }
    if x.pc == Ended(Testing) && run[i].bumps < WORD / STEP {
      EndedIsLast(run[i], x);
    }
  }

  lemma ReturnedWasAccepted(x: Receiver, p: nat)
    requires VerdictsOk(x) && p in x.returned
    ensures Verdict(p, true) in x.tested && p in x.read
  {
    AcceptedWere(x.tested, p);
    var i :| 0 <= i < |x.tested| && x.tested[i] == Verdict(p, true);
    assert x.tested[i].publication in x.read;
  }

  /** In the middle of a `wait_for`. */
  predicate InWaitFor(pc: RecvPc) {
    match pc
    case Seeking(p) => p.Testing?
    case Loading(p) => p.Testing?
    case Cloning(p) => p.Testing?
    case Leaving(p) => p.Testing?
    case Judging => true
    case Checking(p) => p.Testing?
    case Listening(p) => p.Testing?
    case Waiting(p) => p.Testing?
    case _ => false
  }

  /** A `wait_for` is over once its test accepts, it is dropped, or the channel has ended; nothing else ends it. */
  lemma WaitForEndsBy(w: Watch, step: Step, n: Watch, r: ReceiverId)
    requires Steps(w, step, n) && r in w.receivers && InWaitFor(w.receivers[r].pc)
    ensures r in n.receivers
    ensures !InWaitFor(n.receivers[r].pc) <==>
            || step == Judge(r, true) || step == Cancel(r)
            || (step == Advance(r) && n.receivers[r].pc == Ended(Testing))
  {
  }

  /**
   The decision between returning and waiting, in terms of publications: with fewer than 2^63 of them, a check
   succeeds exactly if there is one that was not marked, marking the newest; it ends exactly if there is none and
   the sender is gone; and otherwise it goes on to wait and marks nothing.
   */
  lemma CheckDecides(w: Watch, r: ReceiverId, n: Watch)
    requires Inv(w) && r in w.receivers && w.receivers[r].pc.Checking? && n == Next(w, Advance(r))
    requires w.bumps < WORD / STEP
    ensures var x, y := w.receivers[r], n.receivers[r];
            && (y.pc == Idle || y.pc == Seeking(x.pc.purpose) <==> x.marked < w.bumps)
            && (y.pc == Idle <==> x.marked < w.bumps && x.pc.purpose == Plain)
            && (y.pc.Ended? <==> x.marked == w.bumps && IsClosed(w))
            && (y.pc.Listening? || y.pc.Waiting? <==> x.marked == w.bumps && !IsClosed(w))
            && (y.pc.Waiting? <==> x.marked == w.bumps && !IsClosed(w) && x.listener.Some?)
            && y.marked == w.bumps && y.read == x.read
  {
    assert RecvAt(w, r);
    ToldApartIff(w.receivers[r].marked, w.bumps);
  }

  /** Whoever only looks marks nothing; whoever marks and reads, marks exactly what it reads. */
  lemma ReadsAndMarks(w: Watch, r: ReceiverId, n: Watch)
    requires Inv(w) && Enabled(w, Advance(r)) && n == Next(w, Advance(r))
    ensures var x, y := w.receivers[r], n.receivers[r];
            && (x.pc in {Seeking(Peek), Cloning(Peek), Leaving(Peek)} ==> y.seen == x.seen && y.marked == x.marked)
            && (x.pc.Cloning? ==> y.read == x.read + [w.bumps])
            && (x.pc.Cloning? && x.pc.purpose != Peek ==> y.marked == w.bumps)
            && (!x.pc.Cloning? ==> y.read == x.read)
  {
    assert RecvAt(w, r);
  }

  /** The value a publishing thread still has to put in the slot. */
  function Carried(pc: SendPc): Option<Value> {
    match pc
    case Locking(v) => Some(v)
    case Bumping(v) => Some(v)
    case Replacing(v) => Some(v)
    case _ => None
  }

  /** A value that is sent is published once, unchanged, when the thread has nothing more to put there. */
  lemma PublishesWhatWasSent(w: Watch, step: Step, n: Watch)
    requires Steps(w, step, n)
    ensures step.Send? ==> Carried(Pc(n, step.thread)) == Some(step.value) && n.published == w.published
    ensures step.Continue? && Carried(Pc(w, step.thread)).Some? ==>
              if Carried(Pc(n, step.thread)).Some?
              then Carried(Pc(n, step.thread)) == Carried(Pc(w, step.thread)) && n.published == w.published
              else n.published == w.published + [Carried(Pc(w, step.thread)).value]
    ensures !(step.Continue? && Pc(w, step.thread).Replacing?) ==> n.published == w.published
  {
  }

  /** A subscriber has seen what is published, a clone what its original has; nobody else is touched. */
  lemma NewReceiversHaveSeen(w: Watch, step: Step, n: Watch)
    requires Inv(w) && Steps(w, step, n) && (step.Subscribe? || step.CloneReceiver?)
    ensures n == w.(receivers := w.receivers[step.copy := n.receivers[step.copy]])
    ensures var y := n.receivers[step.copy];
            && y.read == [] && y.returned == [] && y.tested == [] && y.yielded == [] && y.listener.None? && y.pc.Idle?
            && (step.Subscribe? ==> y.marked == w.bumps && y.seen == Version(w))
            && (step.CloneReceiver? ==> y.marked == w.receivers[step.receiver].marked
                                        && y.seen == w.receivers[step.receiver].seen)
  {
  }

  /** Marking without reading marks the newest version; dropping a wait leaves everything marked as it was. */
  lemma MarkAndCancel(w: Watch, r: ReceiverId, n: Watch)
    requires Inv(w) && r in w.receivers
    ensures Steps(w, Mark(r), n) ==>
              && n.receivers[r].marked == w.bumps && n.receivers[r].seen == Version(w)
              && n.receivers[r].read == w.receivers[r].read
    ensures Steps(w, Cancel(r), n) ==>
              && n.receivers[r].pc.Idle? && n.receivers[r].listener.None?
              && n.receivers[r].marked == w.receivers[r].marked && n.receivers[r].seen == w.receivers[r].seen
  {
  }

  // ----- Streams, and how calls go

  /**
   With fewer than 2^63 publications, a stream yields ever newer ones, and it ends only after it yielded the last one
   of all: it yields at least one, even if it is made when the sender is gone.
   */
  lemma StreamsYieldNewer(initial: Value, first: ReceiverId, run: seq<Watch>, i: nat, r: ReceiverId)
    requires IsRun(initial, first, run) && i < |run| && r in run[i].receivers && run[i].bumps < WORD / STEP
    ensures var x := run[i].receivers[r];
            && (forall j, k | 0 <= j < k < |x.yielded| :: x.yielded[j] < x.yielded[k])
            && (x.pc.Yielded? ==> x.yielded != [] && x.yielded[|x.yielded| - 1] == LastRead(x))
            && (x.pc == Ended(Yielding) ==>
                  x.yielded != [] && x.yielded[|x.yielded| - 1] == |run[i].published| - 1)
  {
    RunKeepsInv(initial, first, run, i);
    assert RecvAt(run[i], r);
    if run[i].receivers[r].pc == Ended(Yielding) {
      EndedIsLast(run[i], run[i].receivers[r]);
    }
  }

  /** What a call in progress is for. */
  function PurposeOf(pc: RecvPc): Option<Purpose> {
    match pc
    case Seeking(p) => Some(p)
    case Loading(p) => Some(p)
    case Cloning(p) => Some(p)
    case Leaving(p) => Some(p)
    case Judging => Some(Testing)
    case Checking(p) => Some(p)
    case Listening(p) => Some(p)
    case Waiting(p) => Some(p)
    case _ => None
  }

  /** Which call begins what: a read for its own purpose, `changed` and a stream's next item with a check. */
  lemma CallsBegin(w: Watch, step: Step, n: Watch, r: ReceiverId)
    requires Steps(w, step, n) && r in w.receivers && PurposeOf(w.receivers[r].pc).None?
    ensures r in n.receivers
    ensures PurposeOf(n.receivers[r].pc).Some? <==>
            step == Await(r) || step == PollStream(r) || (step.Read? && step.receiver == r)
    ensures step.Read? && step.receiver == r ==>
              PurposeOf(n.receivers[r].pc) == Some(step.purpose) && Reads(n.receivers[r].pc, step.purpose)
    ensures step == Await(r) ==> n.receivers[r].pc == Checking(Plain)
    ensures step == PollStream(r) ==> n.receivers[r].pc == Checking(Yielding)
  {
  }

  /** A call keeps its purpose until it is over; a read is over once it let go of the lock, and hands its value on. */
  lemma CallsGoOn(w: Watch, step: Step, n: Watch, r: ReceiverId)
    requires Steps(w, step, n) && r in w.receivers && PurposeOf(w.receivers[r].pc).Some?
    ensures r in n.receivers
    ensures PurposeOf(n.receivers[r].pc) in {None, PurposeOf(w.receivers[r].pc)}
    ensures var before, after := w.receivers[r].pc, n.receivers[r].pc;
            && (before.Leaving? && step == Advance(r) ==>
                  match before.purpose
                  case Testing => after.Judging?
                  case Yielding => after.Yielded?
                  case _ => after.Idle?)
            && (after.Idle? && step == Advance(r) ==>
                  before == Leaving(Peek) || before == Leaving(Plain) || before == Checking(Plain))
  {
  }
}
