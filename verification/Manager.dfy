/**
 The runner manager: it hands out runner ids, gives each runner a chunk and a mailbox for its
 limits, shrinks chunks, and turns the runners' events and data into planner transitions.

 Values and transition functions; `RunnerManagement.dfy` holds the object that computes them.
 A failing `expect` or debug assertion is the outcome `Panicked`.
 */
module Manager {
  import opened Wrappers
  import opened Planner
  import Ids = IdGeneration
  import Runner

  /** Both ends of a limit mailbox: the limit not read yet, and whether the runner still holds its end. */
  datatype Mailbox = Mailbox(unread: Option<nat>, receiver: bool)

  /** `lifecycles`, `connecting` and `streams` hold the runners whose receiving ends are kept there. */
  datatype Manager = Manager(
    ids: Ids.Ids,
    plan: Plan,
    mail: map<RunnerId, Mailbox>,
    spawnFailures: seq<RunnerId>,
    lifecycles: set<RunnerId>,
    connecting: set<RunnerId>,
    streams: set<RunnerId>)

  /** Only allocated ids own chunks. */
  ghost predicate OwnersAllocated(m: Manager) {
    forall r {:trigger r in m.plan.owners} | r in m.plan.owners :: Ids.IsAllocated(m.ids, r)
  }

  datatype Tick =
    | Downloading
    | AllFinished
    | AttemptFailed(runner: RunnerId, error: Runner.TaskError)
    | Panicked

  datatype SendError = MailboxNotFound(runner: RunnerId) | ReceiverGone(runner: RunnerId)

  datatype ResizeError = PlannerError(source: Error) | LimitError(error: SendError)

  function NewManager(total: nat, maxConcurrency: nat): Manager {
    Manager(Ids.NewIds(maxConcurrency), NewPlan(total), map[], [], {}, {}, {})
  }

  function AllocateRunner(m: Manager): (Manager, Option<RunnerId>) {
    var (ids, id) := Ids.NextId(m.ids);
    match id
    case None => (m.(ids := ids), None)
    case Some(r) => (m.(ids := ids, mail := m.mail[r := Mailbox(None, true)]), Some(r))
  }

  /** Drop everything the manager holds of a runner and recycle its id. */
  function ReleaseRunner(m: Manager, r: RunnerId): Manager {
    m.(mail := m.mail - {r},
       lifecycles := m.lifecycles - {r},
       connecting := m.connecting - {r},
       streams := m.streams - {r},
       ids := Ids.ReleaseId(m.ids, r))
  }

  /** A runner connects as long as its chunk is pending. */
  predicate IsConnecting(m: Manager, r: RunnerId) {
    && r in m.plan.owners
    && m.plan.owners[r] in m.plan.chunks
    && m.plan.chunks[m.plan.owners[r]].status == Pending
  }

  function RegisterChannels(m: Manager, r: RunnerId): Manager {
    if IsConnecting(m, r)
    then m.(lifecycles := m.lifecycles + {r}, connecting := m.connecting + {r})
    else m.(lifecycles := m.lifecycles + {r}, streams := m.streams + {r})
  }

  /** A rejected spawn drops the runner, and with it the receiving end of its mailbox. */
  function PlaceAllocated(m: Manager, r: RunnerId, range: Range, accepted: bool): Manager {
    if !Accepts(m.plan, range) then ReleaseRunner(m, r)
    else
      var placed := m.(plan := Allocate(m.plan, range, Some(r), Pending));
      if accepted then RegisterChannels(placed, r)
      else placed.(mail := placed.mail[r := Mailbox(None, false)], spawnFailures := placed.spawnFailures + [r])
  }

  function SpawnRunner(m: Manager, range: Range, accepted: bool): (Manager, Option<RunnerId>) {
    var (registered, id) := AllocateRunner(m);
    match id
    case None => (registered, None)
    case Some(r) =>
      (PlaceAllocated(registered, r, range, accepted), if Accepts(registered.plan, range) then Some(r) else None)
  }

  /** Sending replaces an unread limit; it fails once the runner dropped its end. */
  function Send(box: Mailbox, limit: nat): Option<Mailbox> {
    if box.receiver then Some(box.(unread := Some(limit))) else None
  }

  /** Shrink a runner's chunk and send it the limit that goes with it, or change nothing. */
  function ResizeRunner(m: Manager, r: RunnerId, newSize: nat): (Manager, Result<(), ResizeError>) {
    var (plan, resized) := ResizeChunk(m.plan, r, newSize);
    match resized
    case Err(e) => (m, Err(PlannerError(e)))
    case Ok(Unchanged) => (m, Ok(()))
    case Ok(Shrunk(limit)) =>
      if r !in m.mail then (m, Err(LimitError(MailboxNotFound(r))))
      else
        match Send(m.mail[r], limit)
        case None => (m, Err(LimitError(ReceiverGone(r))))
        case Some(box) => (m.(plan := plan, mail := m.mail[r := box]), Ok(()))
  }

  /** Complete a runner's chunk; the tick says whether that was the last one. */
  function MarkRunnerCompleted(m: Manager, r: RunnerId): (Manager, Tick) {
    var (plan, result) := MarkFinished(m.plan, r);
    (m.(plan := plan), if result.Err? then Panicked else if IsComplete(plan) then AllFinished else Downloading)
  }

  function FailRunner(m: Manager, r: RunnerId, error: Runner.TaskError): (Manager, Tick) {
    var (plan, result) := MarkFailed(m.plan, r);
    (m.(plan := plan),
     if result.Err? then Panicked else if error.Cancelled? then Downloading else AttemptFailed(r, error))
  }

  function OnLifecycle(m: Manager, r: RunnerId, event: Runner.LifecycleEvent): (Manager, Tick)
  {
    var connecting := IsConnecting(m, r);
    match event
    case Started =>
      var (plan, result) := MarkRunning(m.plan, r);
      if !connecting || result.Err? || r !in m.connecting then (m.(plan := plan), Panicked)
      else (m.(plan := plan, connecting := m.connecting - {r}, streams := m.streams + {r}), Downloading)
    case Stopped(reason) =>
      var released := ReleaseRunner(m, r);
      if connecting then
        if reason.Finished? then (released, Panicked) else FailRunner(released, r, reason.error)
      else if reason == Runner.Finished || reason == Runner.Failed(Runner.ExceededTotalSize) then
        MarkRunnerCompleted(released, r)
      else FailRunner(released, r, reason.error)
  }

  /** The lifecycle of a runner closed without `Stopped`. */
  function OnLost(m: Manager, r: RunnerId): (Manager, Tick) {
    var (plan, result) := MarkFailed(m.plan, r);
    (ReleaseRunner(m.(plan := plan), r),
     if result.Err? then Panicked
     else if IsComplete(plan) then AllFinished
     else AttemptFailed(r, Runner.ChannelClosed))
  }

  /** Rejections are told in the order they happened, each undoing its spawn. */
  function OnSpawnFailure(m: Manager): (Manager, Tick)
    requires m.spawnFailures != []
  {
    var r := m.spawnFailures[0];
    FailRunner(ReleaseRunner(m.(spawnFailures := m.spawnFailures[1..]), r), r, Runner.Other)
  }

  /** Accept a frame of `size` bytes; the accepted range is what is written of it. */
  function OnData(m: Manager, r: RunnerId, size: nat): (Manager, Option<Range>)
    requires WellFormed(m.plan.chunks, m.plan.total)
  {
    var (plan, result) := Advance(m.plan, r, size);
    (m.(plan := plan), if result.Ok? then Some(result.value) else None)
  }

  function OnDataClosed(m: Manager, r: RunnerId): Manager { m.(streams := m.streams - {r}) }
}
