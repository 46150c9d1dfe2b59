/**
 What the manager answers to a resize and to a frame, told by the chunk and the mailbox they are about.
 */
module ManagerAnswers {
  import opened Wrappers
  import opened Numbers
  import opened Planner
  import opened PlannerAnswers
  import opened Manager

  /**
   A resize answers with the planner's error, or, if the chunk has to be cut, with the mailbox's. It goes through
   exactly if nothing is to be cut or the runner still reads limits; the limit it is sent then is its chunk's length.
   */
  lemma ResizeOutcome(m: Manager, r: RunnerId, newSize: nat, n: Manager, result: Result<(), ResizeError>)
    requires Planner.Inv(m.plan) && ResizeRunner(m, r, newSize) == (n, result)
    ensures r !in m.plan.owners ==> result == Err(PlannerError(RunnerNotFound(r)))
    ensures r in m.plan.owners ==>
              && var c := m.plan.chunks[m.plan.owners[r]];
              && (result == Err(PlannerError(InvalidResize(r, newSize))) <==> SizeRefused(c, newSize))
              && (SizeRefused(c, newSize) || newSize == c.span.end - c.downloaded.end || result == (
                    if r !in m.mail then Err(LimitError(MailboxNotFound(r)))
                    else if m.mail[r].receiver then Ok(())
                    else Err(LimitError(ReceiverGone(r)))))
              && (newSize == c.span.end - c.downloaded.end ==>
                    n == m && (result == Ok(()) <==> !SizeRefused(c, newSize)))
    ensures result.Ok? ==>
              && var k := m.plan.owners[r];
              && k in n.plan.chunks && n.plan.chunks[k].span.end - n.plan.chunks[k].downloaded.end == newSize
              && (n.plan != m.plan ==> r in n.mail && n.mail[r].unread == Some(n.plan.chunks[k].span.Len()))
  {
    var (plan, resized) := ResizeChunk(m.plan, r, newSize);
    ResizeAnswers(m.plan, r, newSize, plan, resized);
  }

  /** A frame of a runner with a chunk is accepted up to the chunk's end, and any other is refused. */
  lemma DataOutcome(m: Manager, r: RunnerId, size: nat, n: Manager, accepted: Option<Range>)
    requires Planner.Inv(m.plan) && OnData(m, r, size) == (n, accepted)
    ensures accepted.Some? <==> r in m.plan.owners
    ensures accepted.None? ==> n == m
    ensures accepted.Some? ==>
              && var c := m.plan.chunks[m.plan.owners[r]];
              && accepted.value.start == c.downloaded.end
              && accepted.value.Len() == Min(size, c.span.end - c.downloaded.end)
              && DownloadedBytes(n.plan.chunks) == DownloadedBytes(m.plan.chunks) + Bytes(accepted.value)
              && n == m.(plan := n.plan) && n.plan.owners == m.plan.owners
  {
    var (plan, result) := Advance(m.plan, r, size);
    ProgressAnswers(m.plan, r, size, plan, result);
  }
}
