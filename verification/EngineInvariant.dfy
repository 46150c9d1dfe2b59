/**
 The invariant of the composed download and what each of its events does to it.
 */
module EngineInvariant {
  import opened Planner
  import opened Manager
  import opened Engine
  import opened EngineLocal
  import Ids = IdGeneration

  // ----- The parts of the invariant

  /** Exactly the allocated ids have a mailbox and own a chunk. */
  ghost predicate IdsAgree(m: Manager) {
    && Ids.Inv(m.ids)
    && (forall r: RunnerId {:trigger Ids.IsAllocated(m.ids, r)} :: Ids.IsAllocated(m.ids, r) <==> r in m.mail)
    && m.plan.owners.Keys == m.mail.Keys
  }

  /** A runner is either spawned, and then all its ends are registered, or waits to be reported as rejected. */
  ghost predicate Registered(m: Manager, procs: map<RunnerId, Proc>) {
    && m.lifecycles == procs.Keys
    && m.connecting <= procs.Keys
    && m.streams <= procs.Keys
    && procs.Keys <= m.mail.Keys
    && Rejected(m.spawnFailures) == m.mail.Keys - procs.Keys
    && Distinct(m.spawnFailures)
  }

  ghost function Rejected(failures: seq<RunnerId>): set<RunnerId> {
    set r | r in failures
  }

  ghost predicate Distinct(failures: seq<RunnerId>) {
    forall i, j | 0 <= i < j < |failures| :: failures[i] != failures[j]
  }

  ghost predicate ProcAt(source: seq<Byte>, m: Manager, p: Proc, r: RunnerId) {
    && r in m.plan.owners && m.plan.owners[r] in m.plan.chunks && r in m.mail
    && ProcOk(source, m.plan.chunks[m.plan.owners[r]], m.mail[r], p, r in m.connecting, r in m.streams)
  }

  ghost predicate ProcsOk(source: seq<Byte>, m: Manager, procs: map<RunnerId, Proc>) {
    forall r {:trigger ProcAt(source, m, procs[r], r)} | r in procs :: ProcAt(source, m, procs[r], r)
  }

  /** A rejected runner's chunk is pending and empty, and nobody reads its limits. */
  ghost predicate RejectedAt(m: Manager, r: RunnerId) {
    && r in m.plan.owners && m.plan.owners[r] in m.plan.chunks && r in m.mail
    && var c := m.plan.chunks[m.plan.owners[r]];
       c.status == Pending && c.downloaded.end == c.downloaded.start && !m.mail[r].receiver
  }

  ghost predicate RejectedOk(m: Manager) {
    forall r {:trigger RejectedAt(m, r)} | r in m.spawnFailures :: RejectedAt(m, r)
  }

  /** A chunk is active, or finished and then downloaded. */
  ghost predicate Settled(chunks: map<nat, ChunkState>) {
    forall k | k in chunks && !chunks[k].status.IsActive() :: chunks[k].status == Finished && chunks[k].IsComplete()
  }

  ghost predicate InWrites(written: seq<Write>, b: nat) {
    exists i :: 0 <= i < |written| && written[i].range.Contains(b)
  }

  /** Every write carries the source bytes of exactly its range, and no byte is written twice. */
  ghost predicate WritesFaithful(source: seq<Byte>, written: seq<Write>) {
    && (forall i | 0 <= i < |written| ::
          && written[i].range.start <= written[i].range.end <= |source|
          && written[i].bytes == source[written[i].range.start..written[i].range.end])
    && (forall i, j | 0 <= i < j < |written| :: Bytes(written[i].range) !! Bytes(written[j].range))
  }

  ghost predicate WritesCover(written: seq<Write>, chunks: map<nat, ChunkState>) {
    forall b: nat :: InWrites(written, b) <==> b in DownloadedBytes(chunks)
  }

  ghost predicate PlanOk(source: seq<Byte>, p: Plan) {
    && Planner.Inv(p)
    && p.total == |source|
    && p.maxChunkCount.None?
    && Settled(p.chunks)
  }

  ghost predicate CrewOk(source: seq<Byte>, m: Manager, procs: map<RunnerId, Proc>) {
    && IdsAgree(m)
    && Registered(m, procs)
    && ProcsOk(source, m, procs)
    && RejectedOk(m)
  }

  ghost predicate SystemOk(s: System) {
    && PlanOk(s.source, s.mgr.plan)
    && CrewOk(s.source, s.mgr, s.procs)
    && WritesFaithful(s.source, s.written)
    && WritesCover(s.written, s.mgr.plan.chunks)
    && (s.finished ==> IsComplete(s.mgr.plan))
    && !s.panicked
  }

  // ----- What an event does not touch

  /** Everything the invariant says of runner `r` reads the same in both managers. */
  ghost predicate SameFor(m: Manager, n: Manager, r: RunnerId) {
    && r in m.plan.owners && r in n.plan.owners && m.plan.owners[r] == n.plan.owners[r]
    && m.plan.owners[r] in m.plan.chunks && m.plan.owners[r] in n.plan.chunks
    && m.plan.chunks[m.plan.owners[r]] == n.plan.chunks[m.plan.owners[r]]
    && r in m.mail && r in n.mail && m.mail[r] == n.mail[r]
    && (r in m.connecting <==> r in n.connecting)
    && (r in m.streams <==> r in n.streams)
  }

  lemma OwnersDiffer(chunks: map<nat, ChunkState>, owners: map<RunnerId, nat>, r: RunnerId, other: RunnerId)
    requires OwnersValid(chunks, owners) && r in owners && other in owners && r != other
    ensures owners[r] in chunks && owners[other] in chunks && owners[r] != owners[other]
  {
  }

  /** Runners for which nothing changed are still as they should be. */
  lemma ProcsKept(source: seq<Byte>, m: Manager, procs: map<RunnerId, Proc>, n: Manager, after: map<RunnerId, Proc>,
      r: RunnerId)
    requires ProcsOk(source, m, procs)
    requires forall other | other in after && other != r ::
               other in procs && after[other] == procs[other] && SameFor(m, n, other)
    requires r in after ==> ProcAt(source, n, after[r], r)
    ensures ProcsOk(source, n, after)
  {
    forall other | other in after ensures ProcAt(source, n, after[other], other) {
      if other != r {
        assert ProcAt(source, m, procs[other], other);
      }
    }
  }

  lemma RejectedKept(m: Manager, n: Manager)
    requires RejectedOk(m)
    requires forall r | r in n.spawnFailures :: r in m.spawnFailures && SameFor(m, n, r)
    ensures RejectedOk(n)
  {
    forall r | r in n.spawnFailures ensures RejectedAt(n, r) {
      assert RejectedAt(m, r);
    }
  }
}
