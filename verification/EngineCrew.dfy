/**
 How the manager's view of its runners stays in order when one runner changes, joins or leaves.
 */
module EngineCrew {
  import opened Wrappers
  import opened Planner
  import opened Manager
  import opened Engine
  import opened EngineInvariant
  import Ids = IdGeneration

  // ----- One runner changes

  /** Everything but one runner's chunk, mailbox and place among the receiving ends is as before. */
  ghost predicate OnlyRunner(m: Manager, n: Manager, r: RunnerId) {
    && r in m.plan.owners && m.plan.owners[r] in n.plan.chunks && r in n.mail
    && n.plan.owners == m.plan.owners
    && n.plan.chunks == m.plan.chunks[m.plan.owners[r] := n.plan.chunks[m.plan.owners[r]]]
    && n.mail == m.mail[r := n.mail[r]]
    && n.ids == m.ids && n.spawnFailures == m.spawnFailures && n.lifecycles == m.lifecycles
    && n.connecting + {r} == m.connecting + {r}
    && n.streams + {r} == m.streams + {r}
  }

  lemma OthersUntouched(source: seq<Byte>, m: Manager, n: Manager, r: RunnerId, other: RunnerId)
    requires OwnersValid(m.plan.chunks, m.plan.owners) && OnlyRunner(m, n, r)
    requires other in m.plan.owners && other in m.mail && other != r
    ensures SameFor(m, n, other)
  {
    OwnersDiffer(m.plan.chunks, m.plan.owners, r, other);
    assert other in m.connecting + {r} <==> other in n.connecting + {r};
    assert other in m.streams + {r} <==> other in n.streams + {r};
  }

  lemma OneRunnerKeepsProcs(source: seq<Byte>, m: Manager, procs: map<RunnerId, Proc>, n: Manager, r: RunnerId, p: Proc)
    requires OwnersValid(m.plan.chunks, m.plan.owners) && OnlyRunner(m, n, r)
    requires ProcsOk(source, m, procs) && r in procs
    requires ProcAt(source, n, p, r)
    ensures ProcsOk(source, n, procs[r := p])
  {
    var after := procs[r := p];
    forall other | other in after && other != r
      ensures other in procs && after[other] == procs[other] && SameFor(m, n, other)
    {
      assert ProcAt(source, m, procs[other], other);
      OthersUntouched(source, m, n, r, other);
    }
    ProcsKept(source, m, procs, n, after, r);
  }

  lemma OneRunnerKeepsRejected(source: seq<Byte>, m: Manager, n: Manager, r: RunnerId)
    requires OwnersValid(m.plan.chunks, m.plan.owners) && OnlyRunner(m, n, r)
    requires RejectedOk(m) && r !in m.spawnFailures
    ensures RejectedOk(n)
  {
    forall other | other in n.spawnFailures ensures SameFor(m, n, other) {
      assert RejectedAt(m, other);
      OthersUntouched(source, m, n, r, other);
    }
    RejectedKept(m, n);
  }

  lemma OneRunnerKeepsSets(m: Manager, procs: map<RunnerId, Proc>, n: Manager, r: RunnerId, p: Proc)
    requires IdsAgree(m) && Registered(m, procs) && r in procs && OnlyRunner(m, n, r)
    ensures IdsAgree(n) && Registered(n, procs[r := p])
  {
    assert procs[r := p].Keys == procs.Keys;
    assert n.mail.Keys == m.mail.Keys;
    assert n.connecting <= m.connecting + {r};
    assert n.streams <= m.streams + {r};
  }

  lemma SpawnedNotRejected(m: Manager, procs: map<RunnerId, Proc>, r: RunnerId)
    requires Registered(m, procs) && r in m.mail
    ensures r in procs <==> r !in m.spawnFailures
  {
    assert r in Rejected(m.spawnFailures) <==> r in m.mail.Keys - procs.Keys;
  }

  /** An event that changes what is known of one spawned runner keeps the crew in order. */
  lemma OneRunnerKeepsCrew(source: seq<Byte>, m: Manager, procs: map<RunnerId, Proc>, n: Manager, r: RunnerId, p: Proc)
    requires OwnersValid(m.plan.chunks, m.plan.owners) && OnlyRunner(m, n, r)
    requires CrewOk(source, m, procs) && r in procs
    requires ProcAt(source, n, p, r)
    ensures CrewOk(source, n, procs[r := p])
  {
    SpawnedNotRejected(m, procs, r);
    OneRunnerKeepsProcs(source, m, procs, n, r, p);
    OneRunnerKeepsRejected(source, m, n, r);
    OneRunnerKeepsSets(m, procs, n, r, p);
  }

  // ----- A runner leaves

  ghost predicate Left(m: Manager, n: Manager, r: RunnerId) {
    && r in m.plan.owners
    && n.plan.owners == m.plan.owners - {r}
    && n.plan.chunks - {m.plan.owners[r]} == m.plan.chunks - {m.plan.owners[r]}
    && n.mail == m.mail - {r}
    && n.lifecycles == m.lifecycles - {r}
    && n.connecting == m.connecting - {r}
    && n.streams == m.streams - {r}
    && n.ids == Ids.ReleaseId(m.ids, r)
    && n.spawnFailures == (if r in m.spawnFailures then m.spawnFailures[1..] else m.spawnFailures)
    && (r in m.spawnFailures ==> m.spawnFailures[0] == r)
  }

  lemma OthersStay(m: Manager, n: Manager, r: RunnerId, other: RunnerId)
    requires OwnersValid(m.plan.chunks, m.plan.owners) && Left(m, n, r)
    requires other in m.plan.owners && other in m.mail && other != r
    ensures SameFor(m, n, other)
  {
    OwnersDiffer(m.plan.chunks, m.plan.owners, r, other);
    assert m.plan.owners[other] in m.plan.chunks - {m.plan.owners[r]};
    assert (m.plan.chunks - {m.plan.owners[r]})[m.plan.owners[other]] == m.plan.chunks[m.plan.owners[other]];
    assert (n.plan.chunks - {m.plan.owners[r]})[m.plan.owners[other]] == n.plan.chunks[m.plan.owners[other]];
  }

  lemma LeavingKeepsProcs(source: seq<Byte>, m: Manager, procs: map<RunnerId, Proc>, n: Manager, r: RunnerId)
    requires OwnersValid(m.plan.chunks, m.plan.owners) && Left(m, n, r)
    requires ProcsOk(source, m, procs)
    ensures ProcsOk(source, n, procs - {r})
  {
    var after := procs - {r};
    forall other | other in after && other != r
      ensures other in procs && after[other] == procs[other] && SameFor(m, n, other)
    {
      assert ProcAt(source, m, procs[other], other);
      OthersStay(m, n, r, other);
    }
    ProcsKept(source, m, procs, n, after, r);
  }

  lemma FailuresLeft(m: Manager, n: Manager, r: RunnerId)
    requires Left(m, n, r) && Distinct(m.spawnFailures)
    ensures Rejected(n.spawnFailures) == Rejected(m.spawnFailures) - {r}
    ensures Distinct(n.spawnFailures)
  {
    if r in m.spawnFailures {
      assert m.spawnFailures == [r] + n.spawnFailures;
    }
  }

  lemma LeavingKeepsRejected(m: Manager, n: Manager, r: RunnerId)
    requires OwnersValid(m.plan.chunks, m.plan.owners) && Left(m, n, r)
    requires RejectedOk(m) && Distinct(m.spawnFailures)
    ensures RejectedOk(n)
  {
    FailuresLeft(m, n, r);
    forall other | other in n.spawnFailures ensures other in m.spawnFailures && SameFor(m, n, other) {
      assert other in Rejected(n.spawnFailures);
      assert RejectedAt(m, other);
      OthersStay(m, n, r, other);
    }
    RejectedKept(m, n);
  }

  lemma LeavingKeepsSets(m: Manager, procs: map<RunnerId, Proc>, n: Manager, r: RunnerId)
    requires IdsAgree(m) && Registered(m, procs) && Left(m, n, r)
    ensures IdsAgree(n) && Registered(n, procs - {r})
  {
    Ids.ReleaseFrees(m.ids, r);
    FailuresLeft(m, n, r);
    assert (procs - {r}).Keys == procs.Keys - {r};
    assert n.mail.Keys == m.mail.Keys - {r};
    assert n.plan.owners.Keys == m.plan.owners.Keys - {r};
  }

  lemma LeavingKeepsCrew(source: seq<Byte>, m: Manager, procs: map<RunnerId, Proc>, n: Manager, r: RunnerId)
    requires OwnersValid(m.plan.chunks, m.plan.owners) && Left(m, n, r)
    requires CrewOk(source, m, procs)
    ensures CrewOk(source, n, procs - {r})
  {
    LeavingKeepsProcs(source, m, procs, n, r);
    LeavingKeepsRejected(m, n, r);
    LeavingKeepsSets(m, procs, n, r);
  }

  // ----- A runner joins

  /** Runner `r` now owns the new chunk `k`; it waits to connect, or to be reported as rejected. */
  ghost predicate Joined(m: Manager, n: Manager, r: RunnerId, k: nat, accepted: bool) {
    && k !in m.plan.chunks && k in n.plan.chunks && r !in m.plan.owners
    && n.plan.chunks == m.plan.chunks[k := n.plan.chunks[k]]
    && n.plan.owners == m.plan.owners[r := k]
    && n.mail == m.mail[r := Mailbox(None, accepted)]
    && n.ids == Ids.NextId(m.ids).0
    && Ids.NextId(m.ids).1 == Some(r)
    && n.lifecycles == m.lifecycles + (if accepted then {r} else {})
    && n.connecting == m.connecting + (if accepted then {r} else {})
    && n.streams == m.streams
    && n.spawnFailures == m.spawnFailures + (if accepted then [] else [r])
  }

  lemma OthersRemain(m: Manager, n: Manager, r: RunnerId, k: nat, accepted: bool, other: RunnerId)
    requires OwnersValid(m.plan.chunks, m.plan.owners) && Joined(m, n, r, k, accepted)
    requires other in m.plan.owners && other in m.mail
    ensures other != r && SameFor(m, n, other)
  {
  }

  lemma JoiningKeepsProcs(source: seq<Byte>, m: Manager, procs: map<RunnerId, Proc>, n: Manager, r: RunnerId, k: nat,
      accepted: bool, after: map<RunnerId, Proc>)
    requires OwnersValid(m.plan.chunks, m.plan.owners) && Joined(m, n, r, k, accepted)
    requires ProcsOk(source, m, procs)
    requires if accepted then r in after && after == procs[r := after[r]] && ProcAt(source, n, after[r], r)
             else after == procs && r !in procs
    ensures ProcsOk(source, n, after)
  {
    forall other | other in after && other != r
      ensures other in procs && after[other] == procs[other] && SameFor(m, n, other)
    {
      assert ProcAt(source, m, procs[other], other);
      OthersRemain(m, n, r, k, accepted, other);
    }
    ProcsKept(source, m, procs, n, after, r);
  }

  lemma JoiningKeepsRejected(m: Manager, n: Manager, r: RunnerId, k: nat, accepted: bool)
    requires OwnersValid(m.plan.chunks, m.plan.owners) && Joined(m, n, r, k, accepted)
    requires RejectedOk(m)
    requires n.plan.chunks[k].status == Pending && n.plan.chunks[k].downloaded.end == n.plan.chunks[k].downloaded.start
    ensures RejectedOk(n)
  {
    forall other | other in n.spawnFailures ensures RejectedAt(n, other) {
      if other in m.spawnFailures {
        assert RejectedAt(m, other);
        OthersRemain(m, n, r, k, accepted, other);
      }
    }
  }

  lemma JoiningKeepsSets(m: Manager, procs: map<RunnerId, Proc>, n: Manager, r: RunnerId, k: nat, accepted: bool,
      after: map<RunnerId, Proc>)
    requires IdsAgree(m) && Registered(m, procs) && Joined(m, n, r, k, accepted)
    requires after.Keys == procs.Keys + (if accepted then {r} else {})
    ensures IdsAgree(n) && Registered(n, after)
  {
    Ids.NextIdIsFree(m.ids);
    assert r !in m.mail;
    assert r !in Rejected(m.spawnFailures);
    assert n.mail.Keys == m.mail.Keys + {r};
    assert n.plan.owners.Keys == m.plan.owners.Keys + {r};
    assert Rejected(n.spawnFailures) == Rejected(m.spawnFailures) + (if accepted then {} else {r});
  }
}
