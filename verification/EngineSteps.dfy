/**
 Every event of the composed download keeps its invariant, and none of the manager's `expect`s fails.
 */
module EngineSteps {
  import opened Wrappers
  import opened Numbers
  import opened Planner
  import opened PlannerLaws
  import opened Manager
  import opened Engine
  import opened EngineLocal
  import opened EngineInvariant
  import opened EngineCrew
  import Ids = IdGeneration
  import Runner

  /** The parts of the invariant make the whole. */
  lemma SystemOkParts(t: System)
    requires PlanOk(t.source, t.mgr.plan) && CrewOk(t.source, t.mgr, t.procs)
    requires WritesFaithful(t.source, t.written) && WritesCover(t.written, t.mgr.plan.chunks)
    requires (t.finished ==> IsComplete(t.mgr.plan)) && !t.panicked
    ensures SystemOk(t)
  {
  }

  // ----- The runner's own events

  /** Another mailbox and another view of one runner, and nothing else. */
  function OneView(s: System, r: RunnerId, box: Mailbox, p: Proc): System {
    s.(mgr := s.mgr.(mail := s.mgr.mail[r := box]), procs := s.procs[r := p])
  }

  /** Only the mailbox and the view of one spawned runner change. */
  lemma MailboxEvent(s: System, r: RunnerId, box: Mailbox, p: Proc, t: System)
    requires SystemOk(s) && r in s.procs && t == OneView(s, r, box, p)
    requires ProcAt(t.source, t.mgr, p, r)
    ensures SystemOk(t)
  {
    assert ProcAt(s.source, s.mgr, s.procs[r], r);
    ViewIsOneRunners(s.mgr, r, box, t.mgr);
    OneRunnerKeepsCrew(s.source, s.mgr, s.procs, t.mgr, r, p);
    SystemOkParts(t);
  }

  lemma ViewIsOneRunners(m: Manager, r: RunnerId, box: Mailbox, n: Manager)
    requires r in m.plan.owners && m.plan.owners[r] in m.plan.chunks && r in m.mail
    requires n == m.(mail := m.mail[r := box])
    ensures OnlyRunner(m, n, r)
  {
    assert n.plan.chunks == m.plan.chunks[m.plan.owners[r] := n.plan.chunks[m.plan.owners[r]]];
  }

  lemma ActsNext(s: System, r: RunnerId, a: Runner.Action, t: System)
    requires Engine.Steps(s, RunnerActs(r, a), t)
    ensures r in s.procs && r in s.mgr.mail && CanAct(s.source, s.mgr.mail[r], s.procs[r], a)
    ensures t == OneView(s, r, ActBox(s.mgr.mail[r], a), s.procs[r].(loop := Runner.Next(s.procs[r].loop, a)))
  {
  }

  lemma ActsKeepsInv(s: System, r: RunnerId, a: Runner.Action, t: System)
    requires SystemOk(s) && Engine.Steps(s, RunnerActs(r, a), t)
    ensures SystemOk(t)
  {
    ActsNext(s, r, a, t);
    var p, box := s.procs[r], s.mgr.mail[r];
    assert ProcAt(s.source, s.mgr, p, r);
    ActKeepsProc(s.source, s.mgr.plan.chunks[s.mgr.plan.owners[r]], box, p, r in s.mgr.connecting, r in s.mgr.streams,
      a);
    MailboxEvent(s, r, ActBox(box, a), p.(loop := Runner.Next(p.loop, a)), t);
  }

  lemma DiesNext(s: System, r: RunnerId, t: System)
    requires Engine.Steps(s, RunnerDies(r), t)
    ensures r in s.procs && r in s.mgr.mail
    ensures t == OneView(s, r, s.mgr.mail[r].(receiver := false), s.procs[r].(alive := false))
  {
  }

  lemma DiesKeepsInv(s: System, r: RunnerId, t: System)
    requires SystemOk(s) && Engine.Steps(s, RunnerDies(r), t)
    ensures SystemOk(t)
  {
    DiesNext(s, r, t);
    var p, box := s.procs[r], s.mgr.mail[r];
    assert ProcAt(s.source, s.mgr, p, r);
    DeathKeepsProc(s.source, s.mgr.plan.chunks[s.mgr.plan.owners[r]], box, p, r in s.mgr.connecting,
      r in s.mgr.streams);
    MailboxEvent(s, r, box.(receiver := false), p.(alive := false), t);
  }

  // ----- The manager shrinks a chunk

  lemma SettledKept(chunks: map<nat, ChunkState>, k: nat, c: ChunkState)
    requires Settled(chunks) && (c.status.IsActive() || (c.status == Finished && c.IsComplete()))
    ensures Settled(chunks[k := c])
  {
  }

  lemma SameBytesSameWrites(written: seq<Write>, before: map<nat, ChunkState>, chunks: map<nat, ChunkState>)
    requires WritesCover(written, before) && DownloadedBytes(chunks) == DownloadedBytes(before)
    ensures WritesCover(written, chunks)
  {
  }

  /** A shrink goes through if the runner still reads limits and the chunk has more than is left to it. */
  ghost predicate ShrinkSent(m: Manager, r: RunnerId, newSize: nat) {
    && r in m.plan.owners && m.plan.owners[r] in m.plan.chunks && r in m.mail && m.mail[r].receiver
    && var c := m.plan.chunks[m.plan.owners[r]];
       c.downloaded.end + newSize <= U64_MAX && c.span.start < c.downloaded.end + newSize < c.span.end
  }

  /** A chunk is cut to `end`, and the runner is sent the limit that goes with it. */
  ghost predicate CutTo(m: Manager, r: RunnerId, end: nat, n: Manager) {
    && r in m.plan.owners && m.plan.owners[r] in m.plan.chunks && r in m.mail && m.mail[r].receiver
    && var c := m.plan.chunks[m.plan.owners[r]];
       && c.span.start < end < c.span.end && c.downloaded.end <= end
       && n == m.(plan := CutPlan(m.plan, r, end), mail := m.mail[r := Mailbox(Some(end - c.span.start), true)])
  }

  /** A resize either goes through in full or changes nothing at all. */
  lemma ResizeAllOrNothing(m: Manager, r: RunnerId, newSize: nat)
    requires OwnersValid(m.plan.chunks, m.plan.owners)
    ensures var (n, result) := ResizeRunner(m, r, newSize);
            if ShrinkSent(m, r, newSize)
            then result == Ok(()) && n.plan != m.plan
              && CutTo(m, r, m.plan.chunks[m.plan.owners[r]].downloaded.end + newSize, n)
            else n == m
  {
    if ShrinkSent(m, r, newSize) {
      var k := m.plan.owners[r];
      var end := m.plan.chunks[k].downloaded.end + newSize;
      assert CutPlan(m.plan, r, end).chunks[k].span.end != m.plan.chunks[k].span.end;
    }
  }

  lemma CutKeepsPlan(source: seq<Byte>, written: seq<Write>, m: Manager, r: RunnerId, end: nat, n: Manager)
    requires PlanOk(source, m.plan) && WritesCover(written, m.plan.chunks) && CutTo(m, r, end, n)
    ensures PlanOk(source, n.plan) && WritesCover(written, n.plan.chunks)
  {
    CutKeepsInv(m.plan, r, end, n.plan);
    SettledKept(m.plan.chunks, m.plan.owners[r], n.plan.chunks[m.plan.owners[r]]);
    SameBytesSameWrites(written, m.plan.chunks, n.plan.chunks);
  }

  lemma CutKeepsCrew(source: seq<Byte>, m: Manager, procs: map<RunnerId, Proc>, r: RunnerId, end: nat, n: Manager,
      p: Proc)
    requires OwnersValid(m.plan.chunks, m.plan.owners) && CrewOk(source, m, procs) && CutTo(m, r, end, n)
    requires r in procs && p == procs[r].(limits := procs[r].limits + [n.mail[r].unread.value])
    ensures CrewOk(source, n, procs[r := p])
  {
    assert ProcAt(source, m, procs[r], r);
    ShrinkKeepsProc(source, m.plan.chunks[m.plan.owners[r]], m.mail[r], procs[r], r in m.connecting, r in m.streams,
      end);
    OneRunnerKeepsCrew(source, m, procs, n, r, p);
  }

  /** Whoever reads limits was spawned. */
  lemma ReaderIsSpawned(source: seq<Byte>, m: Manager, procs: map<RunnerId, Proc>, r: RunnerId)
    requires CrewOk(source, m, procs) && r in m.mail && m.mail[r].receiver
    ensures r in procs
  {
    SpawnedNotRejected(m, procs, r);
    assert r in procs || RejectedAt(m, r);
  }

  ghost predicate CutSystem(s: System, r: RunnerId, end: nat, t: System) {
    && CutTo(s.mgr, r, end, t.mgr) && r in s.procs && r in t.procs
    && t.procs == s.procs[r := t.procs[r]]
    && t.procs[r] == s.procs[r].(limits := s.procs[r].limits + [t.mgr.mail[r].unread.value])
    && t == s.(mgr := t.mgr, procs := t.procs)
  }

  lemma ShrinkCuts(s: System, r: RunnerId, newSize: nat, t: System)
    requires Engine.Steps(s, Shrink(r, newSize), t)
    requires OwnersValid(s.mgr.plan.chunks, s.mgr.plan.owners)
    requires ShrinkSent(s.mgr, r, newSize) && r in s.procs
    ensures CutSystem(s, r, s.mgr.plan.chunks[s.mgr.plan.owners[r]].downloaded.end + newSize, t)
  {
    ResizeAllOrNothing(s.mgr, r, newSize);
  }

  lemma ShrinkNext(s: System, r: RunnerId, newSize: nat, t: System)
    requires Engine.Steps(s, Shrink(r, newSize), t)
    requires OwnersValid(s.mgr.plan.chunks, s.mgr.plan.owners)
    requires r in s.mgr.mail && s.mgr.mail[r].receiver ==> r in s.procs
    ensures t == s || exists end: nat :: CutSystem(s, r, end, t)
  {
    ResizeAllOrNothing(s.mgr, r, newSize);
    if ShrinkSent(s.mgr, r, newSize) {
      ShrinkCuts(s, r, newSize, t);
    }
  }

  lemma CutKeepsSystem(s: System, r: RunnerId, end: nat, t: System)
    requires SystemOk(s) && !s.finished && CutSystem(s, r, end, t)
    ensures SystemOk(t)
  {
    CutKeepsPlan(s.source, s.written, s.mgr, r, end, t.mgr);
    CutKeepsCrew(s.source, s.mgr, s.procs, r, end, t.mgr, t.procs[r]);
    SystemOkParts(t);
  }

  lemma ShrinkKeepsInv(s: System, r: RunnerId, newSize: nat, t: System)
    requires SystemOk(s) && Engine.Steps(s, Shrink(r, newSize), t)
    ensures SystemOk(t)
  {
    if r in s.mgr.mail && s.mgr.mail[r].receiver {
      ReaderIsSpawned(s.source, s.mgr, s.procs, r);
    }
    ShrinkNext(s, r, newSize, t);
    if t != s {
      var end: nat :| CutSystem(s, r, end, t);
      CutKeepsSystem(s, r, end, t);
    }
  }

  // ----- The manager spawns a runner

  ghost predicate JoinedSystem(s: System, range: Range, accepted: bool, r: RunnerId, t: System) {
    && Accepts(s.mgr.plan, range)
    && Joined(s.mgr, t.mgr, r, range.start, accepted)
    && t.mgr.plan == Allocate(s.mgr.plan, range, Some(r), Pending)
    && t == s.(mgr := t.mgr, procs := if accepted then s.procs[r := NewProc(range)] else s.procs)
  }

  /** Without an id, or without room for the range, a spawn leaves only the search hint changed. */
  ghost predicate OnlyIds(s: System, t: System) {
    IdsAgree(t.mgr) && t == s.(mgr := s.mgr.(ids := t.mgr.ids))
  }

  lemma RefusedSpawn(m: Manager, procs: map<RunnerId, Proc>, r: RunnerId)
    requires IdsAgree(m) && Registered(m, procs) && AllocateRunner(m).1 == Some(r)
    ensures var n := ReleaseRunner(AllocateRunner(m).0, r);
            n == m.(ids := n.ids) && IdsAgree(n)
  {
    Ids.NextIdIsFree(m.ids);
    Ids.ReleaseFrees(Ids.NextId(m.ids).0, r);
    assert r !in m.mail;
    assert m.mail[r := Mailbox(None, true)] - {r} == m.mail;
  }

  lemma PlacedSpawn(m: Manager, range: Range, accepted: bool, r: RunnerId, n: Manager)
    requires Accepts(m.plan, range) && range.start !in m.plan.chunks && r !in m.plan.owners
    requires Ids.NextId(m.ids).1 == Some(r) && n == SpawnRunner(m, range, accepted).0
    ensures SpawnRunner(m, range, accepted).1 == Some(r)
    ensures Joined(m, n, r, range.start, accepted)
    ensures n.plan == Allocate(m.plan, range, Some(r), Pending)
  {
    if !accepted {
      assert m.mail[r := Mailbox(None, true)][r := Mailbox(None, false)] == m.mail[r := Mailbox(None, false)];
    }
  }

  lemma SpawnNext(s: System, range: Range, accepted: bool, t: System)
    requires Engine.Steps(s, Spawn(range, accepted), t)
    requires IdsAgree(s.mgr) && Registered(s.mgr, s.procs) && Planner.Inv(s.mgr.plan)
    ensures OnlyIds(s, t) || exists r :: JoinedSystem(s, range, accepted, r, t)
  {
    var (registered, id) := AllocateRunner(s.mgr);
    if id.None? {
      assert t == s;
    } else if Accepts(s.mgr.plan, range) {
      Ids.NextIdIsFree(s.mgr.ids);
      AcceptedIsNew(s.mgr.plan, range);
      PlacedSpawn(s.mgr, range, accepted, id.value, t.mgr);
      assert JoinedSystem(s, range, accepted, id.value, t);
    } else {
      RefusedSpawn(s.mgr, s.procs, id.value);
    }
  }

  lemma JoinKeepsPlan(source: seq<Byte>, written: seq<Write>, p: Plan, range: Range, r: RunnerId, q: Plan)
    requires PlanOk(source, p) && WritesCover(written, p.chunks)
    requires Accepts(p, range) && r !in p.owners && q == Allocate(p, range, Some(r), Pending)
    ensures PlanOk(source, q) && WritesCover(written, q.chunks)
  {
    AllocatePendingKeepsInv(p, range, r);
    SettledKept(p.chunks, range.start, NewChunk(range, Some(r), Pending));
    SameBytesSameWrites(written, p.chunks, q.chunks);
  }

  lemma JoinKeepsCrew(source: seq<Byte>, m: Manager, procs: map<RunnerId, Proc>, range: Range, accepted: bool,
      r: RunnerId, n: Manager)
    requires OwnersValid(m.plan.chunks, m.plan.owners) && CrewOk(source, m, procs)
    requires range.start < range.end <= |source|
    requires Joined(m, n, r, range.start, accepted) && n.plan.chunks[range.start] == NewChunk(range, Some(r), Pending)
    ensures CrewOk(source, n, if accepted then procs[r := NewProc(range)] else procs)
  {
    var after := if accepted then procs[r := NewProc(range)] else procs;
    NewProcOk(source, range, r);
    JoiningKeepsSets(m, procs, n, r, range.start, accepted, after);
    JoiningKeepsProcs(source, m, procs, n, r, range.start, accepted, after);
    JoiningKeepsRejected(m, n, r, range.start, accepted);
  }

  lemma JoinKeepsSystem(s: System, range: Range, accepted: bool, r: RunnerId, t: System)
    requires SystemOk(s) && !s.finished && JoinedSystem(s, range, accepted, r, t)
    ensures SystemOk(t)
  {
    AcceptedIsNew(s.mgr.plan, range);
    JoinKeepsPlan(s.source, s.written, s.mgr.plan, range, r, t.mgr.plan);
    JoinKeepsCrew(s.source, s.mgr, s.procs, range, accepted, r, t.mgr);
    SystemOkParts(t);
  }

  lemma IdsKeepCrew(source: seq<Byte>, m: Manager, procs: map<RunnerId, Proc>, n: Manager)
    requires CrewOk(source, m, procs) && n == m.(ids := n.ids) && IdsAgree(n)
    ensures CrewOk(source, n, procs)
  {
    forall r | r in procs ensures ProcAt(source, n, procs[r], r) {
      assert ProcAt(source, m, procs[r], r);
    }
    forall r | r in n.spawnFailures ensures RejectedAt(n, r) {
      assert RejectedAt(m, r);
    }
  }

  lemma IdsKeepSystem(s: System, t: System)
    requires SystemOk(s) && !s.finished && OnlyIds(s, t)
    ensures SystemOk(t)
  {
    IdsKeepCrew(s.source, s.mgr, s.procs, t.mgr);
    SystemOkParts(t);
  }

  lemma SpawnKeepsInv(s: System, range: Range, accepted: bool, t: System)
    requires SystemOk(s) && Engine.Steps(s, Spawn(range, accepted), t)
    ensures SystemOk(t)
  {
    SpawnNext(s, range, accepted, t);
    if OnlyIds(s, t) {
      IdsKeepSystem(s, t);
    } else {
      var r :| JoinedSystem(s, range, accepted, r, t);
      JoinKeepsSystem(s, range, accepted, r, t);
    }
  }
}
