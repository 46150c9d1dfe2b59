/**
 A run, as the strategies ask for it, after which a split fails: one runner has the whole file, is split twice, and
 each time the newcomer delivers its half and is not heard of since. Two runners hold ids, one chunk is active.
 */
module SplitRun {
  import opened Wrappers
  import opened Numbers
  import opened Planner
  import opened OrderedKeys
  import opened PlannerLaws
  import opened PlannerGaps
  import opened PlanCompletion
  import opened Manager
  import opened Engine
  import opened EngineInvariant
  import opened EngineSteps
  import opened EngineRuns
  import opened Splitting
  import opened Strategies
  import opened Delivery
  import Recovery
  import Ids = IdGeneration
  import Paths

  const IDS: nat := 3

  /** The least chunk size that a new planner sets. */
  const LEAST := NewPlan(0).minChunkSize

  // ----- The runner that is split, and those that delivered

  /** Runner `a` reads its chunk, `[0, end)`, of which nothing came; everything else is downloaded. */
  ghost predicate OneReads(p: Plan, a: RunnerId, end: nat) {
    && 0 in p.chunks && a in p.owners && p.owners[a] == 0
    && p.chunks[0] == ChunkState(Range(0, end), Range(0, 0), Some(a), Running)
    && (forall k | k in p.chunks && k != 0 :: p.chunks[k].status == Finished)
    && Gaps(p) == []
    && p.minChunkSize == LEAST
  }

  /** The others have sent how they ended, and nobody read it. */
  ghost predicate Crew(procs: map<RunnerId, Proc>, a: RunnerId, others: set<RunnerId>) {
    && procs.Keys == {a} + others && a !in others && procs[a].alive
    && forall b | b in others :: Reported(procs[b])
  }

  ghost predicate Team(s: System, a: RunnerId, end: nat, others: set<RunnerId>) {
    && Going(s) && OneReads(s.mgr.plan, a, end) && Crew(s.procs, a, others)
    && |s.mgr.ids.bits| == IDS && s.mgr.mail.Keys == {a} + others
  }

  lemma OnlyOneActive(p: Plan, a: RunnerId, end: nat)
    requires OneReads(p, a, end)
    ensures ActiveChunks(p.chunks) == {0} && |ActiveChunks(p.chunks)| == 1
  {
    assert ActiveChunks(p.chunks) == {0};
  }

  lemma IsPicked(m: Manager, a: RunnerId, end: nat)
    requires OneReads(m.plan, a, end) && |m.ids.bits| == IDS && end >= 2 * LEAST
    ensures Picked(m, a) && IncompleteRange(m.plan.chunks[m.plan.owners[a]]) == Range(0, end)
  {
    OnlyOneActive(m.plan, a, end);
  }

  // ----- Ids

  lemma MissingIff(s: set<nat>, n: nat)
    requires forall b | b in s :: b < n
    ensures |s| < n <==> exists b: nat :: b < n && b !in s
  {
    Within(s, n);
    EveryByte(s, n);
    if |s| < n {
      assert exists b :: b in Bytes(Range(0, n)) && b !in s;
    } else {
      forall b: nat | b < n ensures b in s {
        assert b in Bytes(Range(0, n));
      }
    }
  }

  /** An id is free exactly as long as fewer runners than ids have a mailbox. */
  lemma FreeIff(m: Manager)
    requires IdsAgree(m)
    ensures IdFree(m) <==> |m.mail.Keys| < |m.ids.bits|
  {
    forall r: RunnerId ensures r in m.mail.Keys <==> Ids.IsAllocated(m.ids, r) {
      assert Ids.IsAllocated(m.ids, r) <==> r in m.mail;
    }
    MissingIff(m.mail.Keys, |m.ids.bits|);
  }

  // ----- A chunk is split

  /** The plan once `a` kept the first half and `b` was given the second. */
  function SplitPlan(p: Plan, a: RunnerId, end: nat, b: RunnerId): Plan
    requires a in p.owners && p.owners[a] in p.chunks
  {
    var cut := CutPlan(p, a, end / 2);
    cut.(chunks := cut.chunks[end / 2 := NewChunk(Range(end / 2, end), Some(b), Pending)],
         owners := cut.owners[b := end / 2])
  }

  lemma HalvesLeaveNoGap(p: Plan, a: RunnerId, end: nat, b: RunnerId, q: Plan)
    requires Planner.Inv(p) && Planner.Inv(q) && OneReads(p, a, end) && end >= 2 && q == SplitPlan(p, a, end, b)
    ensures Gaps(q) == []
  {
    forall x: nat | Allocated(p, x) ensures Allocated(q, x) {
      var k :| k in p.chunks && p.chunks[k].span.Contains(x);
      var j := if k == 0 && x >= end / 2 then end / 2 else k;
      assert j in q.chunks && q.chunks[j].span.Contains(x);
    }
    GapsFollowAllocation(p, q);
  }

  lemma HalvesShape(p: Plan, a: RunnerId, end: nat, b: RunnerId, done: Plan)
    requires OneReads(p, a, end) && end >= 2 && a != b
    requires done.owners == SplitPlan(p, a, end, b).owners && end / 2 in done.chunks
    requires done.chunks == SplitPlan(p, a, end, b).chunks[end / 2 := done.chunks[end / 2]]
    requires done.chunks[end / 2].status == Finished && Gaps(done) == []
    requires done.minChunkSize == LEAST
    ensures OneReads(done, a, end / 2)
  {
  }

  lemma ProgressLeavesNoGap(q: Plan, k: nat, done: Plan)
    requires Planner.Inv(q) && Planner.Inv(done) && Gaps(q) == [] && done.total == q.total
    requires k in q.chunks && k in done.chunks && done.chunks == q.chunks[k := done.chunks[k]]
    requires done.chunks[k].span == q.chunks[k].span
    ensures Gaps(done) == []
  {
    SameSpansSameGaps(q, done);
  }

  lemma HalfIsSent(m: Manager, a: RunnerId, end: nat)
    requires OneReads(m.plan, a, end) && 2 <= end <= U64_MAX && a in m.mail && m.mail[a].receiver
    ensures ShrinkSent(m, a, end / 2)
  {
  }

  lemma AliveReads(s: System, r: RunnerId)
    requires SystemOk(s) && r in s.procs && s.procs[r].alive
    ensures r in s.mgr.mail && s.mgr.mail[r].receiver
  {
    SpawnedFacts(s, r);
  }

  lemma ChunkInFile(p: Plan, k: nat)
    requires Planner.Inv(p) && k in p.chunks
    ensures p.chunks[k].span.end <= p.total <= U64_MAX
  {
    assert p.chunks[k].WellFormed(k, p.total);
  }

  /** Runner `a` is cut to the first half. */
  lemma Halves(s: System, a: RunnerId, end: nat) returns (t: System)
    requires Going(s) && OneReads(s.mgr.plan, a, end) && end >= 2 && a in s.procs && s.procs[a].alive
    ensures Going(t) && Engine.Steps(s, Shrink(a, end / 2), t) && CutSystem(s, a, end / 2, t)
    ensures Accepts(t.mgr.plan, Range(end / 2, end))
  {
    AliveReads(s, a);
    ChunkInFile(s.mgr.plan, 0);
    HalfIsSent(s.mgr, a, end);
    t := Engine.Next(s, Shrink(a, end / 2));
    ShrinkCuts(s, a, end / 2, t);
    CutKeepsSystem(s, a, end / 2, t);
    SecondHalfFits(s.mgr.plan, a, end / 2, t.mgr.plan);
  }

  lemma TeamSize(members: set<RunnerId>, a: RunnerId, others: set<RunnerId>)
    requires members == {a} + others && a !in others
    ensures |members| == 1 + |others|
  {
  }

  lemma SplitIsAsked(s: System, a: RunnerId, end: nat, shrunk: System, t: System)
    requires Picked(s.mgr, a) && IncompleteRange(s.mgr.plan.chunks[s.mgr.plan.owners[a]]) == Range(0, end)
    requires Engine.Steps(s, Shrink(a, end / 2), shrunk)
    requires Engine.Steps(shrunk, Spawn(Range(end / 2, end), true), t)
    ensures Onward(s, t)
  {
    assert SplitsAt(s, a, Range(0, end), true, shrunk, t);
    Paths.OneStep(AskedStep, s, t);
  }

  lemma SplitIsPlanned(s: System, a: RunnerId, end: nat, shrunk: System, b: RunnerId, t: System)
    requires OneReads(s.mgr.plan, a, end) && end >= 2
    requires CutSystem(s, a, end / 2, shrunk) && Hired(shrunk, Range(end / 2, end), b, t)
    ensures a != b && t.mgr.plan == SplitPlan(s.mgr.plan, a, end, b) && |t.mgr.ids.bits| == |s.mgr.ids.bits|
    ensures b in t.procs && Fresh(t.procs[b]) && t.mgr.mail.Keys == s.mgr.mail.Keys + {b}
    ensures Joins(s.procs, t.procs, a, b)
  {
  }

  /** Runner `b` is new; of the others only `a` was sent a limit. */
  ghost predicate Joins(procs: map<RunnerId, Proc>, more: map<RunnerId, Proc>, a: RunnerId, b: RunnerId) {
    && a in procs && b !in procs && more.Keys == procs.Keys + {b} && more[a].alive == procs[a].alive
    && forall r | r in procs && r != a :: more[r] == procs[r]
  }

  lemma CrewGrows(procs: map<RunnerId, Proc>, more: map<RunnerId, Proc>, after: map<RunnerId, Proc>, a: RunnerId,
      others: set<RunnerId>, b: RunnerId)
    requires Crew(procs, a, others) && Joins(procs, more, a, b)
    requires b in after && after - {b} == more - {b} && Reported(after[b])
    ensures Crew(after, a, {b} + others)
  {
    forall r | r in more && r != b ensures r in after && after[r] == more[r] {
      assert r in more - {b} && (more - {b})[r] == more[r] && (after - {b})[r] == after[r];
    }
    forall r | r in after ensures r in more {
      assert r == b || r in after - {b};
    }
    assert after.Keys == more.Keys;
  }

  /** Once the second half is downloaded too, only the first half is read. */
  lemma HalfDelivered(s: System, b: RunnerId, p: Plan, a: RunnerId, end: nat, t: System)
    requires Planner.Inv(s.mgr.plan) && Planner.Inv(t.mgr.plan) && Gaps(s.mgr.plan) == [] && Frame(s, t, b)
    requires OneReads(p, a, end) && end >= 2 && a != b && s.mgr.plan == SplitPlan(p, a, end, b)
    requires t.mgr.plan.chunks[s.mgr.plan.owners[b]].status == Finished
    ensures OneReads(t.mgr.plan, a, end / 2)
  {
    Recovery.MapIsUpdate(s.mgr.plan.chunks, t.mgr.plan.chunks, end / 2);
    ProgressLeavesNoGap(s.mgr.plan, end / 2, t.mgr.plan);
    HalvesShape(p, a, end, b, t.mgr.plan);
  }

  /** Runner `b` was split off from `a`, and all is left to it. */
  ghost predicate SplitOffTo(s: System, a: RunnerId, end: nat, b: RunnerId, t: System) {
    && OneReads(s.mgr.plan, a, end) && end >= 2 && a != b
    && t.mgr.plan == SplitPlan(s.mgr.plan, a, end, b) && Gaps(t.mgr.plan) == []
    && |t.mgr.ids.bits| == |s.mgr.ids.bits| && t.mgr.mail.Keys == s.mgr.mail.Keys + {b}
    && Joins(s.procs, t.procs, a, b) && Fresh(t.procs[b])
  }

  lemma SplitIsOff(s: System, a: RunnerId, end: nat, shrunk: System, b: RunnerId, t: System)
    requires SystemOk(s) && SystemOk(t) && OneReads(s.mgr.plan, a, end) && end >= 2 && a in s.procs
    requires CutSystem(s, a, end / 2, shrunk) && Hired(shrunk, Range(end / 2, end), b, t)
    ensures SplitOffTo(s, a, end, b, t)
  {
    SplitIsPlanned(s, a, end, shrunk, b, t);
    HalvesLeaveNoGap(s.mgr.plan, a, end, b, t.mgr.plan);
  }

  /** Another runner takes the second half. */
  lemma SplitsOff(s: System, a: RunnerId, end: nat, others: set<RunnerId>) returns (t: System, b: RunnerId)
    requires Team(s, a, end, others) && end >= 2 * LEAST && |others| + 1 < IDS
    ensures Going(t) && Onward(s, t) && SplitOffTo(s, a, end, b, t)
  {
    var shrunk := Halves(s, a, end);
    TeamSize(s.mgr.mail.Keys, a, others);
    assert shrunk.mgr.mail.Keys == s.mgr.mail.Keys;
    FreeIff(shrunk.mgr);
    t, b := Hires(shrunk, Range(end / 2, end));
    IsPicked(s.mgr, a, end);
    SplitIsAsked(s, a, end, shrunk, t);
    SplitIsOff(s, a, end, shrunk, b, t);
  }

  lemma TeamGrows(s: System, a: RunnerId, end: nat, others: set<RunnerId>, b: RunnerId, t: System, u: System)
    requires OneReads(s.mgr.plan, a, end) && Crew(s.procs, a, others) && |s.mgr.ids.bits| == IDS
    requires s.mgr.mail.Keys == {a} + others && SplitOffTo(s, a, end, b, t)
    requires Planner.Inv(t.mgr.plan) && Planner.Inv(u.mgr.plan) && Frame(t, u, b) && Reported(u.procs[b])
    requires u.mgr.plan.chunks[t.mgr.plan.owners[b]].status == Finished
    ensures OneReads(u.mgr.plan, a, end / 2) && |{b} + others| == |others| + 1 && Crew(u.procs, a, {b} + others)
    ensures |u.mgr.ids.bits| == IDS && u.mgr.mail.Keys == {a} + ({b} + others)
  {
    HalfDelivered(t, b, s.mgr.plan, a, end, u);
    CrewGrows(s.procs, t.procs, u.procs, a, others, b);
    TeamSize({b} + others, b, others);
  }

  /** One split, and the newcomer delivered. */
  lemma SplitOnce(s: System, a: RunnerId, end: nat, others: set<RunnerId>) returns (t: System, more: set<RunnerId>)
    requires Team(s, a, end, others) && end >= 2 * LEAST && |others| + 1 < IDS
    ensures Onward(s, t) && |more| == |others| + 1 && Team(t, a, end / 2, more)
  {
    var split, b := SplitsOff(s, a, end, others);
    t := Delivers(split, b);
    TeamGrows(s, a, end, others, b, split, t);
    OnwardTrans(s, split, t);
    more := {b} + others;
  }

  // ----- The run

  lemma EmptyPlanGaps(total: nat)
    requires total > 0
    ensures Gaps(NewPlan(total)) == [Range(0, total)]
  {
    assert InOrder(NewPlan(total).chunks.Keys) == [];
  }

  /** The first runner is given the whole file, and begins. */
  lemma FirstBegins(source: seq<Byte>) returns (s: System, a: RunnerId)
    requires 2 <= |source| <= U64_MAX
    ensures Onward(Start(source, IDS), s) && Team(s, a, |source|, {})
  {
    var start := Start(source, IDS);
    StartOk(source, IDS);
    var hired := start;
    hired, a := FirstHired(start);
    s := Begins(hired, a);
    FirstReads(hired.mgr.plan, a, |source|, s.mgr.plan);
    FirstIsAlone(start, |source|, a, hired, s);
    OnwardTrans(start, hired, s);
  }

  lemma FirstIsAlone(s: System, total: nat, a: RunnerId, t: System, u: System)
    requires s.procs == map[] && s.mgr.mail == map[] && |s.mgr.ids.bits| == IDS
    requires Hired(s, Range(0, total), a, t) && Frame(t, u, a) && u.procs[a].alive
    ensures Crew(u.procs, a, {}) && u.mgr.mail.Keys == {a} + {} && |u.mgr.ids.bits| == IDS
  {
    forall r | r in u.procs ensures r == a {
      assert r == a || r in u.procs - {a};
    }
  }

  lemma FirstHired(s: System) returns (t: System, a: RunnerId)
    requires Going(s) && s == Start(s.source, IDS) && |s.source| > 0
    ensures Going(t) && Onward(s, t) && Hired(s, Range(0, |s.source|), a, t)
  {
    EmptyPlanGaps(|s.source|);
    Recovery.GapIsAccepted(s.mgr.plan, 0);
    FreeIff(s.mgr);
    t, a := Hires(s, Gaps(s.mgr.plan)[0]);
    assert Creates(s, t);
    Paths.OneStep(AskedStep, s, t);
  }

  lemma FirstReads(p: Plan, a: RunnerId, total: nat, q: Plan)
    requires Planner.Inv(p) && Planner.Inv(q) && total > 0 && q == MarkRunning(p, a).0
    requires p.total == total && p.minChunkSize == LEAST && p.owners == map[a := 0]
    requires p.chunks == map[0 := NewChunk(Range(0, total), Some(a), Pending)]
    ensures OneReads(q, a, total)
  {
    NoGapsIffAllocated(q);
    forall b: nat | b < total ensures Allocated(q, b) {
      assert 0 in q.chunks && q.chunks[0].span.Contains(b);
    }
  }

  /** The split takes the first half away from the runner, and then nobody is found for the second. */
  ghost predicate SplitFails(m: Manager, r: RunnerId) {
    && r in m.plan.owners && m.plan.owners[r] in m.plan.chunks
    && forall accepted ::
         SplitRunner(m, r, IncompleteRange(m.plan.chunks[m.plan.owners[r]]), accepted).1.ExpectFailed?
  }

  lemma FullTeamFails(s: System, a: RunnerId, end: nat, others: set<RunnerId>)
    requires Team(s, a, end, others) && |others| + 1 == IDS && end >= 2 * LEAST
    ensures Picked(s.mgr, a) && SplitFails(s.mgr, a)
  {
    IsPicked(s.mgr, a, end);
    TeamSize(s.mgr.mail.Keys, a, others);
    FreeIff(s.mgr);
    AliveReads(s, a);
    PickedSplitFailsIff(s.mgr, a, s.mgr.plan.minChunkSize, true);
    PickedSplitFailsIff(s.mgr, a, s.mgr.plan.minChunkSize, false);
  }

  lemma SplitTwice(s: System, a: RunnerId, end: nat) returns (t: System, others: set<RunnerId>)
    requires Team(s, a, end, {}) && end >= 8 * LEAST
    ensures Onward(s, t) && |others| == 2 && Team(t, a, end / 2 / 2, others)
  {
    var once, one := SplitOnce(s, a, end, {});
    t, others := SplitOnce(once, a, end / 2, one);
    OnwardTrans(s, once, t);
  }

  /** Of any file of 8 MiB or more, with three ids, the strategies may get to where the split they ask for fails. */
  lemma SplitMayFail(source: seq<Byte>)
    requires 8 * 1024 * 1024 <= |source| <= U64_MAX
    ensures exists s, r ::
              Onward(Start(source, IDS), s) && Reachable(source, IDS, s) && Picked(s.mgr, r) && SplitFails(s.mgr, r)
  {
    var begun, a := FirstBegins(source);
    var s, others := SplitTwice(begun, a, |source|);
    OnwardTrans(Start(source, IDS), begun, s);
    OnwardLeads(Start(source, IDS), s);
    FullTeamFails(s, a, |source| / 2 / 2, others);
  }
}
