/**
 Whole runs of the download: any interleaving of the manager's events, the runners' actions, their
 failures and deaths. What was written is the source, once; completion means all of it; the views
 of a chunk agree; and no `expect` fails.
 */
module EngineRuns {
  import opened Numbers
  import opened Planner
  import opened Engine
  import opened EngineLocal
  import opened EngineInvariant
  import opened EngineSteps
  import opened EngineTicks
  import Paths
  import PlannerGaps
  import Ids = IdGeneration
  import Runner
  import RunnerLaws

  ghost predicate Step(s: System, t: System) {
    exists e :: Engine.Steps(s, e, t)
  }

  ghost predicate StepAt(run: seq<System>, i: nat)
    requires i + 1 < |run|
  {
    Step(run[i], run[i + 1])
  }

  /** A run of a download of `source` with at most `maxConcurrency` runners at a time. */
  ghost predicate IsRun(source: seq<Byte>, maxConcurrency: nat, run: seq<System>) {
    && |source| <= U64_MAX
    && run != []
    && run[0] == Start(source, maxConcurrency)
    && forall i: nat | i + 1 < |run| :: StepAt(run, i)
  }

  // ----- The invariant holds throughout

  lemma StartOk(source: seq<Byte>, maxConcurrency: nat)
    requires |source| <= U64_MAX
    ensures SystemOk(Start(source, maxConcurrency))
  {
    Ids.NewIdsInv(maxConcurrency);
    assert DownloadedBytes(NewPlan(|source|).chunks) == {};
  }

  lemma NextKeepsInv(s: System, e: Event, t: System)
    requires SystemOk(s) && Engine.Steps(s, e, t)
    ensures SystemOk(t)
  {
    match e
    case Spawn(range, accepted) => SpawnKeepsInv(s, range, accepted, t);
    case Shrink(r, newSize) => ShrinkKeepsInv(s, r, newSize, t);
    case SpawnFailureTick => SpawnFailureKeepsInv(s, t);
    case LifecycleTick(r) =>
      if s.procs[r].loop.lifecycle.sent[s.procs[r].loop.lifecycle.taken].Started? {
        StartedKeepsInv(s, r, t);
      } else {
        StoppedKeepsInv(s, r, t);
      }
    case LostTick(r) => LostKeepsInv(s, r, t);
    case DataTick(r) => DataKeepsInv(s, r, t);
    case DataClosedTick(r) => DataClosedKeepsInv(s, r, t);
    case RunnerActs(r, a) => ActsKeepsInv(s, r, a, t);
    case RunnerDies(r) => DiesKeepsInv(s, r, t);
  }

  /** A step keeps the invariant and the source, and only appends to what was written. */
  lemma StepKeepsInv(s: System, t: System)
    requires SystemOk(s) && Step(s, t)
    ensures SystemOk(t) && t.source == s.source && s.written <= t.written
  {
    var e :| Engine.Steps(s, e, t);
    NextKeepsInv(s, e, t);
    NextAppends(s, e, t);
  }

  lemma NextAppends(s: System, e: Event, t: System)
    requires Engine.Steps(s, e, t)
    ensures t.source == s.source && s.written <= t.written
  {
  }

  lemma {:induction false} RunKeepsInv(source: seq<Byte>, maxConcurrency: nat, run: seq<System>, i: nat)
    requires IsRun(source, maxConcurrency, run) && i < |run|
    ensures SystemOk(run[i]) && run[i].source == source
  {
    if i == 0 {
      StartOk(source, maxConcurrency);
    } else {
      RunKeepsInv(source, maxConcurrency, run, i - 1);
      assert StepAt(run, i - 1);
      StepKeepsInv(run[i - 1], run[i]);
    }
  }

  lemma RunSteps(source: seq<Byte>, maxConcurrency: nat, run: seq<System>, i: nat)
    requires IsRun(source, maxConcurrency, run) && i + 1 < |run|
    ensures SystemOk(run[i]) && Step(run[i], run[i + 1])
  {
    RunKeepsInv(source, maxConcurrency, run, i);
    assert StepAt(run, i);
  }

  lemma Extend(source: seq<Byte>, maxConcurrency: nat, run: seq<System>, e: Event, t: System)
    requires IsRun(source, maxConcurrency, run)
    requires Engine.Steps(run[|run| - 1], e, t)
    ensures IsRun(source, maxConcurrency, run + [t])
  {
    forall i: nat | i + 1 < |run + [t]| ensures StepAt(run + [t], i) {
      if i + 1 < |run| {
        assert StepAt(run, i);
      }
    }
  }

  // ----- Where runs get

  /** Events lead from `s` to `t`. */
  ghost predicate Leads(s: System, t: System) { Paths.Leads(Step, s, t) }

  lemma Goes(s: System, e: Event, t: System)
    requires Engine.Steps(s, e, t)
    ensures Leads(s, t)
  {
    Paths.OneStep(Step, s, t);
  }

  lemma LeadsTrans(s: System, t: System, u: System)
    requires Leads(s, t) && Leads(t, u)
    ensures Leads(s, u)
  {
    Paths.Trans(Step, s, t, u);
  }

  /** Some run gets there. */
  ghost predicate Reachable(source: seq<Byte>, maxConcurrency: nat, s: System) {
    |source| <= U64_MAX && Leads(Start(source, maxConcurrency), s)
  }

  lemma ReachableIff(source: seq<Byte>, maxConcurrency: nat, s: System)
    ensures Reachable(source, maxConcurrency, s) <==>
            exists run: seq<System> :: IsRun(source, maxConcurrency, run) && run[|run| - 1] == s
  {
    var start := Start(source, maxConcurrency);
    if Reachable(source, maxConcurrency, s) {
      var run :| Paths.Joins(Step, run, start, s);
      forall i: nat | i + 1 < |run| ensures StepAt(run, i) {
        assert Paths.At(Step, run, i);
      }
      assert IsRun(source, maxConcurrency, run);
    }
    if run: seq<System> :| IsRun(source, maxConcurrency, run) && run[|run| - 1] == s {
      forall i: nat | i + 1 < |run| ensures Paths.At(Step, run, i) {
        assert StepAt(run, i);
      }
      assert Paths.Joins(Step, run, start, s);
    }
  }

  lemma ReachableOk(source: seq<Byte>, maxConcurrency: nat, s: System)
    requires Reachable(source, maxConcurrency, s)
    ensures SystemOk(s) && s.source == source
  {
    ReachableIff(source, maxConcurrency, s);
    var run: seq<System> :| IsRun(source, maxConcurrency, run) && run[|run| - 1] == s;
    RunKeepsInv(source, maxConcurrency, run, |run| - 1);
  }

  /** What was written stays written. */
  lemma {:induction false} WritesOnlyGrow(source: seq<Byte>, maxConcurrency: nat, run: seq<System>, i: nat, j: nat)
    requires IsRun(source, maxConcurrency, run) && i <= j < |run|
    ensures run[i].written <= run[j].written
    decreases j
  {
    if i < j {
      WritesOnlyGrow(source, maxConcurrency, run, i, j - 1);
      WritesGrow(source, maxConcurrency, run, j - 1);
    }
  }

  lemma WritesGrow(source: seq<Byte>, maxConcurrency: nat, run: seq<System>, i: nat)
    requires IsRun(source, maxConcurrency, run) && i + 1 < |run|
    ensures run[i].written <= run[i + 1].written
  {
    RunSteps(source, maxConcurrency, run, i);
    StepKeepsInv(run[i], run[i + 1]);
  }

  // ----- What was written

  ghost function WrittenBytes(written: seq<Write>): set<nat> {
    set i, b | 0 <= i < |written| && b in Bytes(written[i].range) :: b
  }

  /**
   In every state of every run, each range handed to the writer carries the source's bytes of exactly
   that range, no byte is handed over twice, and the planner's counter is their number.
   */
  lemma WritesAreTheSource(source: seq<Byte>, maxConcurrency: nat, run: seq<System>, i: nat)
    requires IsRun(source, maxConcurrency, run) && i < |run|
    ensures forall w | 0 <= w < |run[i].written| ::
              var part := run[i].written[w];
              part.range.start <= part.range.end <= |source| && part.bytes == source[part.range.start..part.range.end]
    ensures forall v, w | 0 <= v < w < |run[i].written| ::
              Bytes(run[i].written[v].range) !! Bytes(run[i].written[w].range)
    ensures run[i].mgr.plan.accepted == |WrittenBytes(run[i].written)|
  {
    RunKeepsInv(source, maxConcurrency, run, i);
    AcceptedIsWritten(run[i].written, run[i].mgr.plan);
  }

  lemma AcceptedIsWritten(written: seq<Write>, p: Plan)
    requires Planner.Inv(p) && WritesCover(written, p.chunks)
    ensures p.accepted == |WrittenBytes(written)|
  {
    forall b: nat ensures b in WrittenBytes(written) <==> b in DownloadedBytes(p.chunks) {
      assert b in WrittenBytes(written) <==> InWrites(written, b) by {
        if InWrites(written, b) {
          var i :| 0 <= i < |written| && written[i].range.Contains(b);
          assert b in Bytes(written[i].range);
        }
      }
    }
    assert WrittenBytes(written) == DownloadedBytes(p.chunks);
  }

  /** The write puts the source's byte `b` in its place. */
  ghost predicate Puts(source: seq<Byte>, w: Write, b: nat) {
    && b < |source| && w.range.Contains(b)
    && b - w.range.start < |w.bytes|
    && w.bytes[b - w.range.start] == source[b]
  }

  /** Exactly one write touches the byte, and it puts the source's byte there. */
  ghost predicate WrittenOnce(source: seq<Byte>, written: seq<Write>, b: nat) {
    exists w :: 0 <= w < |written| && Puts(source, written[w], b) && OnlyWrite(written, b, w)
  }

  ghost predicate OnlyWrite(written: seq<Write>, b: nat, w: nat) {
    forall v | 0 <= v < |written| && written[v].range.Contains(b) :: v == w
  }

  /** When completion is reported, every byte of the source was handed to the writer, by exactly one write. */
  lemma FinishedMeansEverything(source: seq<Byte>, maxConcurrency: nat, run: seq<System>, i: nat)
    requires IsRun(source, maxConcurrency, run) && i < |run| && run[i].finished
    ensures run[i].mgr.plan.accepted == |source|
    ensures forall b: nat | b < |source| :: WrittenOnce(source, run[i].written, b)
  {
    RunKeepsInv(source, maxConcurrency, run, i);
    FinishedIsWritten(run[i]);
  }

  lemma FinishedIsWritten(s: System)
    requires SystemOk(s) && s.finished
    ensures s.mgr.plan.accepted == |s.source|
    ensures forall b: nat | b < |s.source| :: WrittenOnce(s.source, s.written, b)
  {
    CompletePlanIsWritten(s);
    forall b: nat | b < |s.source| ensures WrittenOnce(s.source, s.written, b) {
      FaithfulPuts(s.source, s.written, b);
    }
  }

  lemma FaithfulPuts(source: seq<Byte>, written: seq<Write>, b: nat)
    requires WritesFaithful(source, written) && InWrites(written, b)
    ensures WrittenOnce(source, written, b)
  {
    var w :| 0 <= w < |written| && written[w].range.Contains(b);
    assert Puts(source, written[w], b);
    forall v | 0 <= v < |written| && written[v].range.Contains(b) ensures v == w {
      assert b in Bytes(written[v].range) && b in Bytes(written[w].range);
    }
    assert OnlyWrite(written, b, w);
  }

  lemma CompletePlanIsWritten(s: System)
    requires PlanOk(s.source, s.mgr.plan) && WritesCover(s.written, s.mgr.plan.chunks) && IsComplete(s.mgr.plan)
    ensures s.mgr.plan.accepted == |s.source|
    ensures forall b: nat | b < |s.source| :: InWrites(s.written, b)
  {
    PlannerGaps.CompleteMeansEverything(s.mgr.plan);
    forall b: nat | b < |s.source| ensures InWrites(s.written, b) {
      assert Downloaded(s.mgr.plan, b);
      var k :| k in s.mgr.plan.chunks && s.mgr.plan.chunks[k].downloaded.Contains(b);
      assert b in Bytes(s.mgr.plan.chunks[k].downloaded);
    }
  }

  // ----- The views of a chunk

  /**
   For every runner the manager observes: its chunk's downloaded part is what was received of it, cut
   to the chunk; its own limit is never below the chunk; the limits it was sent strictly decrease
   from its range's length to the chunk's; and it refused none of them.
   */
  lemma ViewsAgree(source: seq<Byte>, maxConcurrency: nat, run: seq<System>, i: nat, r: RunnerId)
    requires IsRun(source, maxConcurrency, run) && i < |run| && r in run[i].procs
    ensures r in run[i].mgr.plan.owners && run[i].mgr.plan.owners[r] in run[i].mgr.plan.chunks
    ensures var c := run[i].mgr.plan.chunks[run[i].mgr.plan.owners[r]];
            var p := run[i].procs[r];
            && p.loop.data.taken <= |p.loop.data.sent|
            && c.downloaded.Len() == Min(|RunnerLaws.Flat(p.loop.data.sent[..p.loop.data.taken])|, c.span.Len())
            && p.loop.total.Some? && p.loop.total.value >= c.span.Len()
            && p.limits != [] && p.limits[0] == p.size && p.limits[|p.limits| - 1] == c.span.Len()
            && StrictlyDecreasing(p.limits)
            && !p.loop.refused
  {
    RunKeepsInv(source, maxConcurrency, run, i);
    assert ProcAt(run[i].source, run[i].mgr, run[i].procs[r], r);
  }

  /** A started runner that reports success, read or not, has had its whole chunk accepted once its frames are taken. */
  lemma SuccessIsTrue(source: seq<Byte>, maxConcurrency: nat, run: seq<System>, i: nat, r: RunnerId)
    requires IsRun(source, maxConcurrency, run) && i < |run| && r in run[i].procs
    requires var p := run[i].procs[r];
             && p.loop.lifecycle.taken == 1 < |p.loop.lifecycle.sent|
             && Runner.TellsSuccess(p.loop.lifecycle.sent[1])
    ensures r in run[i].mgr.plan.owners && run[i].mgr.plan.owners[r] in run[i].mgr.plan.chunks
    ensures run[i].mgr.plan.chunks[run[i].mgr.plan.owners[r]].IsComplete()
  {
    RunKeepsInv(source, maxConcurrency, run, i);
    assert ProcAt(run[i].source, run[i].mgr, run[i].procs[r], r);
    var m := run[i].mgr;
    SuccessMeansComplete(run[i].source, m.plan.chunks[m.plan.owners[r]], m.mail[r], run[i].procs[r],
      r in m.connecting, r in m.streams);
  }

  /** No `expect` or debug assertion of the manager's ticks ever fails, and ids never alias. */
  lemma NeverPanics(source: seq<Byte>, maxConcurrency: nat, run: seq<System>, i: nat)
    requires IsRun(source, maxConcurrency, run) && i < |run|
    ensures !run[i].panicked
    ensures run[i].mgr.plan.owners.Keys == run[i].mgr.mail.Keys
    ensures forall r: RunnerId {:trigger r in run[i].mgr.mail} ::
              r in run[i].mgr.mail <==> Ids.IsAllocated(run[i].mgr.ids, r)
    ensures run[i].mgr.ids.count == Ids.SetBits(run[i].mgr.ids.bits)
  {
    RunKeepsInv(source, maxConcurrency, run, i);
    forall r: RunnerId ensures r in run[i].mgr.mail <==> Ids.IsAllocated(run[i].mgr.ids, r) {
      assert Ids.IsAllocated(run[i].mgr.ids, r) <==> r in run[i].mgr.mail;
    }
  }
}
