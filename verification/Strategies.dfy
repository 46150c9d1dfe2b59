/**
 The steps a download takes as its strategies ask: a runner for a whole gap while fewer are active than may be,
 a split of the picked runner's range, and everything they have no say in.
 */
module Strategies {
  import opened Planner
  import opened ChunkPlanning
  import opened Manager
  import opened Engine
  import opened EngineRuns
  import opened Splitting
  import Paths

  ghost function ActiveChunks(chunks: map<nat, ChunkState>): set<nat> {
    set k | k in chunks && chunks[k].status.IsActive()
  }

  ghost predicate Creates(s: System, t: System) {
    && |ActiveChunks(s.mgr.plan.chunks)| < |s.mgr.ids.bits|
    && exists i, accepted :: 0 <= i < |Gaps(s.mgr.plan)| && Engine.Steps(s, Spawn(Gaps(s.mgr.plan)[i], accepted), t)
  }

  /**
   The runner both strategies would split: nothing is unallocated, its chunk has the most left, enough of it for
   two of the least size, and the number of active chunks lets a further one in.
   */
  ghost predicate Picked(m: Manager, r: RunnerId) {
    && r in m.plan.owners && m.plan.owners[r] in m.plan.chunks
    && Gaps(m.plan) == [] && MostRemaining(m.plan.chunks, m.plan.minChunkSize, m.plan.owners[r])
    && m.plan.chunks[m.plan.owners[r]].Remaining() >= 2 * m.plan.minChunkSize
    && |ActiveChunks(m.plan.chunks)| + 1 < |m.ids.bits|
  }

  ghost predicate SplitsAt(s: System, r: RunnerId, incomplete: Range, accepted: bool, shrunk: System, t: System) {
    var half := incomplete.Len() / 2;
    && Engine.Steps(s, Shrink(r, half), shrunk)
    && Engine.Steps(shrunk, Spawn(Range(incomplete.start + half, incomplete.end), accepted), t)
  }

  ghost predicate Splits(s: System, t: System) {
    exists r, accepted, shrunk ::
      && Picked(s.mgr, r)
      && SplitsAt(s, r, IncompleteRange(s.mgr.plan.chunks[s.mgr.plan.owners[r]]), accepted, shrunk, t)
  }

  predicate Unasked(e: Event) { !e.Spawn? && !e.Shrink? }

  ghost predicate Happens(s: System, t: System) {
    exists e :: Unasked(e) && Engine.Steps(s, e, t)
  }

  ghost predicate AskedStep(s: System, t: System) { Happens(s, t) || Creates(s, t) || Splits(s, t) }

  /** Steps as the strategies ask lead from `s` to `t`. */
  ghost predicate Onward(s: System, t: System) { Paths.Leads(AskedStep, s, t) }

  lemma Does(s: System, e: Event, t: System)
    requires Unasked(e) && Engine.Steps(s, e, t)
    ensures Onward(s, t)
  {
    assert Happens(s, t);
    Paths.OneStep(AskedStep, s, t);
  }

  lemma OnwardTrans(s: System, t: System, u: System)
    requires Onward(s, t) && Onward(t, u)
    ensures Onward(s, u)
  {
    Paths.Trans(AskedStep, s, t, u);
  }

  lemma SplitLeads(s: System, r: RunnerId, incomplete: Range, accepted: bool, shrunk: System, t: System)
    requires SplitsAt(s, r, incomplete, accepted, shrunk, t)
    ensures Leads(s, t)
  {
    var half := incomplete.Len() / 2;
    Goes(s, Shrink(r, half), shrunk);
    Goes(shrunk, Spawn(Range(incomplete.start + half, incomplete.end), accepted), t);
    LeadsTrans(s, shrunk, t);
  }

  lemma AskedStepLeads(s: System, t: System)
    requires AskedStep(s, t)
    ensures Leads(s, t)
  {
    if Splits(s, t) {
      var r, accepted, shrunk :|
        && Picked(s.mgr, r)
        && SplitsAt(s, r, IncompleteRange(s.mgr.plan.chunks[s.mgr.plan.owners[r]]), accepted, shrunk, t);
      SplitLeads(s, r, IncompleteRange(s.mgr.plan.chunks[s.mgr.plan.owners[r]]), accepted, shrunk, t);
    } else {
      var e :| Engine.Steps(s, e, t);
      Goes(s, e, t);
    }
  }

  /** Whatever the strategies lead to, a run gets to. */
  lemma OnwardLeads(s: System, t: System)
    requires Onward(s, t)
    ensures Leads(s, t)
  {
    forall u, v | AskedStep(u, v) ensures Leads(u, v) {
      AskedStepLeads(u, v);
    }
    var path :| Paths.Joins(AskedStep, path, s, t);
    Paths.Walks(AskedStep, Step, path, s, t);
  }
}
