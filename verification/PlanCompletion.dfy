/**
 When everything was accepted, and which failure leaves a plan complete: that of the runner whose chunk was
 complete, and the last open.
 */
module PlanCompletion {
  import opened Planner
  import opened PlannerLaws
  import opened PlannerGaps

  // ----- Plans with everything accepted

  lemma EveryByte(s: set<nat>, total: nat)
    requires forall b | b in s :: b < total
    ensures |s| == total <==> s == Bytes(Range(0, total))
  {
    var all := Bytes(Range(0, total));
    RangeSize(Range(0, total));
    assert s <= all;
    assert all == s + (all - s);
  }

  lemma DownloadedWithin(p: Plan)
    requires Inv(p)
    ensures forall b | b in DownloadedBytes(p.chunks) :: b < p.total
  {
    forall b | b in DownloadedBytes(p.chunks) ensures b < p.total {
      var k :| k in p.chunks && b in Bytes(p.chunks[k].downloaded);
      assert p.chunks[k].WellFormed(k, p.total);
    }
  }

  lemma DownloadedIsAllocated(p: Plan, b: nat)
    requires Inv(p) && b in DownloadedBytes(p.chunks)
    ensures Allocated(p, b)
  {
    var k :| k in p.chunks && b in Bytes(p.chunks[k].downloaded);
    assert p.chunks[k].WellFormed(k, p.total);
    assert p.chunks[k].span.Contains(b);
  }

  lemma LastByteDownloaded(p: Plan, k: nat)
    requires Inv(p) && k in p.chunks && DownloadedBytes(p.chunks) == Bytes(Range(0, p.total))
    ensures p.chunks[k].IsComplete()
  {
    assert p.chunks[k].WellFormed(k, p.total);
    var b := p.chunks[k].span.end - 1;
    assert b in DownloadedBytes(p.chunks);
    var j :| j in p.chunks && b in Bytes(p.chunks[j].downloaded);
    assert p.chunks[j].WellFormed(j, p.total);
    AllocatedAt(p, k, b);
    assert p.chunks[j].span.Contains(b);
  }

  lemma FullLeavesNothing(p: Plan)
    requires Inv(p) && DownloadedBytes(p.chunks) == Bytes(Range(0, p.total))
    ensures Gaps(p) == [] && forall k | k in p.chunks :: p.chunks[k].IsComplete()
  {
    NoGapsIffAllocated(p);
    forall b: nat | b < p.total ensures Allocated(p, b) {
      assert b in Bytes(Range(0, p.total));
      DownloadedIsAllocated(p, b);
    }
    forall k | k in p.chunks ensures p.chunks[k].IsComplete() { LastByteDownloaded(p, k); }
  }

  lemma CompleteByte(p: Plan, b: nat)
    requires Inv(p) && Allocated(p, b) && forall k | k in p.chunks :: p.chunks[k].IsComplete()
    ensures b in DownloadedBytes(p.chunks)
  {
    var k :| k in p.chunks && p.chunks[k].span.Contains(b);
    assert p.chunks[k].WellFormed(k, p.total);
    assert b in Bytes(p.chunks[k].downloaded);
  }

  lemma NothingLeftIsFull(p: Plan)
    requires Inv(p) && Gaps(p) == [] && forall k | k in p.chunks :: p.chunks[k].IsComplete()
    ensures DownloadedBytes(p.chunks) == Bytes(Range(0, p.total))
  {
    DownloadedWithin(p);
    NoGapsIffAllocated(p);
    forall b: nat | b < p.total ensures b in DownloadedBytes(p.chunks) {
      assert Allocated(p, b);
      CompleteByte(p, b);
    }
  }

  /** Everything was accepted exactly when the chunks leave no gap and each is downloaded. */
  lemma FullIff(p: Plan)
    requires Inv(p)
    ensures p.accepted == p.total <==> Gaps(p) == [] && forall k | k in p.chunks :: p.chunks[k].IsComplete()
  {
    DownloadedWithin(p);
    EveryByte(DownloadedBytes(p.chunks), p.total);
    if p.accepted == p.total {
      FullLeavesNothing(p);
    } else if Gaps(p) == [] && forall k | k in p.chunks :: p.chunks[k].IsComplete() {
      NothingLeftIsFull(p);
    }
  }

  // ----- Giving a chunk up

  /** Once `k` is given up from `b` on, no chunk holds `b`. */
  lemma FreedByte(chunks: map<nat, ChunkState>, total: nat, k: nat, after: map<nat, ChunkState>)
    requires WellFormed(chunks, total) && PairwiseDisjoint(chunks) && k in chunks && !chunks[k].IsComplete()
    requires after - {k} == chunks - {k}
    requires k in after ==> after[k].span.end <= chunks[k].downloaded.end
    ensures forall j | j in after :: !after[j].span.Contains(chunks[k].downloaded.end)
  {
    forall j | j in after ensures !after[j].span.Contains(chunks[k].downloaded.end) {
      if j != k {
        assert j in after - {k};
        assert j in chunks - {k};
        assert after[j] == (after - {k})[j] == (chunks - {k})[j] == chunks[j];
      }
    }
  }

  lemma UnheldByteIsGap(p: Plan, b: nat)
    requires Inv(p) && b < p.total && forall j | j in p.chunks :: !p.chunks[j].span.Contains(b)
    ensures Gaps(p) != []
  {
    NoGapsIffAllocated(p);
    assert !Allocated(p, b);
  }

  lemma FailedShape(p: Plan, r: RunnerId, q: Plan)
    requires WellFormed(p.chunks, p.total) && r in p.owners && p.owners[r] in p.chunks && q == MarkFailed(p, r).0
    ensures q.total == p.total && q.chunks - {p.owners[r]} == p.chunks - {p.owners[r]}
    ensures var c := p.chunks[p.owners[r]];
            if c.downloaded.start == c.downloaded.end then q.chunks == p.chunks - {p.owners[r]}
            else q.chunks == p.chunks[p.owners[r] := KeepDownloaded(c)]
  {
  }

  /** Giving up a chunk that is not complete leaves a gap. */
  lemma GivingUpLeavesGap(p: Plan, r: RunnerId, q: Plan)
    requires Inv(p) && Inv(q) && r in p.owners && q == MarkFailed(p, r).0
    requires !p.chunks[p.owners[r]].IsComplete()
    ensures Gaps(q) != []
  {
    FailedShape(p, r, q);
    FreedByte(p.chunks, p.total, p.owners[r], q.chunks);
    UnheldByteIsGap(q, p.chunks[p.owners[r]].downloaded.end);
  }

  lemma SameSpansAllocated(p: Plan, q: Plan, b: nat)
    requires p.chunks.Keys == q.chunks.Keys && forall k | k in p.chunks :: p.chunks[k].span == q.chunks[k].span
    requires Allocated(p, b)
    ensures Allocated(q, b)
  {
    var k :| k in p.chunks && p.chunks[k].span.Contains(b);
    assert k in q.chunks && q.chunks[k].span.Contains(b);
  }

  lemma GapsFollowAllocation(p: Plan, q: Plan)
    requires Inv(p) && Inv(q) && p.total == q.total
    requires forall b: nat | Allocated(p, b) :: Allocated(q, b)
    ensures Gaps(p) == [] ==> Gaps(q) == []
  {
    NoGapsIffAllocated(p);
    NoGapsIffAllocated(q);
  }

  lemma SameSpansSameGaps(p: Plan, q: Plan)
    requires Inv(p) && Inv(q) && p.total == q.total
    requires p.chunks.Keys == q.chunks.Keys && forall k | k in p.chunks :: p.chunks[k].span == q.chunks[k].span
    ensures Gaps(q) == [] <==> Gaps(p) == []
  {
    forall b: nat | Allocated(p, b) ensures Allocated(q, b) { SameSpansAllocated(p, q, b); }
    forall b: nat | Allocated(q, b) ensures Allocated(p, b) { SameSpansAllocated(q, p, b); }
    GapsFollowAllocation(p, q);
    GapsFollowAllocation(q, p);
  }

  /** A complete chunk loses nothing when it is given up. */
  lemma KeepComplete(c: ChunkState, k: nat, total: nat)
    requires c.WellFormed(k, total) && c.IsComplete()
    ensures KeepDownloaded(c).span == c.span && c.downloaded.start != c.downloaded.end
  {
  }

  lemma GivingUpComplete(p: Plan, r: RunnerId, q: Plan)
    requires Inv(p) && Inv(q) && r in p.owners && q == MarkFailed(p, r).0
    requires p.chunks[p.owners[r]].IsComplete()
    ensures q.chunks == p.chunks[p.owners[r] := KeepDownloaded(p.chunks[p.owners[r]])]
    ensures Gaps(q) == [] <==> Gaps(p) == []
  {
    FailedShape(p, r, q);
    KeepComplete(p.chunks[p.owners[r]], p.owners[r], p.total);
    SameSpansSameGaps(p, q);
  }

  /** A failed runner leaves a complete plan exactly when its chunk was complete, and was the last one open. */
  ghost predicate LastOpen(p: Plan, r: RunnerId) {
    && r in p.owners && p.owners[r] in p.chunks && p.chunks[p.owners[r]].IsComplete()
    && (forall k | k in p.chunks && k != p.owners[r] :: p.chunks[k].status == Finished)
    && Gaps(p) == []
  }

  lemma FailureCompletesIff(p: Plan, r: RunnerId)
    requires Inv(p) && r in p.owners
    ensures IsComplete(MarkFailed(p, r).0) <==> LastOpen(p, r)
  {
    MarkFailedKeepsInv(p, r);
    FailureCompletes(p, r, MarkFailed(p, r).0);
  }

  lemma FailureCompletes(p: Plan, r: RunnerId, q: Plan)
    requires Inv(p) && Inv(q) && r in p.owners && q == MarkFailed(p, r).0
    ensures IsComplete(q) <==> LastOpen(p, r)
  {
    if p.chunks[p.owners[r]].IsComplete() {
      GivingUpComplete(p, r, q);
      OthersFinished(p.chunks, p.owners[r], q.chunks);
    } else {
      GivingUpLeavesGap(p, r, q);
    }
  }

  lemma OthersFinished(chunks: map<nat, ChunkState>, k: nat, after: map<nat, ChunkState>)
    requires k in chunks && after == chunks[k := KeepDownloaded(chunks[k])]
    ensures after != map[]
    ensures (forall j | j in after :: after[j].status == Finished) <==>
            (forall j | j in chunks && j != k :: chunks[j].status == Finished)
  {
    assert k in after;
    if forall j | j in after :: after[j].status == Finished {
      forall j | j in chunks && j != k ensures chunks[j].status == Finished {
        assert j in after;
      }
    }
  }
}
