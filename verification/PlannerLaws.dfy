/**
 What the planner's operations keep: the representation invariant, the bytes already accepted,
 and the agreement between the predecessor-only overlap check, the gaps and the chunks.
 */
module PlannerLaws {
  import opened Wrappers
  import opened Numbers
  import opened OrderedKeys
  import opened Planner

  // ----- The bytes already accepted

  lemma {:induction false} RangeSize(r: Range)
    requires r.start <= r.end
    ensures |Bytes(r)| == r.end - r.start
    decreases r.end - r.start
  {
    if r.start == r.end {
      assert Bytes(r) == {};
    } else {
      RangeSize(Range(r.start, r.end - 1));
      assert Bytes(r) == Bytes(Range(r.start, r.end - 1)) + {r.end - 1};
    }
  }

  lemma KeepBytes(chunks: map<nat, ChunkState>, k: nat, c: ChunkState)
    requires k in chunks && c.downloaded == chunks[k].downloaded
    ensures DownloadedBytes(chunks[k := c]) == DownloadedBytes(chunks)
  {
    var after := chunks[k := c];
    forall b | b in DownloadedBytes(chunks) ensures b in DownloadedBytes(after) {
      var j :| j in chunks && b in Bytes(chunks[j].downloaded);
      assert j in after && after[j].downloaded == chunks[j].downloaded;
    }
    forall b | b in DownloadedBytes(after) ensures b in DownloadedBytes(chunks) {
      var j :| j in after && b in Bytes(after[j].downloaded);
      assert j in chunks && after[j].downloaded == chunks[j].downloaded;
    }
  }

  lemma InsertNoBytes(chunks: map<nat, ChunkState>, k: nat, c: ChunkState)
    requires k !in chunks && c.downloaded.end <= c.downloaded.start
    ensures DownloadedBytes(chunks[k := c]) == DownloadedBytes(chunks)
  {
    assert Bytes(c.downloaded) == {};
    var more := chunks[k := c];
    forall b | b in DownloadedBytes(chunks) ensures b in DownloadedBytes(more) {
      var j :| j in chunks && b in Bytes(chunks[j].downloaded);
      assert j in more && more[j] == chunks[j];
    }
  }

  lemma RemoveNoBytes(chunks: map<nat, ChunkState>, k: nat)
    requires k in chunks && chunks[k].downloaded.end <= chunks[k].downloaded.start
    ensures DownloadedBytes(chunks - {k}) == DownloadedBytes(chunks)
  {
    InsertNoBytes(chunks - {k}, k, chunks[k]);
    assert (chunks - {k})[k := chunks[k]] == chunks;
  }

  /** Growing one chunk's downloaded part adds exactly the new bytes. */
  lemma GrowBytes(chunks: map<nat, ChunkState>, total: nat, k: nat, c: ChunkState)
    requires WellFormed(chunks, total) && PairwiseDisjoint(chunks)
    requires k in chunks && c.span == chunks[k].span && c.WellFormed(k, total)
    requires chunks[k].downloaded.end <= c.downloaded.end
    ensures var more := Range(chunks[k].downloaded.end, c.downloaded.end);
            && Bytes(more) !! DownloadedBytes(chunks)
            && DownloadedBytes(chunks[k := c]) == DownloadedBytes(chunks) + Bytes(more)
            && |DownloadedBytes(chunks[k := c])| == |DownloadedBytes(chunks)| + more.Len()
  {
    var more := Range(chunks[k].downloaded.end, c.downloaded.end);
    var after := chunks[k := c];
    forall b | b in Bytes(more) ensures b !in DownloadedBytes(chunks) {
      forall j | j in chunks ensures b !in Bytes(chunks[j].downloaded) {
        assert j < k ==> chunks[j].span.end <= k;
        assert k < j ==> chunks[k].span.end <= j;
      }
    }
    forall b ensures b in DownloadedBytes(after) <==> b in DownloadedBytes(chunks) || b in Bytes(more) {
      assert b in Bytes(c.downloaded) <==> b in Bytes(chunks[k].downloaded) || b in Bytes(more);
      if b in DownloadedBytes(chunks) {
        var j :| j in chunks && b in Bytes(chunks[j].downloaded);
        assert j in after && b in Bytes(after[j].downloaded);
      }
      if b in Bytes(more) {
        assert k in after && b in Bytes(after[k].downloaded);
      }
    }
    RangeSize(more);
  }

  // ----- Replacing one chunk

  /** A chunk may be replaced by a shorter or equal one with the same start. */
  lemma ShrinkKeepsOrder(chunks: map<nat, ChunkState>, total: nat, k: nat, c: ChunkState)
    requires WellFormed(chunks, total) && PairwiseDisjoint(chunks)
    requires k in chunks && c.WellFormed(k, total) && c.span.end <= chunks[k].span.end
    ensures WellFormed(chunks[k := c], total) && PairwiseDisjoint(chunks[k := c])
  {
  }

  lemma InsertKeepsOrder(chunks: map<nat, ChunkState>, total: nat, k: nat, c: ChunkState)
    requires WellFormed(chunks, total) && PairwiseDisjoint(chunks)
    requires c.WellFormed(k, total) && forall j | j in chunks :: chunks[j].span.Disjoint(c.span)
    ensures k !in chunks
    ensures WellFormed(chunks[k := c], total) && PairwiseDisjoint(chunks[k := c])
  {
  }

  /** Chunks other than `k` stay owned as they were, if the runners they belong to do. */
  lemma OthersOwned(chunks: map<nat, ChunkState>, owners: map<RunnerId, nat>, after: map<nat, ChunkState>,
      kept: map<RunnerId, nat>, k: nat)
    requires ActiveOwned(chunks, owners)
    requires forall j | j in after && j != k :: j in chunks && after[j] == chunks[j]
    requires forall r | r in owners && owners[r] in after && owners[r] != k :: r in kept && kept[r] == owners[r]
    requires k in after ==> ActiveAt(after, kept, k)
    ensures ActiveOwned(after, kept)
  {
    forall j | j in after ensures ActiveAt(after, kept, j) {
      if j != k {
        assert ActiveAt(chunks, owners, j);
      }
    }
  }

  lemma PutOwned(chunks: map<nat, ChunkState>, owners: map<RunnerId, nat>, r: RunnerId, c: ChunkState)
    requires OwnersValid(chunks, owners) && ActiveOwned(chunks, owners)
    requires r in owners && c.OwnedBy(r)
    ensures OwnersValid(chunks[owners[r] := c], owners) && ActiveOwned(chunks[owners[r] := c], owners)
  {
    OthersOwned(chunks, owners, chunks[owners[r] := c], owners, owners[r]);
  }

  lemma ReleaseOwned(chunks: map<nat, ChunkState>, owners: map<RunnerId, nat>, r: RunnerId, c: ChunkState)
    requires OwnersValid(chunks, owners) && ActiveOwned(chunks, owners)
    requires r in owners && !c.status.IsActive()
    ensures OwnersValid(chunks[owners[r] := c], owners - {r}) && ActiveOwned(chunks[owners[r] := c], owners - {r})
  {
    OthersOwned(chunks, owners, chunks[owners[r] := c], owners - {r}, owners[r]);
  }

  lemma DropOwned(chunks: map<nat, ChunkState>, owners: map<RunnerId, nat>, r: RunnerId)
    requires OwnersValid(chunks, owners) && ActiveOwned(chunks, owners)
    requires r in owners
    ensures OwnersValid(chunks - {owners[r]}, owners - {r}) && ActiveOwned(chunks - {owners[r]}, owners - {r})
  {
    OthersOwned(chunks, owners, chunks - {owners[r]}, owners - {r}, owners[r]);
  }

  lemma InsertUnowned(chunks: map<nat, ChunkState>, owners: map<RunnerId, nat>, k: nat, c: ChunkState)
    requires OwnersValid(chunks, owners) && ActiveOwned(chunks, owners)
    requires k !in chunks && !c.status.IsActive()
    ensures OwnersValid(chunks[k := c], owners) && ActiveOwned(chunks[k := c], owners)
  {
    OthersOwned(chunks, owners, chunks[k := c], owners, k);
  }

  /** A runner may be given a new chunk exactly when it owns no active one. */
  lemma AssignOwned(chunks: map<nat, ChunkState>, owners: map<RunnerId, nat>, r: RunnerId, k: nat, c: ChunkState)
    requires OwnersValid(chunks, owners) && ActiveOwned(chunks, owners)
    requires k !in chunks && c.OwnedBy(r)
    ensures OwnersValid(chunks[k := c], owners[r := k])
    ensures ActiveOwned(chunks[k := c], owners[r := k]) <==> (r in owners ==> !chunks[owners[r]].status.IsActive())
  {
    var after := chunks[k := c];
    if r in owners && chunks[owners[r]].status.IsActive() {
      assert owners[r] in after && !ActiveAt(after, owners[r := k], owners[r]);
    } else {
      forall j | j in after ensures ActiveAt(after, owners[r := k], j) {
        if j != k {
          assert ActiveAt(chunks, owners, j);
        }
      }
    }
  }

  // ----- Allocation

  /** The predecessor-only check accepts a range exactly when it overlaps no chunk. */
  lemma AcceptsIffDisjoint(p: Plan, range: Range)
    requires Inv(p) && HasRoom(p)
    ensures Accepts(p, range) <==>
            && range.start < range.end <= p.total
            && forall k | k in p.chunks :: p.chunks[k].span.Disjoint(range)
  {
    if range.start < range.end <= p.total {
      var pred := LastBelow(p.chunks.Keys, range.end);
      if pred.Some? && p.chunks[pred.value].span.end <= range.start {
        forall k | k in p.chunks ensures p.chunks[k].span.Disjoint(range) {
          if k < range.end && k != pred.value {
            assert p.chunks[k].span.end <= pred.value;
          }
        }
      } else if pred.Some? {
        assert !p.chunks[pred.value].span.Disjoint(range);
      }
    }
  }

  lemma AcceptedIsNew(p: Plan, range: Range)
    requires Inv(p) && Accepts(p, range)
    ensures range.start !in p.chunks && range.start < range.end <= p.total
  {
    AcceptsIffDisjoint(p, range);
  }

  /** A pending runner may not still own an active chunk; the planner does not check this. */
  predicate Reassignable(p: Plan, r: RunnerId) {
    r in p.owners && p.owners[r] in p.chunks ==> !p.chunks[p.owners[r]].status.IsActive()
  }

  /** Allocation keeps the invariant if and only if the runner owns no active chunk. */
  lemma AllocatePendingKeepsInv(p: Plan, range: Range, r: RunnerId)
    requires Inv(p)
    ensures Inv(Allocate(p, range, Some(r), Pending)) <==> !Accepts(p, range) || Reassignable(p, r)
    ensures DownloadedBytes(Allocate(p, range, Some(r), Pending).chunks) == DownloadedBytes(p.chunks)
  {
    if Accepts(p, range) {
      var c := NewChunk(range, Some(r), Pending);
      AcceptsIffDisjoint(p, range);
      InsertKeepsOrder(p.chunks, p.total, range.start, c);
      InsertNoBytes(p.chunks, range.start, c);
      AssignOwned(p.chunks, p.owners, r, range.start, c);
    }
  }

  lemma AllocateIdleKeepsInv(p: Plan, range: Range)
    requires Inv(p)
    ensures Inv(Allocate(p, range, None, Idle))
  {
    if Accepts(p, range) {
      var c := NewChunk(range, None, Idle);
      AcceptsIffDisjoint(p, range);
      InsertKeepsOrder(p.chunks, p.total, range.start, c);
      InsertNoBytes(p.chunks, range.start, c);
      InsertUnowned(p.chunks, p.owners, range.start, c);
    }
  }

  // ----- Progress, completion, failure

  lemma AdvanceKeepsInv(p: Plan, r: RunnerId, n: nat)
    requires Inv(p)
    ensures Inv(Advance(p, r, n).0)
  {
    if r in p.owners {
      var k := p.owners[r];
      var c := AdvanceChunk(p.chunks[k], n);
      ShrinkKeepsOrder(p.chunks, p.total, k, c);
      PutOwned(p.chunks, p.owners, r, c);
      GrowBytes(p.chunks, p.total, k, c);
    }
  }

  lemma MarkRunningKeepsInv(p: Plan, r: RunnerId)
    requires Inv(p)
    ensures Inv(MarkRunning(p, r).0)
    ensures DownloadedBytes(MarkRunning(p, r).0.chunks) == DownloadedBytes(p.chunks)
  {
    if r in p.owners {
      var k := p.owners[r];
      var c := p.chunks[k].(status := Running);
      ShrinkKeepsOrder(p.chunks, p.total, k, c);
      PutOwned(p.chunks, p.owners, r, c);
      KeepBytes(p.chunks, k, c);
    }
  }

  lemma MarkFinishedKeepsInv(p: Plan, r: RunnerId)
    requires Inv(p)
    ensures Inv(MarkFinished(p, r).0)
    ensures DownloadedBytes(MarkFinished(p, r).0.chunks) == DownloadedBytes(p.chunks)
  {
    if r in p.owners {
      var k := p.owners[r];
      var c := p.chunks[k].(status := Finished);
      ShrinkKeepsOrder(p.chunks, p.total, k, c);
      ReleaseOwned(p.chunks, p.owners, r, c);
      KeepBytes(p.chunks, k, c);
    }
  }

  lemma MarkFailedKeepsInv(p: Plan, r: RunnerId)
    requires Inv(p)
    ensures Inv(MarkFailed(p, r).0)
    ensures DownloadedBytes(MarkFailed(p, r).0.chunks) == DownloadedBytes(p.chunks)
  {
    if r in p.owners {
      var k := p.owners[r];
      var c := p.chunks[k];
      if c.downloaded.start == c.downloaded.end {
        DropOwned(p.chunks, p.owners, r);
        RemoveNoBytes(p.chunks, k);
      } else {
        ShrinkKeepsOrder(p.chunks, p.total, k, KeepDownloaded(c));
        ReleaseOwned(p.chunks, p.owners, r, KeepDownloaded(c));
        KeepBytes(p.chunks, k, KeepDownloaded(c));
      }
    }
  }

  lemma SplitChunks(chunks: map<nat, ChunkState>, total: nat, k: nat, at: nat, second: ChunkState)
    requires WellFormed(chunks, total) && PairwiseDisjoint(chunks)
    requires k in chunks && chunks[k].downloaded.end < at < chunks[k].span.end
    requires second.span == Range(at, chunks[k].span.end) && second.downloaded == Range(at, at)
    ensures at !in chunks
    ensures var both := chunks[k := chunks[k].(span := Range(k, at))][at := second];
            && WellFormed(both, total) && PairwiseDisjoint(both)
            && DownloadedBytes(both) == DownloadedBytes(chunks)
  {
    var first := chunks[k].(span := Range(k, at));
    var halved := chunks[k := first];
    ShrinkKeepsOrder(chunks, total, k, first);
    forall j | j in halved ensures halved[j].span.Disjoint(second.span) {}
    InsertKeepsOrder(halved, total, at, second);
    KeepBytes(chunks, k, first);
    InsertNoBytes(halved, at, second);
  }

  /** A split keeps the invariant if and only if it is refused or the newcomer owns no active chunk. */
  lemma SplitKeepsInv(p: Plan, r: RunnerId, at: nat, newcomer: RunnerId)
    requires Inv(p)
    ensures Inv(Split(p, r, at, newcomer).0) <==> Split(p, r, at, newcomer).1.Err? || Reassignable(p, newcomer)
  {
    if Split(p, r, at, newcomer).1.Ok? {
      var k := p.owners[r];
      var first := p.chunks[k].(span := Range(k, at));
      var second := NewChunk(Range(at, p.chunks[k].span.end), Some(newcomer), Running);
      SplitChunks(p.chunks, p.total, k, at, second);
      PutOwned(p.chunks, p.owners, r, first);
      AssignOwned(p.chunks[k := first], p.owners, newcomer, at, second);
      assert p.owners[r := k] == p.owners;
    }
  }

  /** A chunk may be cut down to what is downloaded of it, or to anything longer. */
  lemma CutKeepsInv(p: Plan, r: RunnerId, end: nat, q: Plan)
    requires Inv(p) && r in p.owners && q == CutPlan(p, r, end)
    requires var c := p.chunks[p.owners[r]]; c.span.start < end < c.span.end && c.downloaded.end <= end
    ensures Inv(q) && DownloadedBytes(q.chunks) == DownloadedBytes(p.chunks)
  {
    var k := p.owners[r];
    var c := p.chunks[k].(span := Range(k, end));
    ShrinkKeepsOrder(p.chunks, p.total, k, c);
    PutOwned(p.chunks, p.owners, r, c);
    KeepBytes(p.chunks, k, c);
  }

  function CutPlan(p: Plan, r: RunnerId, end: nat): Plan
    requires r in p.owners && p.owners[r] in p.chunks
  {
    var k := p.owners[r];
    p.(chunks := p.chunks[k := p.chunks[k].(span := Range(p.chunks[k].span.start, end))])
  }

  /** A resize is refused, changes nothing, or cuts the chunk. */
  lemma ResizeCuts(p: Plan, r: RunnerId, newSize: nat)
    requires OwnersValid(p.chunks, p.owners)
    ensures ResizeChunk(p, r, newSize).0 != p ==>
            && r in p.owners
            && var c := p.chunks[p.owners[r]];
               var end := c.downloaded.end + newSize;
               && c.span.start < end < c.span.end
               && ResizeChunk(p, r, newSize).0 == CutPlan(p, r, end)
               && ResizeChunk(p, r, newSize).1 == Ok(Shrunk(end - c.span.start))
  {
  }

  lemma ResizeKeepsInv(p: Plan, r: RunnerId, newSize: nat)
    requires Inv(p)
    ensures Inv(ResizeChunk(p, r, newSize).0)
    ensures DownloadedBytes(ResizeChunk(p, r, newSize).0.chunks) == DownloadedBytes(p.chunks)
  {
    ResizedKeepsInv(p, r, newSize, ResizeChunk(p, r, newSize).0);
  }

  lemma ResizedKeepsInv(p: Plan, r: RunnerId, newSize: nat, q: Plan)
    requires Inv(p) && q == ResizeChunk(p, r, newSize).0
    ensures Inv(q) && DownloadedBytes(q.chunks) == DownloadedBytes(p.chunks)
  {
    if q != p {
      ResizeCuts(p, r, newSize);
      CutKeepsInv(p, r, p.chunks[p.owners[r]].downloaded.end + newSize, q);
    }
  }

  // ----- No sum overflows

  lemma {:induction false} Within(s: set<nat>, total: nat)
    requires forall b | b in s :: b < total
    ensures |s| <= total
  {
    var all := Range(0, total);
    RangeSize(all);
    assert s <= Bytes(all);
    SubsetSize(s, Bytes(all));
  }

  lemma {:induction false} SubsetSize(s: set<nat>, t: set<nat>)
    requires s <= t
    ensures |s| <= |t|
  {
    assert t == s + (t - s);
  }

  /** No more is accepted than there is. */
  lemma AcceptedWithinTotal(p: Plan)
    requires Inv(p)
    ensures p.accepted <= p.total <= U64_MAX
  {
    forall b | b in DownloadedBytes(p.chunks) ensures b < p.total {
      var k :| k in p.chunks && b in Bytes(p.chunks[k].downloaded);
      assert p.chunks[k].WellFormed(k, p.total);
    }
    Within(DownloadedBytes(p.chunks), p.total);
  }

  /** However long the frame: neither the chunk's new end nor the counter leaves the file, let alone 64 bits. */
  lemma AdvanceNeverOverflows(p: Plan, r: RunnerId, n: nat)
    requires Inv(p) && r in p.owners
    ensures var c := p.chunks[p.owners[r]];
            && c.downloaded.end + Min(n, c.Remaining()) <= p.total <= U64_MAX
            && p.accepted + Min(n, c.Remaining()) <= p.total
            && Advance(p, r, n).0.accepted == p.accepted + Min(n, c.Remaining())
  {
    assert p.chunks[p.owners[r]].WellFormed(p.owners[r], p.total);
    AdvanceKeepsInv(p, r, n);
    AcceptedWithinTotal(Advance(p, r, n).0);
  }

  // ----- What an operation frees

  lemma AllocatedAt(p: Plan, k: nat, b: nat)
    requires Inv(p) && k in p.chunks && p.chunks[k].span.Contains(b)
    ensures Allocated(p, b) && forall j | j in p.chunks && p.chunks[j].span.Contains(b) :: j == k
  {
  }

  /** Replacing or removing one chunk by a part of it changes the allocation of its own bytes only. */
  lemma OthersAllocated(p: Plan, k: nat, q: Plan, b: nat)
    requires Inv(p) && Inv(q) && k in p.chunks && q.chunks - {k} == p.chunks - {k} && !p.chunks[k].span.Contains(b)
    requires k in q.chunks ==> q.chunks[k].span.end <= p.chunks[k].span.end
    ensures Allocated(q, b) <==> Allocated(p, b)
  {
    if j :| j in p.chunks && p.chunks[j].span.Contains(b) {
      assert j in p.chunks - {k} && (p.chunks - {k})[j] == p.chunks[j] && (q.chunks - {k})[j] == q.chunks[j];
      assert j in q.chunks && q.chunks[j].span.Contains(b);
    }
    if j :| j in q.chunks && q.chunks[j].span.Contains(b) {
      assert q.chunks[j].WellFormed(j, q.total);
      assert j != k ==> j in q.chunks - {k} && (p.chunks - {k})[j] == p.chunks[j] && (q.chunks - {k})[j] == q.chunks[j];
      assert j in p.chunks && p.chunks[j].span.Contains(b);
    }
  }

  /**
   A runner's chunk ends at `end` now, or is gone if that is its start: exactly the bytes from there on are free
   again.
   */
  ghost predicate FreesFrom(p: Plan, k: nat, end: nat, q: Plan)
    requires k in p.chunks
  {
    && q.chunks - {k} == p.chunks - {k}
    && (if k in q.chunks then q.chunks[k].span == Range(k, end) else end == k)
  }

  lemma FreedExactly(p: Plan, k: nat, end: nat, q: Plan, b: nat)
    requires Inv(p) && Inv(q) && k in p.chunks && end <= p.chunks[k].span.end && FreesFrom(p, k, end, q)
    ensures Allocated(q, b) <==> Allocated(p, b) && !Range(end, p.chunks[k].span.end).Contains(b)
  {
    if p.chunks[k].span.Contains(b) {
      AllocatedAt(p, k, b);
      if b < end {
        assert k in q.chunks && q.chunks[k].span.Contains(b);
      } else {
        forall j | j in q.chunks ensures !q.chunks[j].span.Contains(b) {
          assert j != k ==>
              j in q.chunks - {k} && (q.chunks - {k})[j] == q.chunks[j] && (p.chunks - {k})[j] == p.chunks[j];
        }
      }
    } else {
      OthersAllocated(p, k, q, b);
    }
  }

  /** The range a failed runner leaves behind is exactly what its failure frees. */
  lemma FailureFreesItsRange(p: Plan, r: RunnerId, b: nat)
    requires Inv(p) && r in p.owners
    ensures var (q, result) := MarkFailed(p, r);
            result.Ok? && (Allocated(q, b) <==> Allocated(p, b) && !result.value.Contains(b))
  {
    var (q, result) := MarkFailed(p, r);
    MarkFailedKeepsInv(p, r);
    FreedExactly(p, p.owners[r], p.chunks[p.owners[r]].downloaded.end, q, b);
  }

  /** A shrink frees exactly the bytes from the chunk's new end on. */
  lemma ShrinkFreesTheRest(p: Plan, r: RunnerId, newSize: nat, q: Plan, b: nat)
    requires Inv(p) && q == ResizeChunk(p, r, newSize).0 && q != p
    ensures r in p.owners && p.owners[r] in q.chunks
    ensures Allocated(q, b) <==>
            Allocated(p, b) && !Range(q.chunks[p.owners[r]].span.end, p.chunks[p.owners[r]].span.end).Contains(b)
  {
    ResizeCuts(p, r, newSize);
    CutFrees(p, r, p.chunks[p.owners[r]].downloaded.end + newSize, q, b);
  }

  lemma CutFrees(p: Plan, r: RunnerId, end: nat, q: Plan, b: nat)
    requires Inv(p) && r in p.owners && q == CutPlan(p, r, end)
    requires var c := p.chunks[p.owners[r]]; c.span.start < end < c.span.end && c.downloaded.end <= end
    ensures Allocated(q, b) <==> Allocated(p, b) && !Range(end, p.chunks[p.owners[r]].span.end).Contains(b)
  {
    CutKeepsInv(p, r, end, q);
    FreedExactly(p, p.owners[r], end, q, b);
  }

  /** The byte is in a chunk after a split exactly if it was before. */
  lemma SplitAllocates(p: Plan, k: nat, at: nat, q: Plan, b: nat)
    requires k in p.chunks && k in q.chunks && at in q.chunks && at !in p.chunks
    requires q.chunks - {k, at} == p.chunks - {k}
    requires q.chunks[k].span.Contains(b) || q.chunks[at].span.Contains(b) <==> p.chunks[k].span.Contains(b)
    ensures Allocated(q, b) <==> Allocated(p, b)
  {
    if j :| j in p.chunks && p.chunks[j].span.Contains(b) {
      assert j == k || (j in p.chunks - {k} && (p.chunks - {k})[j] == p.chunks[j]);
      assert j == k || (q.chunks - {k, at})[j] == q.chunks[j];
    }
    if j :| j in q.chunks && q.chunks[j].span.Contains(b) {
      assert j == k || j == at || (j in q.chunks - {k, at} && (p.chunks - {k})[j] == p.chunks[j]);
    }
  }

  lemma CutBytes(start: nat, at: nat, end: nat)
    requires start <= at <= end
    ensures Bytes(Range(start, at)) !! Bytes(Range(at, end))
    ensures Bytes(Range(start, at)) + Bytes(Range(at, end)) == Bytes(Range(start, end))
  {
  }

  /** What a split makes of chunk `k`. */
  ghost predicate SplitInto(p: Plan, k: nat, at: nat, newcomer: RunnerId, q: Plan) {
    && k in p.chunks && at !in p.chunks && p.chunks[k].span.start == k < at < p.chunks[k].span.end
    && q == p.(chunks := q.chunks, owners := q.owners)
    && k in q.chunks && at in q.chunks && q.chunks - {k, at} == p.chunks - {k}
    && q.chunks[k] == p.chunks[k].(span := Range(k, at))
    && q.chunks[at] == NewChunk(Range(at, p.chunks[k].span.end), Some(newcomer), Running)
    && DownloadedBytes(q.chunks) == DownloadedBytes(p.chunks)
  }

  lemma SplitMakes(p: Plan, r: RunnerId, at: nat, newcomer: RunnerId, q: Plan)
    requires Inv(p) && Split(p, r, at, newcomer).1.Ok? && q == Split(p, r, at, newcomer).0
    ensures SplitInto(p, p.owners[r], at, newcomer, q)
  {
    var k := p.owners[r];
    assert p.chunks[k].WellFormed(k, p.total);
    SplitChunks(p.chunks, p.total, k, at, NewChunk(Range(at, p.chunks[k].span.end), Some(newcomer), Running));
  }

  /**
   A split deals the chunk's bytes out to both runners, each to exactly one, and touches nothing else: no byte is
   allocated or freed, none downloaded or lost, and the newcomer has all of its part before it.
   */
  lemma SplitPartitions(p: Plan, r: RunnerId, at: nat, newcomer: RunnerId, q: Plan)
    requires Inv(p) && Split(p, r, at, newcomer).1.Ok? && q == Split(p, r, at, newcomer).0
    ensures var k := p.owners[r];
            && k in q.chunks && at in q.chunks && at !in p.chunks && q.chunks - {k, at} == p.chunks - {k}
            && q.chunks[k].OwnedBy(r) && q.chunks[at].OwnedBy(newcomer)
            && Bytes(q.chunks[k].span) !! Bytes(q.chunks[at].span)
            && Bytes(q.chunks[k].span) + Bytes(q.chunks[at].span) == Bytes(p.chunks[k].span)
            && Bytes(q.chunks[at].downloaded) == {} && Split(p, r, at, newcomer).1.value == q.chunks[at].span
    ensures DownloadedBytes(q.chunks) == DownloadedBytes(p.chunks) && q.accepted == p.accepted
    ensures forall b: nat :: Allocated(q, b) <==> Allocated(p, b)
  {
    var k := p.owners[r];
    SplitMakes(p, r, at, newcomer, q);
    CutBytes(k, at, p.chunks[k].span.end);
    forall b: nat ensures Allocated(q, b) <==> Allocated(p, b) {
      SplitAllocates(p, k, at, q, b);
    }
  }

  // ----- Runners that still own an active chunk

  /** A second allocation to the same runner, where there is room, breaks the plan. */
  lemma AllocatedTwice(total: nat, cut: nat, r: RunnerId)
    requires 0 < cut < total <= U64_MAX
    ensures var once := Allocate(NewPlan(total), Range(0, cut), Some(r), Pending);
            var twice := Allocate(once, Range(cut, total), Some(r), Pending);
            Inv(once) && Accepts(once, Range(cut, total)) && !Inv(twice)
  {
    var once := OneChunk(total, cut, r);
    AcceptsIffDisjoint(once, Range(cut, total));
    AllocatePendingKeepsInv(once, Range(cut, total), r);
  }

  /** The plan with one chunk from the start. */
  lemma OneChunk(total: nat, end: nat, r: RunnerId) returns (p: Plan)
    requires 0 < end <= total <= U64_MAX
    ensures p == Allocate(NewPlan(total), Range(0, end), Some(r), Pending) && Inv(p)
    ensures p == NewPlan(total).(chunks := map[0 := NewChunk(Range(0, end), Some(r), Pending)], owners := map[r := 0])
  {
    var empty := NewPlan(total);
    assert DownloadedBytes(empty.chunks) == {};
    AcceptsIffDisjoint(empty, Range(0, end));
    AllocatePendingKeepsInv(empty, Range(0, end), r);
    p := Allocate(empty, Range(0, end), Some(r), Pending);
  }

  /** Splitting a runner's chunk with the runner itself breaks the plan. */
  lemma SplitWithItself(total: nat, at: nat, r: RunnerId)
    requires 0 < at < total <= U64_MAX
    ensures var p := Allocate(NewPlan(total), Range(0, total), Some(r), Pending);
            Inv(p) && Split(p, r, at, r).1.Ok? && !Inv(Split(p, r, at, r).0)
  {
    var p := OneChunk(total, total, r);
    SplitKeepsInv(p, r, at, r);
  }
}
