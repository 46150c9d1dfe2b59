/**
 Runner ids: a bit per id, a hint where to search next, and a count. An id is handed out to one
 runner at a time, and handed out whenever one is free.
 */
module IdGeneration {
  import opened Wrappers

  datatype Ids = Ids(bits: seq<bool>, hint: nat, count: nat)

  function NewIds(capacity: nat): Ids { Ids(seq(capacity, _ => false), 0, 0) }

  function SetBits(bits: seq<bool>): nat {
    if bits == [] then 0 else (if bits[0] then 1 else 0) + SetBits(bits[1..])
  }

  predicate IsAllocated(g: Ids, id: nat) { id < |g.bits| && g.bits[id] }

  /** The count is right, and no id below the hint is free. */
  ghost predicate Inv(g: Ids) {
    && g.count == SetBits(g.bits)
    && (|g.bits| > 0 ==> g.hint < |g.bits|)
    && (forall id | 0 <= id < g.hint && id < |g.bits| :: g.bits[id])
  }

  /** The index of the `i`th look of the rotated search. */
  function Rotated(g: Ids, i: nat): nat
    requires |g.bits| > 0
  {
    (g.hint + i) % |g.bits|
  }

  /** The first free index from the `i`th look on. */
  function Search(g: Ids, i: nat): (found: Option<nat>)
    requires |g.bits| > 0 && i <= |g.bits|
    ensures found.Some? ==> found.value < |g.bits| && !g.bits[found.value]
    decreases |g.bits| - i
  {
    if i == |g.bits| then None
    else if !g.bits[Rotated(g, i)] then Some(Rotated(g, i))
    else Search(g, i + 1)
  }

  function NextId(g: Ids): (Ids, Option<nat>) {
    if g.count >= |g.bits| then (g, None)
    else
      match Search(g, 0)
      case None => (g, None)
      case Some(id) => (Ids(g.bits[id := true], (id + 1) % |g.bits|, g.count + 1), Some(id))
  }

  function ReleaseId(g: Ids, id: nat): Ids {
    if !IsAllocated(g, id) then g
    else Ids(g.bits[id := false], if id < g.hint then id else g.hint, if g.count > 0 then g.count - 1 else 0)
  }

  // ----- The count is the number of set bits

  lemma {:induction false} SetBitsBound(bits: seq<bool>)
    ensures SetBits(bits) <= |bits|
    ensures SetBits(bits) == |bits| <==> forall i | 0 <= i < |bits| :: bits[i]
  {
    if bits != [] {
      SetBitsBound(bits[1..]);
      if forall i | 0 <= i < |bits| :: bits[i] {
        forall i | 0 <= i < |bits[1..]| ensures bits[1..][i] { assert bits[i + 1]; }
      }
      if SetBits(bits) == |bits| {
        forall i | 0 <= i < |bits| ensures bits[i] { assert i > 0 ==> bits[1..][i - 1]; }
      }
    }
  }

  lemma {:induction false} SetBitsUpdate(bits: seq<bool>, id: nat, b: bool)
    requires id < |bits| && bits[id] != b
    ensures SetBits(bits[id := b]) == if b then SetBits(bits) + 1 else SetBits(bits) - 1
  {
    if id == 0 {
      assert bits[id := b][1..] == bits[1..];
    } else {
      assert bits[id := b][1..] == bits[1..][id - 1 := b];
      SetBitsUpdate(bits[1..], id - 1, b);
    }
  }

  lemma WrapsOnce(x: nat, n: nat)
    requires n <= x < n + n
    ensures x % n == x - n
  {
    var q, r := x / n, x % n;
    assert x == n * q + r && 0 <= r < n;
    assert q == 1 by {
      assert q == 0 ==> n * q == 0;
      assert q >= 2 ==> n * q >= n * 2;
    }
  }

  /** A full turn of the rotation looks at every index. */
  lemma RotationCovers(g: Ids, id: nat) returns (i: nat)
    requires Inv(g) && id < |g.bits|
    ensures i < |g.bits| && Rotated(g, i) == id
  {
    if g.hint <= id {
      i := id - g.hint;
    } else {
      i := id + |g.bits| - g.hint;
      WrapsOnce(g.hint + i, |g.bits|);
    }
  }

  lemma {:induction false} SearchExhausts(g: Ids, i: nat)
    requires |g.bits| > 0 && i <= |g.bits|
    ensures Search(g, i).None? ==> forall j | i <= j < |g.bits| :: g.bits[Rotated(g, j)]
    decreases |g.bits| - i
  {
    if i < |g.bits| && g.bits[Rotated(g, i)] {
      SearchExhausts(g, i + 1);
    }
  }

  /** Before the search found a free index, every index it looked at was taken. */
  lemma {:induction false} SearchFinds(g: Ids, i: nat) returns (k: nat)
    requires |g.bits| > 0 && i <= |g.bits| && Search(g, i).Some?
    ensures i <= k < |g.bits| && Search(g, i) == Some(Rotated(g, k)) && !g.bits[Rotated(g, k)]
    ensures forall j | i <= j < k :: g.bits[Rotated(g, j)]
    decreases |g.bits| - i
  {
    if g.bits[Rotated(g, i)] {
      k := SearchFinds(g, i + 1);
    } else {
      k := i;
    }
  }

  lemma RotatedIs(g: Ids, i: nat)
    requires |g.bits| > 0 && g.hint < |g.bits| && i < |g.bits|
    ensures Rotated(g, i) == if g.hint + i < |g.bits| then g.hint + i else g.hint + i - |g.bits|
  {
    if g.hint + i >= |g.bits| {
      WrapsOnce(g.hint + i, |g.bits|);
    }
  }

  /** The search finds the least free index. */
  lemma SearchFindsLeast(g: Ids, id: nat)
    requires Inv(g) && |g.bits| > 0 && Search(g, 0).Some? && id < Search(g, 0).value
    ensures g.bits[id]
  {
    var k := SearchFinds(g, 0);
    RotatedIs(g, k);
    if id >= g.hint {
      RotatedIs(g, id - g.hint);
    }
  }

  lemma NextKeepsInv(g: Ids)
    requires Inv(g)
    ensures Inv(NextId(g).0)
  {
    if g.count < |g.bits| && Search(g, 0).Some? {
      var id := Search(g, 0).value;
      SetBitsUpdate(g.bits, id, true);
      forall other: nat | other < id ensures g.bits[other] { SearchFindsLeast(g, other); }
      HintAfter(g.bits, id, NextId(g).0.bits, NextId(g).0.hint);
    }
  }

  lemma HintAfter(bits: seq<bool>, id: nat, after: seq<bool>, hint: nat)
    requires id < |bits| && forall other | 0 <= other < id :: bits[other]
    requires after == bits[id := true] && hint == (id + 1) % |bits|
    ensures hint < |bits| && forall other | 0 <= other < hint :: after[other]
  {
    if id + 1 == |bits| {
      WrapsOnce(id + 1, |bits|);
    }
  }

  /** An id is handed out whenever one is free, it was free, and only it becomes allocated. */
  lemma NextIdIsFree(g: Ids)
    requires Inv(g)
    ensures Inv(NextId(g).0)
    ensures NextId(g).1.Some? <==> exists id: nat :: id < |g.bits| && !IsAllocated(g, id)
    ensures NextId(g).1.Some? ==> !IsAllocated(g, NextId(g).1.value)
    ensures forall id: nat :: IsAllocated(NextId(g).0, id) <==> IsAllocated(g, id) || NextId(g).1 == Some(id)
  {
    NextKeepsInv(g);
    SetBitsBound(g.bits);
    if g.count < |g.bits| {
      SearchExhausts(g, 0);
      var free :| 0 <= free < |g.bits| && !g.bits[free];
      assert !IsAllocated(g, free);
      var look := RotationCovers(g, free);
    } else {
      assert forall id: nat | id < |g.bits| :: IsAllocated(g, id);
    }
  }

  /** It is always the least free id that is handed out. */
  lemma NextIdIsLeast(g: Ids, id: nat)
    requires Inv(g) && NextId(g).1.Some? && id < NextId(g).1.value
    ensures IsAllocated(g, id)
  {
    SearchFindsLeast(g, id);
  }

  /** Releasing frees exactly that id; releasing a free id changes nothing. */
  lemma ReleaseFrees(g: Ids, id: nat)
    requires Inv(g)
    ensures Inv(ReleaseId(g, id))
    ensures forall other: nat :: IsAllocated(ReleaseId(g, id), other) <==> IsAllocated(g, other) && other != id
  {
    if IsAllocated(g, id) {
      SetBitsUpdate(g.bits, id, false);
    }
  }

  lemma {:induction false} NewIdsInv(capacity: nat)
    ensures Inv(NewIds(capacity))
    ensures forall id: nat :: !IsAllocated(NewIds(capacity), id)
  {
    NoBits(NewIds(capacity).bits);
  }

  lemma {:induction false} NoBits(bits: seq<bool>)
    requires forall i | 0 <= i < |bits| :: !bits[i]
    ensures SetBits(bits) == 0
  {
    if bits != [] {
      NoBits(bits[1..]);
    }
  }

  class Generator {
    const bits: array<bool>
    var nextFreeHint: nat
    var allocatedCount: nat

    ghost function View(): Ids
      reads this, bits
    {
      Ids(bits[..], nextFreeHint, allocatedCount)
    }

    ghost predicate Valid()
      reads this, bits
    {
      Inv(View())
    }

    constructor (capacity: nat)
      ensures View() == NewIds(capacity) && Valid() && fresh(bits)
    {
      bits := new bool[capacity](_ => false);
      nextFreeHint, allocatedCount := 0, 0;
      new;
      assert bits[..] == NewIds(capacity).bits;
      NewIdsInv(capacity);
    }

    method Next() returns (id: Option<nat>)
      requires Valid()
      modifies this, bits
      ensures (View(), id) == NextId(old(View()))
      ensures Valid()
    {
      ghost var before := View();
      NextIdIsFree(before);
      if allocatedCount >= bits.Length {
        return None;
      }
      var capacity := bits.Length;
      for i := 0 to capacity
        invariant View() == before
        invariant Search(before, 0) == Search(before, i)
      {
        var index := (nextFreeHint + i) % capacity;
        if !bits[index] {
          bits[index] := true;
          allocatedCount := allocatedCount + 1;
          nextFreeHint := (index + 1) % capacity;
          return Some(index);
        }
      }
      return None;
    }

    method Release(id: nat) returns (released: bool)
      requires Valid()
      modifies this, bits
      ensures View() == ReleaseId(old(View()), id)
      ensures released == IsAllocated(old(View()), id)
      ensures Valid()
    {
      ReleaseFrees(View(), id);
      if id >= bits.Length {
        return false;
      }
      if !bits[id] {
        return false;
      }
      SomeBits(bits[..], id);
      bits[id] := false;
      allocatedCount := allocatedCount - 1;
      if id < nextFreeHint {
        nextFreeHint := id;
      }
      return true;
    }

    method Reset()
      requires Valid()
      modifies this, bits
      ensures View() == NewIds(bits.Length)
      ensures Valid()
    {
      forall i | 0 <= i < bits.Length {
        bits[i] := false;
      }
      nextFreeHint := 0;
      allocatedCount := 0;
      assert bits[..] == NewIds(bits.Length).bits;
      NewIdsInv(bits.Length);
    }
  }

  lemma SomeBits(bits: seq<bool>, id: nat)
    requires id < |bits| && bits[id]
    ensures SetBits(bits) > 0
  {
    SetBitsUpdate(bits, id, false);
  }
}
