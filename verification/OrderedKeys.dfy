/**
 The in-order view of a `BTreeMap` with numeric keys: the keys in ascending order, and the
 greatest key below a bound. Every loop of the planner runs over this order.
 */
module OrderedKeys {
  import opened Wrappers

  lemma {:induction false} MinBelow(s: set<nat>, x: nat)
    requires x in s
    ensures exists m :: m in s && forall k | k in s :: m <= k
  {
    if y :| y in s && y < x {
      MinBelow(s, y);
    }
  }

  function Least(s: set<nat>): (m: nat)
    requires s != {}
    ensures m in s && forall k | k in s :: m <= k
  {
    assert exists m :: m in s && forall k | k in s :: m <= k by {
      var x :| x in s;
      MinBelow(s, x);
    }
    var m :| m in s && forall k | k in s :: m <= k;
    m
  }

  lemma {:induction false} MaxExists(s: set<nat>)
    requires s != {}
    ensures exists m :: m in s && forall k | k in s :: k <= m
  {
    var x :| x in s;
    if s != {x} {
      var t := s - {x};
      assert t != {} by { assert exists y :: y in s && y != x; }
      MaxExists(t);
      var m :| m in t && forall k | k in t :: k <= m;
      var greatest := if x > m then x else m;
      forall k | k in s ensures k <= greatest { assert k == x || k in t; }
      assert greatest in s;
    }
  }

  function Greatest(s: set<nat>): (m: nat)
    requires s != {}
    ensures m in s && forall k | k in s :: k <= m
  {
    MaxExists(s);
    var m :| m in s && forall k | k in s :: k <= m;
    m
  }

  /** `range(..end).next_back()`: the last key below `end`. */
  function LastBelow(s: set<nat>, end: nat): (r: Option<nat>)
    ensures r.None? <==> forall k | k in s :: end <= k
    ensures r.Some? ==> r.value in s && r.value < end && forall k | k in s && k < end :: k <= r.value
  {
    var below := set k | k in s && k < end;
    assert forall k | k in s && k < end :: k in below;
    if below == {} then None else Some(Greatest(below))
  }

  predicate Ascending(keys: seq<nat>) {
    forall i, j | 0 <= i < j < |keys| :: keys[i] < keys[j]
  }

  /** The keys of the map, the least first. */
  function InOrder(s: set<nat>): (keys: seq<nat>)
    ensures forall k :: k in keys <==> k in s
  {
    if s == {} then [] else [Least(s)] + InOrder(s - {Least(s)})
  }

  lemma Prepend(m: nat, rest: seq<nat>)
    requires Ascending(rest) && forall k | k in rest :: m < k
    ensures Ascending([m] + rest)
  {
    assert forall j | 0 <= j < |rest| :: rest[j] in rest;
  }

  lemma {:induction false} InOrderAscends(s: set<nat>)
    ensures Ascending(InOrder(s)) && |InOrder(s)| == |s|
  {
    if s != {} {
      InOrderAscends(s - {Least(s)});
      Prepend(Least(s), InOrder(s - {Least(s)}));
    }
  }
}
