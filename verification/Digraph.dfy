/** Directed graphs: walks, cycles, and Kahn's algorithm as `_structural_errors` runs it. */
module Digraph {
  import opened Domain

  type Arc<T> = (T, T)

  // A walk follows arcs; a cycle is a walk of at least one arc back to its start.

  predicate IsWalk<T(==, !new)>(arcs: seq<Arc<T>>, p: seq<T>) {
    |p| >= 1 && forall i :: 0 <= i < |p| - 1 ==> (p[i], p[i + 1]) in arcs
  }

  ghost predicate HasCycle<T(!new)>(arcs: seq<Arc<T>>) {
    exists p :: IsWalk(arcs, p) && |p| >= 2 && p[0] == p[|p| - 1]
  }

  /** Targets of the arcs leaving `n`, in order and with repetitions: one entry of the `adj` dictionary. */
  function Targets<T(==, !new)>(arcs: seq<Arc<T>>, n: T): seq<T> {
    if arcs == [] then []
    else Targets(arcs[..|arcs| - 1], n) +
         (if arcs[|arcs| - 1].0 == n then [arcs[|arcs| - 1].1] else [])
  }

  /** How many arcs enter `x` from a node outside `done`: the value Kahn's loop keeps in `in_degree`. */
  function Waiting<T(==, !new)>(arcs: seq<Arc<T>>, done: set<T>, x: T): nat {
    if arcs == [] then 0
    else Waiting(arcs[..|arcs| - 1], done, x) +
         (if arcs[|arcs| - 1].0 !in done && arcs[|arcs| - 1].1 == x then 1 else 0)
  }

  function Count<T(==, !new)>(s: seq<T>, x: T): nat {
    if s == [] then 0 else Count(s[..|s| - 1], x) + (if s[|s| - 1] == x then 1 else 0)
  }

  lemma {:induction false} CountAppend<T(!new)>(s: seq<T>, t: seq<T>, x: T)
    ensures Count(s + t, x) == Count(s, x) + Count(t, x)
  {
    if t == [] {
      assert s + t == s;
    } else {
      CountAppend(s, t[..|t| - 1], x);
      assert (s + t)[..|s + t| - 1] == s + t[..|t| - 1];
    }
  }

  /** Finishing `n` takes one from `x` for every arc from `n` to `x`. */
  lemma {:induction false} WaitingStep<T(!new)>(arcs: seq<Arc<T>>, done: set<T>, n: T, x: T)
    requires n !in done
    ensures Waiting(arcs, done, x) == Waiting(arcs, done + {n}, x) + Count(Targets(arcs, n), x)
  {
    if arcs != [] {
      var front, last := arcs[..|arcs| - 1], arcs[|arcs| - 1];
      WaitingStep(front, done, n, x);
      CountAppend(Targets(front, n), if last.0 == n then [last.1] else [], x);
    }
  }

  lemma {:induction false} WaitingPositive<T(!new)>(arcs: seq<Arc<T>>, done: set<T>, x: T)
    ensures Waiting(arcs, done, x) > 0 <==> exists n :: n !in done && (n, x) in arcs
  {
    if arcs != [] {
      var front, last := arcs[..|arcs| - 1], arcs[|arcs| - 1];
      WaitingPositive(front, done, x);
      assert arcs == front + [last];
      if last.0 !in done && last.1 == x {
        assert (last.0, x) in arcs;
      } else if Waiting(front, done, x) > 0 {
        var n :| n !in done && (n, x) in front;
        assert (n, x) in arcs;
      }
    }
  }

  lemma {:induction false} TargetsAreArcs<T(!new)>(arcs: seq<Arc<T>>, n: T, x: T)
    ensures x in Targets(arcs, n) <==> (n, x) in arcs
  {
    if arcs != [] {
      TargetsAreArcs(arcs[..|arcs| - 1], n, x);
      assert arcs == arcs[..|arcs| - 1] + [arcs[|arcs| - 1]];
    }
  }

  lemma {:induction false} CountPositive<T(!new)>(s: seq<T>, x: T)
    ensures Count(s, x) > 0 <==> x in s
  {
    if s != [] {
      CountPositive(s[..|s| - 1], x);
      assert s == s[..|s| - 1] + [s[|s| - 1]];
    }
  }

  /** The dictionaries that the loop starts from. */
  ghost predicate Tabulates<T(!new)>(nodes: set<T>, arcs: seq<Arc<T>>, adj: map<T, seq<T>>, inDegree: map<T, int>) {
    && adj.Keys == inDegree.Keys == nodes
    && (forall a :: a in arcs ==> a.0 in nodes && a.1 in nodes)
    && (forall n :: n in nodes ==> adj[n] == Targets(arcs, n))
    && (forall n :: n in nodes ==> inDegree[n] == Waiting(arcs, {}, n))
  }

  /** What holds of the work list between two rounds of Kahn's loop; `done` are the nodes already visited. */
  ghost predicate KahnState<T(!new)>(nodes: set<T>, arcs: seq<Arc<T>>, inDegree: map<T, int>,
                            queue: seq<T>, done: set<T>) {
    && inDegree.Keys == nodes
    && done <= nodes
    && Distinct(queue)
    && (forall n :: n in queue ==> n in nodes && n !in done)
    && (forall n :: n in nodes ==> inDegree[n] == Waiting(arcs, done, n))
    && (forall n :: n in nodes ==> (n in done || n in queue <==> inDegree[n] == 0))
  }

  function Elems<T(==, !new)>(s: seq<T>): set<T> { set x | x in s }

  /** Every arc into a finished node starts at an earlier finished node. */
  ghost predicate TopologicalPrefix<T(!new)>(arcs: seq<Arc<T>>, order: seq<T>) {
    forall i, n :: 0 <= i < |order| && (n, order[i]) in arcs ==> n in order[..i]
  }

  lemma {:induction false} ExtendOrder<T(!new)>(arcs: seq<Arc<T>>, order: seq<T>, node: T)
    requires TopologicalPrefix(arcs, order) && Distinct(order) && node !in order
    requires forall n :: (n, node) in arcs ==> n in order
    ensures TopologicalPrefix(arcs, order + [node]) && Distinct(order + [node])
    ensures Elems(order + [node]) == Elems(order) + {node}
  {
    var longer := order + [node];
    forall i, n | 0 <= i < |longer| && (n, longer[i]) in arcs ensures n in longer[..i] {
      assert longer[..i] == order[..i];
    }
  }

  method KahnOrder<T(==, !new)>(ghost nodes: set<T>, ghost arcs: seq<Arc<T>>, ids: seq<T>,
                   adj: map<T, seq<T>>, inDegree0: map<T, int>)
    returns (visited: nat, ghost order: seq<T>)
    requires Tabulates(nodes, arcs, adj, inDegree0)
    requires Distinct(ids) && Elems(ids) == nodes
    ensures visited == |nodes| <==> !HasCycle(arcs)
    ensures visited == |order| <= |nodes|
    ensures Distinct(order) && Elems(order) <= nodes
    ensures TopologicalPrefix(arcs, order)
    ensures Blocked(arcs, nodes - Elems(order))
  {
    var inDegree := inDegree0;
    var queue := InitialQueue(ids, inDegree);
    visited, order := 0, [];
    assert Elems(order) == {};
    while queue != []
      invariant KahnState(nodes, arcs, inDegree, queue, Elems(order))
      invariant visited == |order| && Distinct(order)
      invariant TopologicalPrefix(arcs, order)
      decreases nodes - Elems(order)
    {
      var node := queue[0];
      visited := visited + 1;
      WaitingPositive(arcs, Elems(order), node);
      ExtendOrder(arcs, order, node);
      inDegree, queue := Relax(nodes, arcs, adj, inDegree, queue, Elems(order));
      order := order + [node];
    }
    DistinctIffSetSize(order);
    SubsetSize(Elems(order), nodes);
    forall x | x in nodes - Elems(order)
      ensures HasPredecessor(arcs, nodes - Elems(order), x)
    {
      WaitingPositive(arcs, Elems(order), x);
      var n :| n !in Elems(order) && (n, x) in arcs;
      assert n in nodes;
    }
    KahnCountsAllIffAcyclic(nodes, arcs, order);
  }

  method InitialQueue<T(==, !new)>(ids: seq<T>, inDegree: map<T, int>) returns (queue: seq<T>)
    requires forall n :: n in ids ==> n in inDegree
    requires Distinct(ids)
    ensures Distinct(queue)
    ensures forall n :: n in queue <==> n in ids && inDegree[n] == 0
  {
    queue := [];
    for i := 0 to |ids|
      invariant Distinct(queue)
      invariant forall n :: n in queue <==> n in ids[..i] && inDegree[n] == 0
    {
      assert ids[..i + 1] == ids[..i] + [ids[i]];
      assert ids[i] !in ids[..i];
      if inDegree[ids[i]] == 0 {
        queue := queue + [ids[i]];
      }
    }
    assert ids[..|ids|] == ids;
  }

  /** The inner loop: one decrement per arc out of `queue[0]`, queueing a node when its count reaches zero. */
  method Relax<T(==, !new)>(ghost nodes: set<T>, ghost arcs: seq<Arc<T>>, adj: map<T, seq<T>>,
               inDegree0: map<T, int>, queue0: seq<T>, ghost done: set<T>)
    returns (inDegree: map<T, int>, queue: seq<T>)
    requires KahnState(nodes, arcs, inDegree0, queue0, done)
    requires queue0 != []
    requires adj.Keys == nodes && forall n :: n in nodes ==> adj[n] == Targets(arcs, n)
    requires forall a :: a in arcs ==> a.0 in nodes && a.1 in nodes
    ensures KahnState(nodes, arcs, inDegree, queue, done + {queue0[0]})
  {
    var node := queue0[0];
    inDegree, queue := inDegree0, queue0[1..];
    var neighbors := adj[node];
    ghost var done' := done + {node};
    for k := 0 to |neighbors|
      invariant inDegree.Keys == nodes
      invariant forall x :: x in nodes ==> inDegree[x] == Waiting(arcs, done, x) - Count(neighbors[..k], x)
      invariant QueueTracksZeros(nodes, inDegree, queue, done')
    {
      var neighbor := neighbors[k];
      TargetsAreArcs(arcs, node, neighbor);
      CountSplit(neighbors, k, neighbor);
      WaitingStep(arcs, done, node, neighbor);
      CountStep(neighbors, k);
      inDegree, queue := Decrement(nodes, inDegree, queue, done', neighbor);
    }
    assert neighbors[..|neighbors|] == neighbors;
    forall x | x in nodes ensures inDegree[x] == Waiting(arcs, done', x) {
      WaitingStep(arcs, done, node, x);
    }
  }

  /** The nodes with no pending predecessor are the finished ones and the queued ones. */
  ghost predicate QueueTracksZeros<T(!new)>(nodes: set<T>, inDegree: map<T, int>, queue: seq<T>, done: set<T>)
    requires inDegree.Keys == nodes
  {
    && Distinct(queue)
    && (forall n :: n in queue ==> n in nodes && n !in done)
    && (forall x :: x in nodes ==> (x in done || x in queue <==> inDegree[x] == 0))
  }

  method Decrement<T(==, !new)>(ghost nodes: set<T>, inDegree0: map<T, int>, queue0: seq<T>, ghost done: set<T>,
                   neighbor: T)
    returns (inDegree: map<T, int>, queue: seq<T>)
    requires inDegree0.Keys == nodes && neighbor in nodes && inDegree0[neighbor] > 0
    requires QueueTracksZeros(nodes, inDegree0, queue0, done)
    ensures inDegree == inDegree0[neighbor := inDegree0[neighbor] - 1]
    ensures inDegree.Keys == nodes && QueueTracksZeros(nodes, inDegree, queue, done)
  {
    inDegree, queue := inDegree0[neighbor := inDegree0[neighbor] - 1], queue0;
    assert neighbor !in done && neighbor !in queue;
    if inDegree[neighbor] == 0 {
      queue := queue + [neighbor];
    }
  }

  lemma {:induction false} CountStep<T(!new)>(s: seq<T>, k: nat)
    requires k < |s|
    ensures forall x :: Count(s[..k + 1], x) == Count(s[..k], x) + (if x == s[k] then 1 else 0)
  {
    assert s[..k + 1][..k] == s[..k];
  }

  lemma {:induction false} CountSplit<T(!new)>(s: seq<T>, k: nat, x: T)
    requires k < |s| && s[k] == x
    ensures Count(s[..k], x) < Count(s, x)
  {
    assert s == s[..k] + s[k..];
    CountAppend(s[..k], s[k..], x);
    CountPositive(s[k..], x);
    assert s[k..][0] == x;
  }

  lemma {:induction false} SubsetSize<T>(a: set<T>, b: set<T>)
    requires a <= b
    ensures |a| <= |b|
    ensures |a| == |b| ==> a == b
  {
    assert b == a + (b - a);
    assert |b| == |a| + |b - a|;
  }

  /** A complete topological order leaves no room for a cycle. */
  lemma {:induction false} OrderExcludesCycle<T(!new)>(nodes: set<T>, arcs: seq<Arc<T>>, order: seq<T>)
    requires Elems(order) == nodes && Distinct(order) && TopologicalPrefix(arcs, order)
    requires forall a :: a in arcs ==> a.0 in nodes && a.1 in nodes
    ensures !HasCycle(arcs)
  {
    if HasCycle(arcs) {
      var p :| IsWalk(arcs, p) && |p| >= 2 && p[0] == p[|p| - 1];
      WalkClimbs(nodes, arcs, order, p, |p| - 1);
      assert false;
    }
  }

  function PositionOf<T(==, !new)>(order: seq<T>, x: T): (i: nat)
    requires x in order
    ensures i < |order| && order[i] == x
  {
    if order[0] == x then 0 else 1 + PositionOf(order[1..], x)
  }

  lemma {:induction false} WalkClimbs<T(!new)>(nodes: set<T>, arcs: seq<Arc<T>>, order: seq<T>, p: seq<T>, k: nat)
    requires Elems(order) == nodes && Distinct(order) && TopologicalPrefix(arcs, order)
    requires forall a :: a in arcs ==> a.0 in nodes && a.1 in nodes
    requires IsWalk(arcs, p) && 0 < k < |p|
    ensures p[0] in order && p[k] in order && PositionOf(order, p[0]) < PositionOf(order, p[k])
  {
    assert (p[k - 1], p[k]) in arcs;
    assert p[k - 1] in nodes && p[k] in nodes;
    var i := PositionOf(order, p[k]);
    assert p[k - 1] in order[..i];
    assert PositionOf(order, p[k - 1]) < i;
    if k > 1 {
      WalkClimbs(nodes, arcs, order, p, k - 1);
    }
  }

  /** A chosen predecessor for every node of `stuck`, itself in `stuck`. */
  ghost predicate Predecessors<T(!new)>(arcs: seq<Arc<T>>, stuck: set<T>, pred: map<T, T>) {
    pred.Keys == stuck && forall x {:trigger pred[x]} :: x in stuck ==> pred[x] in stuck && (pred[x], x) in arcs
  }

  /** A non-empty finite set in which every node has a predecessor contains a cycle. */
  lemma {:induction false} ClosedUnderPredecessorsHasCycle<T(!new)>(arcs: seq<Arc<T>>, stuck: set<T>, pred: map<T, T>)
    requires stuck != {} && Predecessors(arcs, stuck, pred)
    ensures HasCycle(arcs)
  {
    var start :| start in stuck;
    var p := BackwardWalk(arcs, stuck, pred, start, |stuck|);
    var i, j := Pigeonhole(p, stuck);
    var cycle := p[i..j + 1];
    forall k | 0 <= k < |cycle| - 1 ensures (cycle[k], cycle[k + 1]) in arcs {
      assert (p[i + k], p[i + k + 1]) in arcs;
    }
    assert IsWalk(arcs, cycle) && cycle[0] == cycle[|cycle| - 1];
  }

  lemma {:induction false} BackwardWalk<T(!new)>(arcs: seq<Arc<T>>, stuck: set<T>, pred: map<T, T>, start: T, n: nat)
    returns (p: seq<T>)
    requires start in stuck && Predecessors(arcs, stuck, pred)
    ensures |p| == n + 1 && IsWalk(arcs, p)
    ensures forall k :: 0 <= k < |p| ==> p[k] in stuck
  {
    if n == 0 {
      p := [start];
    } else {
      var q := BackwardWalk(arcs, stuck, pred, start, n - 1);
      var m := pred[q[0]];
      p := [m] + q;
      assert forall k :: 1 <= k < |p| ==> p[k] == q[k - 1];
    }
  }

  lemma {:induction false} Pigeonhole<T(!new)>(p: seq<T>, box: set<T>) returns (i: nat, j: nat)
    requires |p| > |box| && forall k :: 0 <= k < |p| ==> p[k] in box
    ensures i < j < |p| && p[i] == p[j]
  {
    DistinctIffSetSize(p);
    SubsetSize(Elems(p), box);
    assert !Distinct(p);
    i, j :| 0 <= i < j < |p| && p[i] == p[j];
  }

  /** Kahn's loop counts every node exactly when the arcs are acyclic. */
  lemma {:induction false} KahnCountsAllIffAcyclic<T(!new)>(nodes: set<T>, arcs: seq<Arc<T>>, order: seq<T>)
    requires forall a :: a in arcs ==> a.0 in nodes && a.1 in nodes
    requires Distinct(order) && Elems(order) <= nodes && TopologicalPrefix(arcs, order)
    requires Blocked(arcs, nodes - Elems(order))
    ensures |order| == |nodes| <==> !HasCycle(arcs)
  {
    DistinctIffSetSize(order);
    SubsetSize(Elems(order), nodes);
    if |order| == |nodes| {
      OrderExcludesCycle(nodes, arcs, order);
    } else {
      var stuck := nodes - Elems(order);
      NonEmptyDifference(nodes, Elems(order));
      var pred := map x | x in stuck :: Predecessor(arcs, stuck, x);
      ClosedUnderPredecessorsHasCycle(arcs, stuck, pred);
    }
  }

  lemma {:induction false} NonEmptyDifference<T>(a: set<T>, b: set<T>)
    requires b <= a && |a| != |b|
    ensures a - b != {}
  {
    assert a == b + (a - b);
    assert |a| == |b| + |a - b|;
  }

  ghost predicate HasPredecessor<T(!new)>(arcs: seq<Arc<T>>, stuck: set<T>, x: T) {
    exists n :: n in stuck && (n, x) in arcs
  }

  /** Every node of the set waits for another one of the set. */
  ghost predicate Blocked<T(!new)>(arcs: seq<Arc<T>>, stuck: set<T>) {
    forall x {:trigger HasPredecessor(arcs, stuck, x)} :: x in stuck ==> HasPredecessor(arcs, stuck, x)
  }

  ghost function Predecessor<T(!new)>(arcs: seq<Arc<T>>, stuck: set<T>, x: T): (n: T)
    requires x in stuck && Blocked(arcs, stuck)
    ensures n in stuck && (n, x) in arcs
  {
    assert HasPredecessor(arcs, stuck, x);
    var n :| n in stuck && (n, x) in arcs;
    n
  }
}
