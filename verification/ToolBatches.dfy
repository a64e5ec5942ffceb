/** Which tool calls of one round may run together, and why that changes nothing. */
module ToolBatches {
  import opened Domain

  datatype ToolCall = ToolCall(id: string, name: string, arguments: string)

  const MAX_PARALLEL: nat := 6

  function Concat(batches: seq<seq<ToolCall>>): seq<ToolCall> {
    if batches == [] then [] else Concat(batches[..|batches| - 1]) + batches[|batches| - 1]
  }

  /** A batch is a single call, or a few calls that do not mutate. */
  predicate Allowed(batch: seq<ToolCall>, mutating: string -> bool) {
    1 <= |batch| <= 6 && (|batch| == 1 || forall c :: c in batch ==> !mutating(c.name))
  }

  predicate AllAllowed(batches: seq<seq<ToolCall>>, mutating: string -> bool) {
    forall b :: b in batches ==> Allowed(b, mutating)
  }

  /** Two neighbouring batches could not have been one: a mutation separates them or the first is full. */
  ghost predicate Separated(batches: seq<seq<ToolCall>>, mutating: string -> bool) {
    forall i, j :: 0 <= i < j < |batches| && j == i + 1 && |batches[i]| > 0 && |batches[j]| > 0 ==>
      mutating(batches[i][0].name) || mutating(batches[j][0].name) || |batches[i]| == 6
  }

  /** The call may run with the last batch: neither mutates, and there is room. */
  predicate Joins(batches: seq<seq<ToolCall>>, call: ToolCall, mutating: string -> bool) {
    && batches != [] && !mutating(call.name) && |batches[|batches| - 1]| < MAX_PARALLEL
    && batches[|batches| - 1] != [] && !mutating(batches[|batches| - 1][0].name)
  }

  /** The batches after one more call. */
  function Placed(batches: seq<seq<ToolCall>>, call: ToolCall, mutating: string -> bool): seq<seq<ToolCall>> {
    if Joins(batches, call, mutating) then batches[..|batches| - 1] + [batches[|batches| - 1] + [call]]
    else batches + [[call]]
  }

  function BatchesOf(calls: seq<ToolCall>, mutating: string -> bool): seq<seq<ToolCall>> {
    if calls == [] then []
    else Placed(BatchesOf(calls[..|calls| - 1], mutating), calls[|calls| - 1], mutating)
  }

  /** The last batch is of calls that mutate, or of calls that do not; no batch at all counts as mutating. */
  predicate LastIs(batches: seq<seq<ToolCall>>, mutates: bool, mutating: string -> bool) {
    if batches == [] then mutates
    else batches[|batches| - 1] != [] && (mutates <==> mutating(batches[|batches| - 1][0].name))
  }

  /** `mutating` says which names are tools that mutate; a name that is no tool does not. */
  method MakeBatches(calls: seq<ToolCall>, mutating: string -> bool) returns (batches: seq<seq<ToolCall>>)
    ensures Concat(batches) == calls && batches == BatchesOf(calls, mutating)
    ensures AllAllowed(batches, mutating) && Separated(batches, mutating)
  {
    batches := [];
    var previousWasMutating := true;
    for i := 0 to |calls|
      invariant batches == BatchesOf(calls[..i], mutating)
      invariant LastIs(batches, previousWasMutating, mutating)
    {
      BatchesSnoc(calls[..i], calls[i], mutating);
      assert calls[..i + 1] == calls[..i] + [calls[i]];
      batches := Place(batches, calls[i], previousWasMutating, mutating);
      previousWasMutating := mutating(calls[i].name);
    }
    assert calls[..|calls|] == calls;
    BatchesKeep(calls, mutating);
  }

  lemma {:induction false} BatchesSnoc(calls: seq<ToolCall>, call: ToolCall, mutating: string -> bool)
    ensures BatchesOf(calls + [call], mutating) == Placed(BatchesOf(calls, mutating), call, mutating)
  {
    assert (calls + [call])[..|calls|] == calls;
  }

  /** Starts a new batch where the call must not join the last one. */
  method Place(batches: seq<seq<ToolCall>>, call: ToolCall, previousWasMutating: bool, mutating: string -> bool)
    returns (placed: seq<seq<ToolCall>>)
    requires LastIs(batches, previousWasMutating, mutating)
    ensures placed == Placed(batches, call, mutating) && LastIs(placed, mutating(call.name), mutating)
  {
    if mutating(call.name) || previousWasMutating || |batches[|batches| - 1]| >= MAX_PARALLEL {
      placed := batches + [[call]];
    } else {
      placed := batches[..|batches| - 1] + [batches[|batches| - 1] + [call]];
    }
  }

  lemma {:induction false} PlacedKeeps(batches: seq<seq<ToolCall>>, call: ToolCall, mutating: string -> bool)
    requires AllAllowed(batches, mutating) && Separated(batches, mutating)
    ensures var placed := Placed(batches, call, mutating);
            && AllAllowed(placed, mutating) && Separated(placed, mutating) && Concat(placed) == Concat(batches) + [call]
  {
    assert batches != [] ==> batches[|batches| - 1] in batches;
    if Joins(batches, call, mutating) {
      GrowBatch(batches, call, mutating);
    } else {
      NewBatch(batches, call, mutating);
    }
  }

  lemma {:induction false} BatchesKeep(calls: seq<ToolCall>, mutating: string -> bool)
    ensures var batches := BatchesOf(calls, mutating);
            Concat(batches) == calls && AllAllowed(batches, mutating) && Separated(batches, mutating)
  {
    if calls != [] {
      var front, last := calls[..|calls| - 1], calls[|calls| - 1];
      BatchesKeep(front, mutating);
      PlacedKeeps(BatchesOf(front, mutating), last, mutating);
      assert calls == front + [last];
    }
  }

  lemma {:induction false} NewBatch(batches: seq<seq<ToolCall>>, call: ToolCall, mutating: string -> bool)
    requires AllAllowed(batches, mutating) && Separated(batches, mutating)
    requires batches != [] ==> batches[|batches| - 1] != []
    requires batches != [] ==>
      mutating(call.name) || mutating(batches[|batches| - 1][0].name) || |batches[|batches| - 1]| >= MAX_PARALLEL
    ensures AllAllowed(batches + [[call]], mutating) && Separated(batches + [[call]], mutating)
    ensures Concat(batches + [[call]]) == Concat(batches) + [call]
  {
    assert (batches + [[call]])[..|batches|] == batches;
    assert batches != [] ==> batches[|batches| - 1] in batches;
  }

  lemma {:induction false} GrowBatch(batches: seq<seq<ToolCall>>, call: ToolCall, mutating: string -> bool)
    requires batches != [] && batches[|batches| - 1] != []
    requires AllAllowed(batches, mutating) && Separated(batches, mutating)
    requires !mutating(call.name) && !mutating(batches[|batches| - 1][0].name) &&
      |batches[|batches| - 1]| < MAX_PARALLEL
    ensures var grown := batches[..|batches| - 1] + [batches[|batches| - 1] + [call]];
            AllAllowed(grown, mutating) && Separated(grown, mutating) && Concat(grown) == Concat(batches) + [call]
  {
    var front, last := batches[..|batches| - 1], batches[|batches| - 1];
    var grown := front + [last + [call]];
    assert grown[..|grown| - 1] == front;
    assert last in batches;
    forall c | c in last + [call] ensures !mutating(c.name) {
      assert c in last ==> (|last| == 1 && c == last[0]) || !mutating(c.name);
    }
    forall b | b in grown ensures Allowed(b, mutating) {
      assert b in front ==> b in batches;
    }
  }

  // Running a round.

  /** What a tool call does to the workspace, and what it answers. */
  type Exec<!S, R> = (S, ToolCall) -> (S, R)

  /** One call after the other. */
  function InSequence<S, R>(exec: Exec<S, R>, s: S, calls: seq<ToolCall>): (S, seq<R>) {
    if calls == [] then (s, [])
    else
      var before := InSequence(exec, s, calls[..|calls| - 1]);
      var step := exec(before.0, calls[|calls| - 1]);
      (step.0, before.1 + [step.1])
  }

  /** A permutation of the positions of a batch. */
  predicate Order(order: seq<nat>, n: nat) {
    |order| == n && Distinct(order) && InBounds(order, n)
  }

  predicate InBounds(order: seq<nat>, n: nat) { forall i :: 0 <= i < |order| ==> order[i] < n }

  /** The calls of a batch in the given order; each answer is kept under the position of its call. */
  function InOrder<S, R>(exec: Exec<S, R>, s: S, batch: seq<ToolCall>, order: seq<nat>): (S, map<nat, R>)
    requires InBounds(order, |batch|)
  {
    if order == [] then (s, map[])
    else
      var before := InOrder(exec, s, batch, order[..|order| - 1]);
      var k := order[|order| - 1];
      var step := exec(before.0, batch[k]);
      (step.0, before.1[k := step.1])
  }

  /** The answers of a batch, in the order of its calls. */
  function Answers<R>(answers: map<nat, R>, n: nat): seq<R>
    requires forall k :: 0 <= k < n ==> k in answers
  {
    seq(n, k requires 0 <= k < n => answers[k])
  }

  /** Every batch runs in some order of its own. */
  ghost predicate Orders(batches: seq<seq<ToolCall>>, orders: seq<seq<nat>>) {
    |orders| == |batches| && forall i :: 0 <= i < |batches| ==> Order(orders[i], |batches[i]|)
  }

  lemma {:induction false} DistinctRange(n: nat)
    ensures Distinct(Range(n))
  {
  }

  lemma {:induction false} OrderCovers(order: seq<nat>, n: nat, k: nat)
    requires Order(order, n) && k < n
    ensures k in order
  {
    DistinctRange(n);
    DistinctIffSetSize(order);
    DistinctIffSetSize(Range(n));
    var all, seen := (set x: nat | x in Range(n)), (set x: nat | x in order);
    assert |all| == n;
    assert |seen| == n;
    forall x | x in seen ensures x in all {
      var j :| 0 <= j < |order| && order[j] == x;
    }
    SameSize(seen, all);
    assert k in all;
  }

  lemma {:induction false} SameSize<T>(a: set<T>, b: set<T>)
    requires a <= b && |a| == |b|
    ensures a == b
  {
    assert b == a + (b - a);
  }

  /** A tool that does not mutate leaves the workspace as it is. */
  ghost predicate ReadersKeepState<S(!new), R>(exec: Exec<S, R>, mutating: string -> bool) {
    forall s, c: ToolCall :: !mutating(c.name) ==> exec(s, c).0 == s
  }

  lemma {:induction false} ReadersInOrder<S(!new), R>(exec: Exec<S, R>, s: S, batch: seq<ToolCall>, order: seq<nat>,
                                                      mutating: string -> bool)
    requires ReadersKeepState(exec, mutating) && forall c :: c in batch ==> !mutating(c.name)
    requires InBounds(order, |batch|)
    ensures InOrder(exec, s, batch, order).0 == s
    ensures forall k :: k in order ==>
      k in InOrder(exec, s, batch, order).1 && InOrder(exec, s, batch, order).1[k] == exec(s, batch[k]).1
  {
    if order != [] {
      var front, last := order[..|order| - 1], order[|order| - 1];
      assert order == front + [last];
      ReadersInOrder(exec, s, batch, front, mutating);
      assert batch[last] in batch;
    }
  }

  lemma {:induction false} ReadersInSequence<S(!new), R>(exec: Exec<S, R>, s: S, batch: seq<ToolCall>,
                                                         mutating: string -> bool)
    requires ReadersKeepState(exec, mutating) && forall c :: c in batch ==> !mutating(c.name)
    ensures InSequence(exec, s, batch).0 == s && |InSequence(exec, s, batch).1| == |batch|
    ensures forall k :: 0 <= k < |batch| ==> InSequence(exec, s, batch).1[k] == exec(s, batch[k]).1
  {
    if batch != [] {
      var front, last := batch[..|batch| - 1], batch[|batch| - 1];
      assert batch == front + [last];
      ReadersInSequence(exec, s, front, mutating);
    }
  }

  /** One batch: whatever the order, the same workspace and the same answers as in sequence. */
  lemma {:induction false} BatchIsSequence<S(!new), R>(exec: Exec<S, R>, s: S, batch: seq<ToolCall>, order: seq<nat>,
                                                       mutating: string -> bool)
    requires ReadersKeepState(exec, mutating) && Allowed(batch, mutating) && Order(order, |batch|)
    ensures forall k :: 0 <= k < |batch| ==> k in InOrder(exec, s, batch, order).1
    ensures InOrder(exec, s, batch, order).0 == InSequence(exec, s, batch).0
    ensures Answers(InOrder(exec, s, batch, order).1, |batch|) == InSequence(exec, s, batch).1
  {
    if |batch| == 1 {
      OrderCovers(order, 1, 0);
      assert order == [0] && order[..0] == [];
      assert batch[..0] == [];
    } else {
      ReadersInOrder(exec, s, batch, order, mutating);
      ReadersInSequence(exec, s, batch, mutating);
      forall k: nat | k < |batch| ensures k in order {
        OrderCovers(order, |batch|, k);
      }
    }
  }

  /** The batches one after the other, each in its own order. */
  ghost function InBatches<S(!new), R>(exec: Exec<S, R>, s: S, batches: seq<seq<ToolCall>>, orders: seq<seq<nat>>,
                                       mutating: string -> bool): (S, seq<R>)
    requires Orders(batches, orders) && AllAllowed(batches, mutating) && ReadersKeepState(exec, mutating)
    decreases |batches|
  {
    if batches == [] then (s, [])
    else
      var n := |batches| - 1;
      assert forall b :: b in batches[..n] ==> b in batches;
      var before := InBatches(exec, s, batches[..n], orders[..n], mutating);
      assert batches[n] in batches;
      BatchIsSequence(exec, before.0, batches[n], orders[n], mutating);
      var step := InOrder(exec, before.0, batches[n], orders[n]);
      (step.0, before.1 + Answers(step.1, |batches[n]|))
  }

  lemma {:induction false} SequenceAppend<S, R>(exec: Exec<S, R>, s: S, a: seq<ToolCall>, b: seq<ToolCall>)
    ensures var first := InSequence(exec, s, a);
            var second := InSequence(exec, first.0, b);
            InSequence(exec, s, a + b) == (second.0, first.1 + second.1)
  {
    if b == [] {
      assert a + b == a && InSequence(exec, s, a).1 + [] == InSequence(exec, s, a).1;
    } else {
      var front, last := b[..|b| - 1], b[|b| - 1];
      assert (a + b)[..|a + b| - 1] == a + front && (a + b)[|a + b| - 1] == last;
      SequenceAppend(exec, s, a, front);
      var before := InSequence(exec, InSequence(exec, s, a).0, front);
      var step := exec(before.0, last);
      assert InSequence(exec, s, a).1 + before.1 + [step.1] == InSequence(exec, s, a).1 + (before.1 + [step.1]);
    }
  }

  /**
   * Batching preserves meaning: for every order within the batches, the workspace ends the same and
   * every call gets the same answer, in the order of the calls, as if they had run one by one.
   */
  lemma {:induction false} BatchingPreservesMeaning<S(!new), R>(exec: Exec<S, R>, s: S, batches: seq<seq<ToolCall>>,
                                                                orders: seq<seq<nat>>, mutating: string -> bool)
    requires Orders(batches, orders) && AllAllowed(batches, mutating) && ReadersKeepState(exec, mutating)
    ensures InBatches(exec, s, batches, orders, mutating) == InSequence(exec, s, Concat(batches))
    decreases |batches|
  {
    if batches != [] {
      var n := |batches| - 1;
      assert forall b :: b in batches[..n] ==> b in batches;
      BatchingPreservesMeaning(exec, s, batches[..n], orders[..n], mutating);
      var before := InBatches(exec, s, batches[..n], orders[..n], mutating);
      assert batches[n] in batches;
      BatchIsSequence(exec, before.0, batches[n], orders[n], mutating);
      SequenceAppend(exec, s, Concat(batches[..n]), batches[n]);
    }
  }
}
