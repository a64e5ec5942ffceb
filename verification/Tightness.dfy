/**
 * The list-scheduling bound cannot be improved: for every depth and number of writers some accepted graph needs it all.
 */
module Tightness {
  import opened Domain
  import opened Digraph
  import opened Scheduling
  import opened RoundBound
  import V = Validation

  // `writers` independent writers; then readers, each after the one before, the first after the last writer.

  /** No two positions have the same name. */
  ghost predicate Injective(name: nat -> Id) {
    forall i: nat, j: nat :: name(i) == name(j) ==> i == j
  }

  function LineCell(name: nat -> Id, writers: nat, i: nat): Cell {
    var after := if i < writers || i == 0 then [] else [name(i - 1)];
    ChainCell(name(i).text, i, if i < writers then Mutating else ReadOnly, after)
  }

  ghost predicate IsLine(name: nat -> Id, writers: nat, cells: seq<Cell>) {
    forall i {:trigger cells[i]} :: 0 <= i < |cells| ==> cells[i] == LineCell(name, writers, i)
  }

  /** One edge into every reader, from the cell before it. */
  ghost predicate AreReaderEdges(name: nat -> Id, writers: nat, n: nat, edges: seq<Edge>)
    requires writers >= 1
  {
    && |edges| == (if n <= writers then 0 else n - writers)
    && forall k {:trigger edges[k]} :: 0 <= k < |edges| ==>
         edges[k] == Edge(name(writers + k - 1), name(writers + k), Blocks)
  }

  ghost predicate IsLineGraph(name: nat -> Id, writers: nat, depth: nat, g: Graph)
    requires writers >= 1 && depth >= 1
  {
    && Injective(name) && IsLine(name, writers, g.cells) && |g.cells| == writers + depth - 1
    && AreReaderEdges(name, writers, |g.cells|, g.edges)
    && g.milestones == [] && g.horizon == |g.cells| - 1
  }

  function FirstIds(name: nat -> Id, n: nat): set<Id> { if n == 0 then {} else FirstIds(name, n - 1) + {name(n - 1)} }

  lemma {:induction false} NameIsFirstIff(name: nat -> Id, i: nat, n: nat)
    requires Injective(name)
    ensures name(i) in FirstIds(name, n) <==> i < n
  {
    if n > 0 {
      NameIsFirstIff(name, i, n - 1);
    }
  }

  lemma {:induction false} FirstIdsSameIff(name: nat -> Id, a: nat, b: nat)
    requires Injective(name) && a <= b
    ensures FirstIds(name, a) == FirstIds(name, b) <==> a == b
  {
    NameIsFirstIff(name, a, a);
    NameIsFirstIff(name, a, b);
  }

  lemma {:induction false} IdSetSnoc(cells: seq<Cell>, last: Cell)
    ensures IdSet(cells + [last]) == IdSet(cells) + {last.id}
  {
    forall id ensures id in IdSet(cells + [last]) <==> id in IdSet(cells) + {last.id} {
      assert forall c :: c in cells ==> c in cells + [last];
      assert last in cells + [last];
    }
  }

  lemma {:induction false} IdsOfLine(name: nat -> Id, writers: nat, cells: seq<Cell>)
    requires IsLine(name, writers, cells)
    ensures IdSet(cells) == FirstIds(name, |cells|)
  {
    if cells != [] {
      var front, last := cells[..|cells| - 1], cells[|cells| - 1];
      IdsOfLine(name, writers, front);
      assert cells == front + [last];
      IdSetSnoc(front, last);
    }
  }

  lemma {:induction false} LineIdsAreUnique(name: nat -> Id, writers: nat, cells: seq<Cell>)
    requires Injective(name) && IsLine(name, writers, cells)
    ensures UniqueIds(cells)
  {
    forall i, j | 0 <= i < j < |cells| ensures cells[i].id != cells[j].id {
      assert name(i) != name(j);
    }
  }

  // Every round completes exactly one cell.

  lemma {:induction false} EligibleInLine(name: nat -> Id, writers: nat, r: nat, i: nat)
    requires Injective(name) && writers >= 1
    ensures Eligible(LineCell(name, writers, i), FirstIds(name, r), {}, true) <==> r <= i && (i < writers || i == r)
  {
    NameIsFirstIff(name, i, r);
    if i > 0 {
      NameIsFirstIff(name, i - 1, r);
    }
  }

  lemma {:induction false} ReadySnoc(front: seq<Cell>, last: Cell, done: set<Id>)
    ensures var ready := ReadyList(front, done, {}, true);
            ReadyList(front + [last], done, {}, true) ==
            if Eligible(last, done, {}, true) && !(last.mode.Mutating? && HasMutating(ready)) then ready + [last]
              else ready
  {
    assert (front + [last])[..|front|] == front;
  }

  /** A cell that may run from the position `r` on: that one, and the writers. */
  ghost predicate MayRunFrom(cells: seq<Cell>, done: set<Id>, writers: nat, r: nat) {
    forall c, i {:trigger cells[i], Eligible(c, done, {}, true)} :: 0 <= i < |cells| && c == cells[i] ==>
      && (Eligible(c, done, {}, true) <==> r <= i && (i < writers || i == r))
      && (c.mode.Mutating? <==> i < writers)
  }

  lemma {:induction false} OnlyFirstIsReady(cells: seq<Cell>, done: set<Id>, writers: nat, r: nat)
    requires MayRunFrom(cells, done, writers, r)
    ensures ReadyList(cells, done, {}, true) == if |cells| <= r then [] else [cells[r]]
  {
    if cells != [] {
      var i := |cells| - 1;
      var front, last := cells[..i], cells[i];
      OnlyFirstIsReady(front, done, writers, r);
      ReadySnoc(front, last, done);
      assert cells == front + [last];
      assert Eligible(last, done, {}, true) <==> r <= i && (i < writers || i == r);
      if i > r {
        assert cells[r] in [cells[r]];
      }
    }
  }

  lemma {:induction false} ReadyInLine(name: nat -> Id, writers: nat, r: nat, cells: seq<Cell>)
    requires Injective(name) && IsLine(name, writers, cells) && writers >= 1
    ensures ReadyList(cells, FirstIds(name, r), {}, true) == if |cells| <= r then [] else [cells[r]]
  {
    var done := FirstIds(name, r);
    forall c, i | 0 <= i < |cells| && c == cells[i]
      ensures Eligible(c, done, {}, true) <==> r <= i && (i < writers || i == r)
      ensures c.mode.Mutating? <==> i < writers
    {
      EligibleInLine(name, writers, r, i);
    }
    OnlyFirstIsReady(cells, done, writers, r);
  }

  lemma {:induction false} NextInLine(name: nat -> Id, writers: nat, cells: seq<Cell>, r: nat)
    requires Injective(name) && IsLine(name, writers, cells) && writers >= 1 && r <= |cells|
    ensures NextDone(cells, FirstIds(name, r)) == FirstIds(name, if r < |cells| then r + 1 else r)
  {
    ReadyInLine(name, writers, r, cells);
    var ready := ReadyList(cells, FirstIds(name, r), {}, true);
    if r < |cells| {
      assert ready == [] + [cells[r]] && cells[r].id == name(r);
      IdSetSnoc([], cells[r]);
    } else {
      assert IdSet(ready) == {};
    }
  }

  lemma {:induction false} LineProgress(name: nat -> Id, writers: nat, cells: seq<Cell>, r: nat, rounds: nat)
    requires Injective(name) && IsLine(name, writers, cells) && writers >= 1 && r <= |cells|
    ensures Progress(cells, FirstIds(name, r), rounds) == FirstIds(name, Min(|cells|, r + rounds))
    decreases rounds
  {
    if rounds > 0 {
      NextInLine(name, writers, cells, r);
      LineProgress(name, writers, cells, if r < |cells| then r + 1 else r, rounds - 1);
    }
  }

  /** The graph finishes exactly from as many rounds on as it has cells. */
  lemma {:induction false} LineNeedsAllRounds(name: nat -> Id, writers: nat, cells: seq<Cell>, rounds: nat)
    requires Injective(name) && IsLine(name, writers, cells) && writers >= 1
    ensures Progress(cells, {}, rounds) == IdSet(cells) <==> |cells| <= rounds
  {
    IdsOfLine(name, writers, cells);
    LineProgress(name, writers, cells, 0, rounds);
    FirstIdsSameIff(name, Min(|cells|, rounds), |cells|);
  }

  // Its chains and its writers.

  /** Only a reader depends on a cell, the one before it. */
  lemma {:induction false} LineDepends(name: nat -> Id, writers: nat, cells: seq<Cell>, i: nat, d: Cell)
    requires Injective(name) && IsLine(name, writers, cells) && i < |cells|
    requires d in cells && d.id in cells[i].dependencies
    ensures 0 < i && writers <= i && d == cells[i - 1]
  {
    var j :| 0 <= j < |cells| && cells[j] == d;
    assert name(j) == name(i - 1);
  }

  lemma {:induction false} LineWithin(name: nat -> Id, writers: nat, cells: seq<Cell>, i: nat)
    requires Injective(name) && IsLine(name, writers, cells) && writers >= 1 && i < |cells|
    ensures Within(cells, {}, cells[i], if i < writers then 1 else i - writers + 2)
    decreases i
  {
    forall d | d in cells && d.id in cells[i].dependencies
      ensures i >= writers && Within(cells, {}, d, i - writers + 1)
    {
      LineDepends(name, writers, cells, i, d);
      LineWithin(name, writers, cells, i - 1);
    }
  }

  lemma {:induction false} LineChainsAreShort(name: nat -> Id, writers: nat, cells: seq<Cell>, depth: nat)
    requires Injective(name) && IsLine(name, writers, cells)
    requires writers >= 1 && depth >= 1 && |cells| == writers + depth - 1
    ensures forall p :: IsChain(cells, p) ==> |p| <= depth
  {
    forall c | c in cells ensures Within(cells, {}, c, depth) {
      var i :| 0 <= i < |cells| && cells[i] == c;
      LineWithin(name, writers, cells, i);
      WithinGrows(cells, {}, {}, c, if i < writers then 1 else i - writers + 2, depth);
    }
    DepthIsLongestChain(cells, depth);
  }

  /** The last writer and the readers after it. */
  lemma {:induction false} LineIsDeep(name: nat -> Id, writers: nat, cells: seq<Cell>)
    requires IsLine(name, writers, cells) && 1 <= writers <= |cells|
    ensures IsChain(cells, cells[writers - 1..])
  {
    var p := cells[writers - 1..];
    forall k | 0 <= k < |p| - 1 ensures p[k].id in p[k + 1].dependencies {
      assert p[k] == cells[writers - 1 + k] && p[k + 1] == cells[writers + k];
    }
  }

  lemma {:induction false} LineWriters(name: nat -> Id, writers: nat, cells: seq<Cell>)
    requires IsLine(name, writers, cells)
    ensures |V.MutatingCells(cells)| == Min(writers, |cells|)
  {
    if cells != [] {
      LineWriters(name, writers, cells[..|cells| - 1]);
    }
  }

  // Validation accepts it.

  lemma {:induction false} LineIsOrdered(name: nat -> Id, writers: nat, cells: seq<Cell>)
    requires Injective(name) && IsLine(name, writers, cells)
    ensures V.WavesOrdered(cells)
    ensures forall c, dep :: c in cells && dep in c.dependencies ==> dep in IdSet(cells)
  {
    LineIdsAreUnique(name, writers, cells);
    forall c, dep | c in cells && dep in c.dependencies
      ensures dep in IdSet(cells) && dep in V.ById(cells) && V.ById(cells)[dep].wave < c.wave
    {
      var i :| 0 <= i < |cells| && cells[i] == c;
      var d := cells[i - 1];
      assert d in cells && d.id == dep;
      V.UniqueIdsGiveCell(cells, d);
    }
  }

  lemma {:induction false} LineCellsAreSound(name: nat -> Id, writers: nat, cells: seq<Cell>, e: V.GraphError)
    requires Injective(name) && IsLine(name, writers, cells) && V.CellError(e)
    ensures !V.SomeCellFault(cells, e)
  {
    LineIsOrdered(name, writers, cells);
    forall c | c in cells ensures !V.CellFault(cells, c, e) {
      var i :| 0 <= i < |cells| && cells[i] == c;
      assert i > 0 ==> name(i) != name(i - 1);
    }
  }

  lemma {:induction false} LineArcs(name: nat -> Id, writers: nat, cells: seq<Cell>, edges: seq<Edge>, a: Arc<Id>)
    requires Injective(name) && IsLine(name, writers, cells)
    requires writers >= 1 && AreReaderEdges(name, writers, |cells|, edges)
    ensures (exists c :: c in cells && c.id == a.1 && a.0 in c.dependencies) <==> Edge(a.0, a.1, Blocks) in edges
  {
    if c :| c in cells && c.id == a.1 && a.0 in c.dependencies {
      var i :| 0 <= i < |cells| && cells[i] == c;
      assert edges[i - writers] == Edge(a.0, a.1, Blocks);
    }
    if Edge(a.0, a.1, Blocks) in edges {
      var k :| 0 <= k < |edges| && edges[k] == Edge(a.0, a.1, Blocks);
      var c := cells[writers + k];
      assert c in cells && c.id == a.1 && a.0 in c.dependencies;
    }
  }

  lemma {:induction false} LineBlocking(name: nat -> Id, writers: nat, cells: seq<Cell>, edges: seq<Edge>)
    requires Injective(name) && IsLine(name, writers, cells)
    requires writers >= 1 && AreReaderEdges(name, writers, |cells|, edges)
    ensures V.Blocking(edges) == V.ArcSet(V.DependencyArcs(cells, IdSet(cells)))
  {
    LineIsOrdered(name, writers, cells);
    forall a: Arc<Id>
      ensures a in V.Blocking(edges) <==> a in V.ArcSet(V.DependencyArcs(cells, IdSet(cells)))
    {
      LineArcs(name, writers, cells, edges, a);
      V.DependencyArcsAre(cells, IdSet(cells), a);
      assert Edge(a.0, a.1, Blocks) in edges ==> a in V.Blocking(edges);
    }
  }

  lemma {:induction false} LineEdgesAreSound(name: nat -> Id, writers: nat, g: Graph, e: V.GraphError)
    requires Injective(name) && IsLine(name, writers, g.cells)
    requires writers >= 1 && AreReaderEdges(name, writers, |g.cells|, g.edges)
    ensures !V.EdgeFault(g, e)
  {
    LineBlocking(name, writers, g.cells, g.edges);
    forall d | d in g.edges ensures !V.DanglingEdge(g.cells, d) {
      var k :| 0 <= k < |g.edges| && g.edges[k] == d;
      assert g.cells[writers + k - 1] in g.cells && g.cells[writers + k] in g.cells;
    }
    forall j, k | 0 <= j < k < |g.edges| ensures g.edges[j] != g.edges[k] {
      assert name(writers + j) != name(writers + k);
    }
  }

  lemma {:induction false} LineHeaderIsSound(name: nat -> Id, writers: nat, g: Graph, e: V.GraphError)
    requires Injective(name) && IsLine(name, writers, g.cells) && g.cells != []
    requires g.milestones == [] && g.horizon == |g.cells| - 1
    ensures !V.HeaderFault(g, e)
  {
    LineIdsAreUnique(name, writers, g.cells);
    assert g.cells[|g.cells| - 1] in g.cells;
    var c :| c in g.cells && c.wave == V.HighestWave(g.cells);
    var i :| 0 <= i < |g.cells| && g.cells[i] == c;
  }

  lemma {:induction false} LineIsUnlimited(name: nat -> Id, writers: nat, cells: seq<Cell>)
    requires IsLine(name, writers, cells) && cells != []
    ensures |V.TokenLimits(cells)| != |cells| && |V.CostLimits(cells)| != |cells|
  {
    assert cells[0] in cells;
  }

  lemma {:induction false} LineHasNoCycle(name: nat -> Id, writers: nat, cells: seq<Cell>)
    requires Injective(name) && IsLine(name, writers, cells)
    ensures !V.CycleFault(cells)
  {
    LineIdsAreUnique(name, writers, cells);
    LineIsOrdered(name, writers, cells);
    V.EarlierWavesExcludeCycles(cells);
  }

  /** Validation lets the graph through, for a run that allows as many waves as there are writers. */
  lemma {:induction false} LineIsAccepted(name: nat -> Id, writers: nat, depth: nat, g: Graph, e: V.GraphError)
    requires writers >= 1 && depth >= 1 && IsLineGraph(name, writers, depth, g)
    ensures !V.Fault(g, None, Some(writers), e)
  {
    if V.HeaderError(e) {
      LineHeaderIsSound(name, writers, g, e);
    } else if V.CellError(e) {
      LineCellsAreSound(name, writers, g.cells, e);
    } else if V.EdgeError(e) {
      LineEdgesAreSound(name, writers, g, e);
    } else if V.BudgetError(e) {
      LineIsUnlimited(name, writers, g.cells);
    } else if e.Cycle? {
      LineHasNoCycle(name, writers, g.cells);
    } else if !e.CrowdedWave? {
      LineWriters(name, writers, g.cells);
    }
  }

  lemma {:induction false} LineGraphExists(writers: nat, depth: nat) returns (name: nat -> Id, g: Graph)
    requires writers >= 1 && depth >= 1
    ensures IsLineGraph(name, writers, depth, g)
  {
    name := (i: nat) => Id(seq(i, _ => 'i'));
    forall i: nat, j: nat | name(i) == name(j) ensures i == j {
      assert |name(i).text| == i && |name(j).text| == j;
    }
    var n := writers + depth - 1;
    var cells := seq(n, i requires 0 <= i < n => LineCell(name, writers, i));
    var edges := seq(depth - 1,
      k requires 0 <= k < depth - 1 => Edge(name(writers + k - 1), name(writers + k), Blocks));
    g := Graph(cells, edges, [], n - 1);
  }

  /** For every depth and number of writers, some accepted graph finishes in no fewer rounds than the bound. */
  lemma {:induction false} BoundIsTight(writers: nat, depth: nat) returns (g: Graph)
    requires writers >= 1 && depth >= 1
    ensures V.Accepted(g, None, Some(writers)) && |V.MutatingCells(g.cells)| == writers
    ensures (forall p :: IsChain(g.cells, p) ==> |p| <= depth) && (exists p :: IsChain(g.cells, p) && |p| == depth)
    ensures forall rounds: nat :: Progress(g.cells, {}, rounds) == IdSet(g.cells) <==> depth + writers - 1 <= rounds
  {
    var name;
    name, g := LineGraphExists(writers, depth);
    forall e ensures !V.Fault(g, None, Some(writers), e) {
      LineIsAccepted(name, writers, depth, g, e);
    }
    LineWriters(name, writers, g.cells);
    LineChainsAreShort(name, writers, g.cells, depth);
    LineIsDeep(name, writers, g.cells);
    forall rounds: nat
      ensures Progress(g.cells, {}, rounds) == IdSet(g.cells) <==> depth + writers - 1 <= rounds
    {
      LineNeedsAllRounds(name, writers, g.cells, rounds);
    }
  }
}
