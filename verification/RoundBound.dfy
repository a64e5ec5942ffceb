/** How many scheduling rounds a graph needs when nothing goes wrong. */
module RoundBound {
  import opened Domain
  import opened Scheduling
  import V = Validation

  // Progress of the round loop: each round completes everything that is ready.

  function NextDone(cells: seq<Cell>, done: set<Id>): set<Id> {
    done + IdSet(ReadyList(cells, done, {}, true))
  }

  /** The completed ids after `rounds` rounds in which every started cell completes. */
  function Progress(cells: seq<Cell>, done: set<Id>, rounds: nat): set<Id>
    decreases rounds
  {
    if rounds == 0 then done else Progress(cells, NextDone(cells, done), rounds - 1)
  }

  /** Dependencies are cells of the graph, in earlier waves. */
  ghost predicate Layered(cells: seq<Cell>) {
    && UniqueIds(cells)
    && (forall c, dep :: c in cells && dep in c.dependencies ==> dep in IdSet(cells))
    && (forall c, d :: c in cells && d in cells && d.id in c.dependencies ==> d.wave < c.wave)
  }

  lemma {:induction false} AcceptedIsLayered(g: Graph, runBudget: Option<Budget>, maxWaves: Option<nat>)
    requires V.Accepted(g, runBudget, maxWaves)
    ensures Layered(g.cells)
  {
    assert !V.Fault(g, runBudget, maxWaves, V.DuplicateIds);
    forall c, dep | c in g.cells && dep in c.dependencies ensures dep in IdSet(g.cells) {
      var e := V.UnknownDependency(c.id, dep);
      assert !V.Fault(g, runBudget, maxWaves, e);
      assert !V.CellFault(g.cells, c, e);
    }
    V.NoWaveErrorOrders(g, runBudget, maxWaves);
    forall c, d | c in g.cells && d in g.cells && d.id in c.dependencies ensures d.wave < c.wave {
      V.UniqueIdsGiveCell(g.cells, d);
    }
  }

  lemma {:induction false} ReadyIdsAreCells(cells: seq<Cell>, done: set<Id>)
    requires done <= IdSet(cells)
    ensures done <= NextDone(cells, done) <= IdSet(cells)
  {
    ReadyAreEligible(cells, done, {}, true);
  }

  // Dependency depth.

  /** Every dependency chain that ends at `c` has at most `n` cells outside `done`. */
  ghost predicate Within(cells: seq<Cell>, done: set<Id>, c: Cell, n: nat)
    decreases n
  {
    c.id in done ||
    (n > 0 && forall d :: d in cells && d.id in c.dependencies ==> Within(cells, done, d, n - 1))
  }

  ghost predicate AllWithin(cells: seq<Cell>, done: set<Id>, n: nat) {
    forall c :: c in cells ==> Within(cells, done, c, n)
  }

  lemma {:induction false} WithinGrows(cells: seq<Cell>, done: set<Id>, more: set<Id>, c: Cell, n: nat, m: nat)
    requires done <= more && n <= m && Within(cells, done, c, n)
    ensures Within(cells, more, c, m)
    decreases n
  {
    if c.id !in done {
      forall d | d in cells && d.id in c.dependencies ensures Within(cells, more, d, m - 1) {
        WithinGrows(cells, done, more, d, n - 1, m - 1);
      }
    }
  }

  /** A dependency chain, from the first cell to run to the last. */
  predicate IsChain(cells: seq<Cell>, p: seq<Cell>) {
    && |p| >= 1
    && (forall i :: 0 <= i < |p| ==> p[i] in cells)
    && (forall i :: 0 <= i < |p| - 1 ==> p[i].id in p[i + 1].dependencies)
  }

  lemma {:induction false} ChainsFit(cells: seq<Cell>, p: seq<Cell>, n: nat)
    requires IsChain(cells, p) && Within(cells, {}, p[|p| - 1], n)
    ensures |p| <= n
    decreases n
  {
    if |p| >= 2 {
      var front := p[..|p| - 1];
      assert p[|p| - 2].id in p[|p| - 2 + 1].dependencies;
      assert front[|front| - 1] == p[|p| - 2];
      ChainsFit(cells, front, n - 1);
    }
  }

  lemma {:induction false} DeepChain(cells: seq<Cell>, c: Cell, n: nat) returns (p: seq<Cell>)
    requires c in cells && !Within(cells, {}, c, n)
    ensures IsChain(cells, p) && p[|p| - 1] == c && |p| == n + 1
    decreases n
  {
    if n == 0 {
      p := [c];
    } else {
      var d :| d in cells && d.id in c.dependencies && !Within(cells, {}, d, n - 1);
      var front := DeepChain(cells, d, n - 1);
      p := front + [c];
      forall i | 0 <= i < |p| - 1 ensures p[i].id in p[i + 1].dependencies {
        if i == |front| - 1 {
          assert p[i] == d;
        }
      }
    }
  }

  /** The depth of a graph is the length of its longest dependency chain. */
  lemma {:induction false} DepthIsLongestChain(cells: seq<Cell>, n: nat)
    ensures AllWithin(cells, {}, n) <==> forall p :: IsChain(cells, p) ==> |p| <= n
  {
    if AllWithin(cells, {}, n) {
      forall p | IsChain(cells, p) ensures |p| <= n {
        ChainsFit(cells, p, n);
      }
    } else {
      var c :| c in cells && !Within(cells, {}, c, n);
      var p := DeepChain(cells, c, n);
      assert IsChain(cells, p) && |p| > n;
    }
  }

  lemma {:induction false} WaveBoundsChain(cells: seq<Cell>, c: Cell, top: nat)
    requires Layered(cells) && c in cells && c.wave <= top
    ensures Within(cells, {}, c, top + 1)
    decreases top
  {
    forall d | d in cells && d.id in c.dependencies ensures Within(cells, {}, d, top) {
      WaveBoundsChain(cells, d, top - 1);
    }
  }

  lemma {:induction false} HorizonIsHighest(g: Graph, runBudget: Option<Budget>, maxWaves: Option<nat>)
    requires V.Accepted(g, runBudget, maxWaves)
    ensures forall c :: c in g.cells ==> c.wave <= g.horizon
  {
    assert !V.Fault(g, runBudget, maxWaves, V.HorizonMismatch);
    assert g.cells != [] ==> g.horizon == V.HighestWave(g.cells);
  }

  /** No chain is longer than the number of waves. */
  lemma {:induction false} HorizonBoundsDepth(g: Graph, runBudget: Option<Budget>, maxWaves: Option<nat>)
    requires V.Accepted(g, runBudget, maxWaves)
    ensures forall p :: IsChain(g.cells, p) ==> |p| <= g.horizon + 1
  {
    AcceptedIsLayered(g, runBudget, maxWaves);
    HorizonIsHighest(g, runBudget, maxWaves);
    forall c | c in g.cells ensures Within(g.cells, {}, c, g.horizon + 1) {
      WaveBoundsChain(g.cells, c, g.horizon);
    }
    DepthIsLongestChain(g.cells, g.horizon + 1);
  }

  // One round either shortens every remaining chain or retires one of several ready writers.

  predicate EligibleNow(cells: seq<Cell>, done: set<Id>, c: Cell) {
    c in cells && Eligible(c, done, {}, true)
  }

  /** If everything eligible completes, every remaining chain gets shorter. */
  lemma {:induction false} ChainsShorten(cells: seq<Cell>, done: set<Id>, next: set<Id>, c: Cell, n: nat)
    requires Layered(cells) && done <= next && c in cells
    requires forall e :: EligibleNow(cells, done, e) ==> e.id in next
    requires Within(cells, done, c, n + 1)
    ensures Within(cells, next, c, n)
    decreases n
  {
    if c.id !in done {
      if n == 0 {
        forall dep | dep in c.dependencies ensures dep in done {
          assert dep in IdSet(cells);
          var d :| d in cells && d.id == dep;
          assert Within(cells, done, d, 0);
        }
        assert EligibleNow(cells, done, c);
      } else {
        forall d | d in cells && d.id in c.dependencies ensures Within(cells, next, d, n - 1) {
          ChainsShorten(cells, done, next, d, n - 1);
        }
      }
    }
  }

  /** At most one eligible writer: everything eligible is served. */
  lemma {:induction false} AllServed(cells: seq<Cell>, done: set<Id>)
    requires UniqueIds(cells) && !WritersCompete(cells, done)
    ensures forall c :: EligibleNow(cells, done, c) ==> c.id in NextDone(cells, done)
  {
    var ready := ReadyList(cells, done, {}, true);
    ReadyAreEligible(cells, done, {}, true);
    forall c | EligibleNow(cells, done, c) ensures c in ready {
      EligibleAreServed(cells, done, {}, true, c);
      if c.mode.Mutating? {
        var w :| w in ready && w.mode.Mutating?;
        assert EligibleNow(cells, done, w);
      }
    }
  }

  function WritersLeft(cells: seq<Cell>, done: set<Id>): set<Id> {
    set c | c in cells && c.mode.Mutating? && c.id !in done :: c.id
  }

  ghost predicate WritersCompete(cells: seq<Cell>, done: set<Id>) {
    exists a, b :: EligibleNow(cells, done, a) && EligibleNow(cells, done, b) && a.mode.Mutating? && b.mode.Mutating? &&
      a != b
  }

  lemma {:induction false} WriterRetired(cells: seq<Cell>, done: set<Id>, c: Cell)
    requires EligibleNow(cells, done, c) && c.mode.Mutating?
    ensures |WritersLeft(cells, NextDone(cells, done))| < |WritersLeft(cells, done)|
  {
    var left, later := WritersLeft(cells, done), WritersLeft(cells, NextDone(cells, done));
    EligibleAreServed(cells, done, {}, true, c);
    ReadyAreEligible(cells, done, {}, true);
    var w :| w in ReadyList(cells, done, {}, true) && w.mode.Mutating?;
    assert w.id in left && w.id !in later;
    SubsetIsSmaller(later, left - {w.id});
  }

  /** Two eligible writers: one of them is retired and another remains. */
  lemma {:induction false} CompetitorRetired(cells: seq<Cell>, done: set<Id>)
    requires UniqueIds(cells) && WritersCompete(cells, done)
    ensures |WritersLeft(cells, done)| >= 2
    ensures |WritersLeft(cells, NextDone(cells, done))| < |WritersLeft(cells, done)|
  {
    var a, b :| EligibleNow(cells, done, a) && EligibleNow(cells, done, b) && a.mode.Mutating? && b.mode.Mutating? &&
      a != b;
    DifferentIds(cells, a, b);
    SubsetIsSmaller({a.id, b.id}, WritersLeft(cells, done));
    WriterRetired(cells, done, a);
  }

  lemma {:induction false} DifferentIds(cells: seq<Cell>, a: Cell, b: Cell)
    requires UniqueIds(cells) && a in cells && b in cells
    ensures a != b <==> a.id != b.id
  {
    var i :| 0 <= i < |cells| && cells[i] == a;
    var j :| 0 <= j < |cells| && cells[j] == b;
  }

  lemma {:induction false} SubsetIsSmaller<T>(a: set<T>, b: set<T>)
    requires a <= b
    ensures |a| <= |b|
  {
    assert b == a + (b - a);
  }

  lemma {:induction false} WritersOnlyLeave(cells: seq<Cell>, done: set<Id>, more: set<Id>)
    requires done <= more
    ensures |WritersLeft(cells, more)| <= |WritersLeft(cells, done)|
  {
    SubsetIsSmaller(WritersLeft(cells, more), WritersLeft(cells, done));
  }

  lemma {:induction false} NothingLeft(cells: seq<Cell>, done: set<Id>)
    requires AllWithin(cells, done, 0) && done <= IdSet(cells)
    ensures done == NextDone(cells, done) == IdSet(cells)
  {
    ReadyIdsAreCells(cells, done);
  }

  lemma {:induction false} AllWithinGrows(cells: seq<Cell>, done: set<Id>, more: set<Id>, n: nat)
    requires AllWithin(cells, done, n) && done <= more
    ensures AllWithin(cells, more, n)
  {
    forall c | c in cells ensures Within(cells, more, c, n) {
      WithinGrows(cells, done, more, c, n, n);
    }
  }

  lemma {:induction false} AllShorten(cells: seq<Cell>, done: set<Id>, next: set<Id>, n: nat)
    requires Layered(cells) && done <= next && AllWithin(cells, done, n + 1)
    requires forall e :: EligibleNow(cells, done, e) ==> e.id in next
    ensures AllWithin(cells, next, n)
  {
    forall c | c in cells ensures Within(cells, next, c, n) {
      ChainsShorten(cells, done, next, c, n);
    }
  }

  /** The list-scheduling bound: depth plus all writers but one is enough rounds. */
  lemma {:induction false} RoundsSuffice(cells: seq<Cell>, done: set<Id>, depth: nat, rounds: nat)
    requires Layered(cells) && done <= IdSet(cells) && AllWithin(cells, done, depth)
    requires depth + Max(0, |WritersLeft(cells, done)| - 1) <= rounds
    ensures Progress(cells, done, rounds) == IdSet(cells)
    decreases rounds
  {
    var next := NextDone(cells, done);
    ReadyIdsAreCells(cells, done);
    WritersOnlyLeave(cells, done, next);
    if depth == 0 {
      NothingLeft(cells, done);
      if rounds > 0 {
        RoundsSuffice(cells, next, 0, rounds - 1);
      }
    } else if WritersCompete(cells, done) {
      CompetitorRetired(cells, done);
      AllWithinGrows(cells, done, next, depth);
      RoundsSuffice(cells, next, depth, rounds - 1);
    } else {
      AllServed(cells, done);
      AllShorten(cells, done, next, depth - 1);
      RoundsSuffice(cells, next, depth - 1, rounds - 1);
    }
  }

  // No schedule of this kind can be faster than the longest chain or than one writer a round.

  lemma {:induction false} ChainsShortenByOneAtMost(cells: seq<Cell>, done: set<Id>, c: Cell, n: nat)
    requires UniqueIds(cells) && c in cells
    requires Within(cells, NextDone(cells, done), c, n)
    ensures Within(cells, done, c, n + 1)
    decreases n
  {
    if c.id !in done {
      if c.id in NextDone(cells, done) {
        ReadyById(cells, done, c);
        ReadyAreEligible(cells, done, {}, true);
      } else {
        forall d | d in cells && d.id in c.dependencies ensures Within(cells, done, d, n) {
          ChainsShortenByOneAtMost(cells, done, d, n - 1);
        }
      }
    }
  }

  lemma {:induction false} ReadyById(cells: seq<Cell>, done: set<Id>, c: Cell)
    requires UniqueIds(cells) && c in cells && c.id !in done
    ensures c.id in NextDone(cells, done) <==> c in ReadyList(cells, done, {}, true)
  {
    var ready := ReadyList(cells, done, {}, true);
    ReadyAreEligible(cells, done, {}, true);
    forall r | r in ready && r.id == c.id ensures r == c {
      DifferentIds(cells, r, c);
    }
  }

  lemma {:induction false} OneWriterARound(cells: seq<Cell>, done: set<Id>)
    requires UniqueIds(cells)
    ensures |WritersLeft(cells, done)| <= |WritersLeft(cells, NextDone(cells, done))| + 1
  {
    var left, later := WritersLeft(cells, done), WritersLeft(cells, NextDone(cells, done));
    var ready := ReadyList(cells, done, {}, true);
    OneWriterAtMost(cells, done, {}, true);
    var w := if w :| w in ready && w.mode.Mutating? then {w.id} else {};
    forall id | id in left ensures id in later + w {
      var c :| c in cells && c.mode.Mutating? && c.id !in done && c.id == id;
      ReadyById(cells, done, c);
      if c in ready {
        forall v | v in ready && v.mode.Mutating? ensures v == c {
          var i :| 0 <= i < |ready| && ready[i] == c;
          var j :| 0 <= j < |ready| && ready[j] == v;
          assert i == j;
        }
      }
    }
    SubsetIsSmaller(left, later + w);
  }

  lemma {:induction false} DepthShrinksByOneAtMost(cells: seq<Cell>, done: set<Id>, n: nat)
    requires UniqueIds(cells) && AllWithin(cells, NextDone(cells, done), n)
    ensures AllWithin(cells, done, n + 1)
  {
    forall c | c in cells ensures Within(cells, done, c, n + 1) {
      ChainsShortenByOneAtMost(cells, done, c, n);
    }
  }

  lemma {:induction false} AllDone(cells: seq<Cell>, done: set<Id>)
    requires done == IdSet(cells)
    ensures AllWithin(cells, done, 0) && WritersLeft(cells, done) == {}
  {
  }

  lemma {:induction false} DepthNeeded(cells: seq<Cell>, done: set<Id>, rounds: nat)
    requires UniqueIds(cells) && Progress(cells, done, rounds) == IdSet(cells)
    ensures AllWithin(cells, done, rounds)
    decreases rounds
  {
    if rounds == 0 {
      AllDone(cells, done);
    } else {
      DepthNeeded(cells, NextDone(cells, done), rounds - 1);
      DepthShrinksByOneAtMost(cells, done, rounds - 1);
    }
  }

  lemma {:induction false} WritersNeeded(cells: seq<Cell>, done: set<Id>, rounds: nat)
    requires UniqueIds(cells) && Progress(cells, done, rounds) == IdSet(cells)
    ensures |WritersLeft(cells, done)| <= rounds
    decreases rounds
  {
    if rounds == 0 {
      AllDone(cells, done);
    } else {
      WritersNeeded(cells, NextDone(cells, done), rounds - 1);
      OneWriterARound(cells, done);
    }
  }

  /** A run that completes everything in `rounds` rounds had chains and writers for no more than that. */
  lemma {:induction false} RoundsNeeded(cells: seq<Cell>, rounds: nat)
    requires UniqueIds(cells) && Progress(cells, {}, rounds) == IdSet(cells)
    ensures |V.MutatingCells(cells)| <= rounds
    ensures forall p :: IsChain(cells, p) ==> |p| <= rounds
  {
    WritersNeeded(cells, {}, rounds);
    WritersAreMutatingCells(cells);
    DepthNeeded(cells, {}, rounds);
    DepthIsLongestChain(cells, rounds);
  }

  /** With at most one writer the bound is exact: a graph finishes if and only if its longest chain fits. */
  lemma {:induction false} OneWriterIsExact(cells: seq<Cell>, rounds: nat)
    requires Layered(cells) && |V.MutatingCells(cells)| <= 1
    ensures Progress(cells, {}, rounds) == IdSet(cells) <==> forall p :: IsChain(cells, p) ==> |p| <= rounds
  {
    DepthIsLongestChain(cells, rounds);
    WritersAreMutatingCells(cells);
    if AllWithin(cells, {}, rounds) {
      RoundsSuffice(cells, {}, rounds, rounds);
    }
    if Progress(cells, {}, rounds) == IdSet(cells) {
      DepthNeeded(cells, {}, rounds);
    }
  }

  lemma {:induction false} WritersAreMutatingCells(cells: seq<Cell>)
    requires UniqueIds(cells)
    ensures |WritersLeft(cells, {})| == |V.MutatingCells(cells)|
  {
    if cells == [] {
      assert WritersLeft(cells, {}) == {};
    } else {
      WritersAreMutatingCells(cells[..|cells| - 1]);
      LastWriter(cells);
    }
  }

  lemma {:induction false} LastWriter(cells: seq<Cell>)
    requires UniqueIds(cells) && cells != []
    ensures var last := cells[|cells| - 1];
            |WritersLeft(cells, {})| == |WritersLeft(cells[..|cells| - 1], {})| + if last.mode.Mutating? then 1 else 0
  {
    var front, last := cells[..|cells| - 1], cells[|cells| - 1];
    var before := WritersLeft(front, {});
    forall c | c in front ensures c.id != last.id && c in cells {
      var i :| 0 <= i < |front| && front[i] == c;
      assert cells[i] == c;
    }
    forall c | c in cells && c != last ensures c in front {
      var i :| 0 <= i < |cells| && cells[i] == c;
      assert front[i] == c;
    }
    assert WritersLeft(cells, {}) == before + if last.mode.Mutating? then {last.id} else {};
  }

  /**
   * Accepted graphs within the bound finish, from any progress that a resumed run starts with.
   * `maxWaves + 1` is the number of rounds a run allows.
   */
  lemma {:induction false} AcceptedGraphFinishes(g: Graph, runBudget: Option<Budget>, maxWaves: nat, init: set<Id>,
                                                 depth: nat)
    requires V.Accepted(g, runBudget, Some(maxWaves)) && init <= IdSet(g.cells)
    requires forall p :: IsChain(g.cells, p) ==> |p| <= depth
    requires depth + Max(0, |V.MutatingCells(g.cells)| - 1) <= maxWaves + 1
    ensures Progress(g.cells, init, maxWaves + 1) == IdSet(g.cells)
  {
    AcceptedIsLayered(g, runBudget, Some(maxWaves));
    ShortChainsFinish(g.cells, maxWaves + 1, init, depth);
  }

  lemma {:induction false} ShortChainsFinish(cells: seq<Cell>, rounds: nat, init: set<Id>, depth: nat)
    requires Layered(cells) && init <= IdSet(cells)
    requires forall p :: IsChain(cells, p) ==> |p| <= depth
    requires depth + Max(0, |V.MutatingCells(cells)| - 1) <= rounds
    ensures Progress(cells, init, rounds) == IdSet(cells)
  {
    DepthIsLongestChain(cells, depth);
    WritersAreMutatingCells(cells);
    WritersOnlyLeave(cells, {}, init);
    AllWithinGrows(cells, {}, init, depth);
    RoundsSuffice(cells, init, depth, rounds);
  }

  /** Validation already bounds the writers, so every accepted graph of depth two finishes. */
  lemma {:induction false} ShallowGraphFinishes(g: Graph, runBudget: Option<Budget>, maxWaves: nat, init: set<Id>)
    requires V.Accepted(g, runBudget, Some(maxWaves)) && init <= IdSet(g.cells) && maxWaves >= 1
    requires forall p :: IsChain(g.cells, p) ==> |p| <= 2
    ensures Progress(g.cells, init, maxWaves + 1) == IdSet(g.cells)
  {
    assert !V.Fault(g, runBudget, Some(maxWaves), V.TooManyMutating);
    AcceptedGraphFinishes(g, runBudget, maxWaves, init, 2);
  }

  /** An accepted graph with a longer chain than there are rounds cannot finish. */
  lemma {:induction false} LongChainNeverFinishes(g: Graph, runBudget: Option<Budget>, maxWaves: nat, p: seq<Cell>)
    requires V.Accepted(g, runBudget, Some(maxWaves))
    requires IsChain(g.cells, p) && |p| > maxWaves + 1
    ensures Progress(g.cells, {}, maxWaves + 1) != IdSet(g.cells)
  {
    AcceptedIsLayered(g, runBudget, Some(maxWaves));
    if Progress(g.cells, {}, maxWaves + 1) == IdSet(g.cells) {
      RoundsNeeded(g.cells, maxWaves + 1);
    }
  }

  /** While cells remain, some cell is ready: an accepted graph never deadlocks. */
  lemma {:induction false} NeverStuck(cells: seq<Cell>, done: set<Id>, c: Cell)
    requires Layered(cells) && c in cells && c.id !in done
    ensures ReadyList(cells, done, {}, true) != []
    decreases c.wave
  {
    if dep :| dep in c.dependencies && dep !in done {
      assert dep in IdSet(cells);
      var d :| d in cells && d.id == dep;
      NeverStuck(cells, done, d);
    } else {
      EligibleAreServed(cells, done, {}, true, c);
    }
  }

  // Acceptance alone does not mean that the rounds suffice.

  function ChainCell(name: string, wave: nat, mode: CellMode, dependencies: seq<Id>): Cell {
    Cell(Id(name), name, wave, mode, Contract("c", 1, "", UNLIMITED, []), Pending, dependencies, [])
  }

  function ThreeChain(): Graph {
    Graph([ChainCell("a", 0, ReadOnly, []), ChainCell("b", 1, ReadOnly, [Id("a")]),
      ChainCell("c", 2, Mutating, [Id("b")])],
          [Edge(Id("a"), Id("b"), Blocks), Edge(Id("b"), Id("c"), Blocks)], [], 2)
  }

  lemma {:induction false} ThreeChainArcs()
    ensures var g := ThreeChain();
            IdSet(g.cells) == {Id("a"), Id("b"), Id("c")} &&
            V.DependencyArcs(g.cells, IdSet(g.cells)) == [(Id("a"), Id("b")), (Id("b"), Id("c"))]
  {
    var g := ThreeChain();
    var a, b, c := g.cells[0], g.cells[1], g.cells[2];
    var known := IdSet(g.cells);
    assert known == {a.id, b.id, c.id};
    NoArcsInto(a, known);
    OneArcInto(b, a.id, known);
    OneArcInto(c, b.id, known);
    assert g.cells[..2] == [a, b] && [a, b][..1] == [a] && [a][..0] == [];
    assert V.DependencyArcs([a], known) == [];
    assert V.DependencyArcs([a, b], known) == [(a.id, b.id)];
  }

  lemma {:induction false} NoArcsInto(c: Cell, known: set<Id>)
    requires c.dependencies == []
    ensures V.ArcsInto(c.dependencies, c.id, known) == []
  {
  }

  lemma {:induction false} OneArcInto(c: Cell, dep: Id, known: set<Id>)
    requires c.dependencies == [dep] && dep in known
    ensures V.ArcsInto(c.dependencies, c.id, known) == [(dep, c.id)]
  {
    assert [dep][..0] == [];
  }

  lemma {:induction false} ThreeChainTable()
    ensures var cells := ThreeChain().cells;
            var table := V.ById(cells);
            table[cells[0].id] == cells[0] && table[cells[1].id] == cells[1]
  {
    var cells := ThreeChain().cells;
    assert UniqueIds(cells);
    V.UniqueIdsGiveCell(cells, cells[0]);
    V.UniqueIdsGiveCell(cells, cells[1]);
  }

  lemma {:induction false} ThreeChainHighest()
    ensures UniqueIds(ThreeChain().cells) && V.HighestWave(ThreeChain().cells) == 2
  {
    var cells := ThreeChain().cells;
    assert cells[2] in cells;
  }

  lemma {:induction false} ThreeChainWaves()
    ensures V.WavesOrdered(ThreeChain().cells)
  {
    var cells := ThreeChain().cells;
    ThreeChainTable();
    assert cells == [cells[0], cells[1], cells[2]];
    var table := V.ById(cells);
    forall c, dep | c in cells && dep in c.dependencies && dep in table ensures table[dep].wave < c.wave {
      assert c == cells[1] ==> dep == cells[0].id;
      assert c == cells[2] ==> dep == cells[1].id;
    }
  }

  lemma {:induction false} ThreeChainHasNoHeaderFault(e: V.GraphError)
    requires V.HeaderError(e)
    ensures !V.HeaderFault(ThreeChain(), e)
  {
    ThreeChainHighest();
  }

  lemma {:induction false} ThreeChainHasNoCellFault(e: V.GraphError)
    requires V.CellError(e)
    ensures !V.SomeCellFault(ThreeChain().cells, e)
  {
    ThreeChainWaves();
    ThreeChainArcs();
    var cells := ThreeChain().cells;
    forall c | c in cells ensures !V.CellFault(cells, c, e) {
      SoundCell(cells, c, e);
    }
  }

  /** A cell without criteria, with at most one dependency, on another cell of the graph. */
  lemma {:induction false} SoundCell(cells: seq<Cell>, c: Cell, e: V.GraphError)
    requires V.WavesOrdered(cells) && c in cells && c.criterionIndices == [] && |c.dependencies| <= 1
    requires forall dep :: dep in c.dependencies ==> dep in IdSet(cells) && dep != c.id
    ensures !V.CellFault(cells, c, e)
  {
  }

  lemma {:induction false} ThreeChainHasNoEdgeFault(e: V.GraphError)
    requires V.EdgeError(e)
    ensures !V.EdgeFault(ThreeChain(), e)
  {
    ThreeChainArcs();
    var g := ThreeChain();
    var ab, bc := g.edges[0], g.edges[1];
    assert V.Blocking(g.edges) == {(ab.source, ab.target), (bc.source, bc.target)};
    assert V.ArcSet(V.DependencyArcs(g.cells, IdSet(g.cells))) == {(Id("a"), Id("b")), (Id("b"), Id("c"))};
  }

  lemma {:induction false} ThreeChainHasOneWriter()
    ensures V.MutatingCells(ThreeChain().cells) == [ThreeChain().cells[2]] && V.TokenLimits(ThreeChain().cells) == []
    ensures V.CostLimits(ThreeChain().cells) == []
  {
    var cells := ThreeChain().cells;
    assert cells[..2][..1] == cells[..1] && cells[..1][..0] == [];
    assert V.MutatingCells(cells[..1]) == [];
    assert V.MutatingCells(cells[..2]) == [];
    assert V.TokenLimits(cells[..1]) == [];
    assert V.TokenLimits(cells[..2]) == [];
    assert V.CostLimits(cells[..1]) == [];
    assert V.CostLimits(cells[..2]) == [];
  }

  lemma {:induction false} ThreeChainIsAccepted(e: V.GraphError)
    ensures !V.Fault(ThreeChain(), None, Some(1), e)
  {
    if V.HeaderError(e) {
      ThreeChainHasNoHeaderFault(e);
    } else if V.CellError(e) {
      ThreeChainHasNoCellFault(e);
    } else if V.EdgeError(e) {
      ThreeChainHasNoEdgeFault(e);
    } else if e.Cycle? {
      ThreeChainHighest();
      ThreeChainWaves();
      V.EarlierWavesExcludeCycles(ThreeChain().cells);
    } else {
      ThreeChainHasOneWriter();
    }
  }

  /** Validation lets through a graph of three dependent cells for a run of two rounds, which cannot finish it. */
  lemma {:induction false} AcceptedGraphCanBeTooDeep()
    ensures exists g, maxWaves: nat :: V.Accepted(g, None, Some(maxWaves)) &&
              Progress(g.cells, {}, maxWaves + 1) != IdSet(g.cells)
  {
    var g, maxWaves: nat := ThreeChain(), 1;
    forall e ensures !V.Fault(g, None, Some(maxWaves), e) {
      ThreeChainIsAccepted(e);
    }
    assert IsChain(g.cells, g.cells);
    LongChainNeverFinishes(g, None, maxWaves, g.cells);
  }
}
