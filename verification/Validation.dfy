/** Validation of an execution graph before it may run. */
module Validation {
  import opened Domain
  import opened Digraph

  const MAX_TOTAL_TOKEN_BUDGET: nat := 10_000_000
  const MAX_TOTAL_COST_USD: real := 100.0

  datatype GraphError =
    | NoCells
    | DuplicateIds
    | DuplicateMilestones
    | UnknownMilestone(id: Id)
    | HorizonMismatch
    | DuplicateDependencies(id: Id)
    | DuplicateCriteria(id: Id)
    | InvalidCriteria(id: Id)
    | SelfDependency(id: Id)
    | UnknownDependency(id: Id, dependency: Id)
    | NotInEarlierWave(dependency: Id, id: Id)
    | DuplicateEdges
    | UnknownEndpoint(source: Id, target: Id)
    | BlockingMismatch
    | Cycle
    | UnlimitedTokens
    | UnlimitedCost
    | TokenCapExceeded
    | CostCapExceeded
    | CrowdedWave(wave: nat)
    | TooManyMutating

  // What each error means, independently of how it is found.

  /** The cell that the id dictionary holds for an id: the last one declared with it. */
  function ById(cells: seq<Cell>): (m: map<Id, Cell>)
    ensures m.Keys == IdSet(cells)
    ensures forall id :: id in m ==> m[id] in cells && m[id].id == id
  {
    if cells == [] then map[]
    else
      var last := cells[|cells| - 1];
      assert cells == cells[..|cells| - 1] + [last];
      assert IdSet(cells) == IdSet(cells[..|cells| - 1]) + {last.id};
      ById(cells[..|cells| - 1])[last.id := last]
  }

  lemma {:induction false} ByIdSnoc(front: seq<Cell>, last: Cell)
    ensures ById(front + [last]) == ById(front)[last.id := last]
  {
    assert (front + [last])[..|front|] == front;
  }

  /** Of several cells with one id, the last counts. */
  lemma {:induction false} ByIdIsLast(cells: seq<Cell>, i: nat)
    requires i < |cells| && forall j :: i < j < |cells| ==> cells[j].id != cells[i].id
    ensures cells[i].id in ById(cells) && ById(cells)[cells[i].id] == cells[i]
  {
    var front, last := cells[..|cells| - 1], cells[|cells| - 1];
    assert cells == front + [last];
    ByIdSnoc(front, last);
    if i < |front| {
      assert front[i] == cells[i];
      ByIdIsLast(front, i);
    }
  }

  function HighestWave(cells: seq<Cell>): (w: nat)
    ensures forall c :: c in cells ==> c.wave <= w
    ensures cells != [] ==> exists c :: c in cells && c.wave == w
  {
    if cells == [] then 0
    else
      var front, last := cells[..|cells| - 1], cells[|cells| - 1];
      assert cells == front + [last];
      if front == [] || HighestWave(front) < last.wave then
        assert last in cells;
        last.wave
      else
        HighestWave(front)
  }

  /** The known dependencies of one cell, as arcs into it. */
  function ArcsInto(dependencies: seq<Id>, id: Id, known: set<Id>): seq<Arc<Id>> {
    if dependencies == [] then []
    else
      var last := dependencies[|dependencies| - 1];
      ArcsInto(dependencies[..|dependencies| - 1], id, known) + (if last in known then [(last, id)] else [])
  }

  /** The known-dependency relation of a graph, one arc for each declaration. */
  function DependencyArcs(cells: seq<Cell>, known: set<Id>): seq<Arc<Id>> {
    if cells == [] then []
    else
      var last := cells[|cells| - 1];
      DependencyArcs(cells[..|cells| - 1], known) + ArcsInto(last.dependencies, last.id, known)
  }

  function MutatingCells(cells: seq<Cell>): seq<Cell> {
    if cells == [] then []
    else MutatingCells(cells[..|cells| - 1]) +
         (if cells[|cells| - 1].mode.Mutating? then [cells[|cells| - 1]] else [])
  }

  function TokenLimits(cells: seq<Cell>): (limits: seq<nat>)
    ensures |limits| <= |cells|
    ensures |limits| == |cells| <==> forall c :: c in cells ==> c.contract.budget.tokenLimit.Some?
  {
    if cells == [] then []
    else
      var last := cells[|cells| - 1];
      assert cells == cells[..|cells| - 1] + [last];
      TokenLimits(cells[..|cells| - 1]) +
      (match last.contract.budget.tokenLimit case Some(n) => [n] case None => [])
  }

  function CostLimits(cells: seq<Cell>): (limits: seq<real>)
    ensures |limits| <= |cells|
    ensures |limits| == |cells| <==> forall c :: c in cells ==> c.contract.budget.costLimit.Some?
  {
    if cells == [] then []
    else
      var last := cells[|cells| - 1];
      assert cells == cells[..|cells| - 1] + [last];
      CostLimits(cells[..|cells| - 1]) +
      (match last.contract.budget.costLimit case Some(r) => [r] case None => [])
  }

  function Blocking(edges: seq<Edge>): set<Arc<Id>> {
    set e | e in edges && e.kind == Blocks :: (e.source, e.target)
  }

  function ArcSet(arcs: seq<Arc<Id>>): set<Arc<Id>> { set a | a in arcs }

  predicate InRange(index: int, criteria: seq<Criterion>) { 0 <= index < |criteria| }

  /** An error that one cell of the graph causes by itself or through its dependencies. */
  predicate CellFault(cells: seq<Cell>, c: Cell, e: GraphError) {
    match e
    case DuplicateDependencies(id) => id == c.id && !Distinct(c.dependencies)
    case DuplicateCriteria(id) => id == c.id && !Distinct(c.criterionIndices)
    case InvalidCriteria(id) =>
      id == c.id && exists k :: k in c.criterionIndices && (k < 0 || k >= |c.contract.criteria|)
    case SelfDependency(id) => id == c.id && c.id in c.dependencies
    case UnknownDependency(id, dep) => id == c.id && dep in c.dependencies && dep !in IdSet(cells)
    case NotInEarlierWave(dep, id) =>
      id == c.id && dep in c.dependencies && dep in IdSet(cells) && ById(cells)[dep].wave >= c.wave
    case _ => false
  }

  ghost predicate HeaderFault(g: Graph, e: GraphError) {
    match e
    case NoCells => g.cells == []
    case DuplicateIds => !UniqueIds(g.cells)
    case DuplicateMilestones => !Distinct(g.milestones)
    case UnknownMilestone(id) => id in g.milestones && id !in IdSet(g.cells)
    case HorizonMismatch => g.cells != [] && g.horizon != HighestWave(g.cells)
    case _ => false
  }

  ghost predicate SomeCellFault(cells: seq<Cell>, e: GraphError) {
    exists c :: c in cells && CellFault(cells, c, e)
  }

  predicate DanglingEdge(cells: seq<Cell>, d: Edge) { !(d.source in IdSet(cells) && d.target in IdSet(cells)) }

  ghost predicate EdgeFault(g: Graph, e: GraphError) {
    match e
    case DuplicateEdges => !Distinct(g.edges)
    case UnknownEndpoint(s, t) =>
      exists d :: d in g.edges && d.source == s && d.target == t && DanglingEdge(g.cells, d)
    case BlockingMismatch => Blocking(g.edges) != ArcSet(DependencyArcs(g.cells, IdSet(g.cells)))
    case _ => false
  }

  ghost predicate CycleFault(cells: seq<Cell>) {
    !UniqueIds(cells) || HasCycle(DependencyArcs(cells, IdSet(cells)))
  }

  ghost predicate BudgetFault(cells: seq<Cell>, runBudget: Option<Budget>, e: GraphError) {
    match e
    case UnlimitedTokens =>
      runBudget.Some? && runBudget.value.tokenLimit.Some? && |TokenLimits(cells)| != |cells|
    case UnlimitedCost =>
      runBudget.Some? && runBudget.value.costLimit.Some? && |CostLimits(cells)| != |cells|
    case TokenCapExceeded =>
      |TokenLimits(cells)| == |cells| && SumNats(TokenLimits(cells)) > 10_000_000
    case CostCapExceeded =>
      |CostLimits(cells)| == |cells| && SumReals(CostLimits(cells)) > 100.0
    case _ => false
  }

  /** When each error applies to a graph. `runBudget` and `maxWaves` are the optional limits of the run. */
  ghost predicate Fault(g: Graph, runBudget: Option<Budget>, maxWaves: Option<nat>, e: GraphError) {
    if HeaderError(e) then HeaderFault(g, e)
    else if CellError(e) then SomeCellFault(g.cells, e)
    else if EdgeError(e) then EdgeFault(g, e)
    else if BudgetError(e) then BudgetFault(g.cells, runBudget, e)
    else if e.Cycle? then CycleFault(g.cells)
    else if e.CrowdedWave? then CrowdedBefore(g.cells, |g.cells|, e.wave)
    else maxWaves.Some? && |MutatingCells(g.cells)| > maxWaves.value
  }

  /** A graph that validation lets through. */
  ghost predicate Accepted(g: Graph, runBudget: Option<Budget>, maxWaves: Option<nat>) {
    forall e :: !Fault(g, runBudget, maxWaves, e)
  }

  predicate HeaderError(e: GraphError) {
    e.NoCells? || e.DuplicateIds? || e.DuplicateMilestones? || e.UnknownMilestone? || e.HorizonMismatch?
  }

  predicate CellError(e: GraphError) {
    e.DuplicateDependencies? || e.DuplicateCriteria? || e.InvalidCriteria? || e.SelfDependency? ||
    e.UnknownDependency? || e.NotInEarlierWave?
  }

  predicate EdgeError(e: GraphError) { e.DuplicateEdges? || e.UnknownEndpoint? || e.BlockingMismatch? }

  predicate BudgetError(e: GraphError) {
    e.UnlimitedTokens? || e.UnlimitedCost? || e.TokenCapExceeded? || e.CostCapExceeded?
  }

  // The validator. Its errors are compared as a set: order and wording are not part of the model.

  method Validate(g: Graph, runBudget: Option<Budget>, maxWaves: Option<nat>) returns (errors: seq<GraphError>)
    ensures forall e :: e in errors <==> Fault(g, runBudget, maxWaves, e)
  {
    var header := HeaderErrors(g);
    var cellErrors := CellErrors(g);
    var edgeErrors := EdgeErrors(g);
    var cycleErrors := CycleErrors(g);
    var budget := BudgetErrors(g, runBudget);
    var crowded := ConcurrencyErrors(g);
    var waves := WaveBudgetErrors(g, maxWaves);
    errors := header + cellErrors + edgeErrors + cycleErrors + budget + crowded + waves;
  }

  method HeaderErrors(g: Graph) returns (errors: seq<GraphError>)
    ensures forall e :: e in errors <==> HeaderError(e) && HeaderFault(g, e)
  {
    errors := [];
    var ids := IdSet(g.cells);
    if g.cells == [] {
      errors := errors + [NoCells];
    }
    UniqueIffSizesAgree(g.cells);
    if |ids| != |g.cells| {
      errors := errors + [DuplicateIds];
    }
    DistinctIffSetSize(g.milestones);
    if |set m | m in g.milestones| != |g.milestones| {
      errors := errors + [DuplicateMilestones];
    }
    if g.cells != [] && g.horizon != HighestWave(g.cells) {
      errors := errors + [HorizonMismatch];
    }
    ghost var earlier := errors;
    for i := 0 to |g.milestones|
      invariant forall e :: e in errors <==>
        e in earlier || (e.UnknownMilestone? && e.id in g.milestones[..i] && e.id !in ids)
    {
      assert g.milestones[..i + 1] == g.milestones[..i] + [g.milestones[i]];
      if g.milestones[i] !in ids {
        errors := errors + [UnknownMilestone(g.milestones[i])];
      }
    }
    assert g.milestones[..|g.milestones|] == g.milestones;
  }

  lemma {:induction false} UniqueIffSizesAgree(cells: seq<Cell>)
    ensures |IdSet(cells)| <= |cells|
    ensures |IdSet(cells)| == |cells| <==> UniqueIds(cells)
  {
    var ids := Ids(cells);
    DistinctIffSetSize(ids);
    assert IdSet(cells) == set x | x in ids by {
      forall x | x in IdSet(cells) ensures x in ids {
        var c :| c in cells && c.id == x;
        var i :| 0 <= i < |cells| && cells[i] == c;
        assert ids[i] == x;
      }
      forall x | x in ids ensures x in IdSet(cells) {
        var i :| 0 <= i < |ids| && ids[i] == x;
        assert cells[i] in cells;
      }
    }
    assert Distinct(ids) <==> UniqueIds(cells);
  }

  method CellErrors(g: Graph) returns (errors: seq<GraphError>)
    ensures forall e :: e in errors <==> CellError(e) && SomeCellFault(g.cells, e)
  {
    errors := [];
    for i := 0 to |g.cells|
      invariant forall e :: e in errors <==> SomeCellFaultBefore(g.cells, i, e)
    {
      var more := ErrorsOfCell(g.cells, g.cells[i]);
      errors := errors + more;
    }
  }

  ghost predicate SomeCellFaultBefore(cells: seq<Cell>, n: nat, e: GraphError)
    requires n <= |cells|
  {
    exists j :: 0 <= j < n && CellFault(cells, cells[j], e)
  }

  method ErrorsOfCell(cells: seq<Cell>, c: Cell) returns (errors: seq<GraphError>)
    ensures forall e :: e in errors <==> CellFault(cells, c, e)
  {
    errors := [];
    DistinctIffSetSize(c.dependencies);
    DistinctIffSetSize(c.criterionIndices);
    if |set d | d in c.dependencies| != |c.dependencies| {
      errors := errors + [DuplicateDependencies(c.id)];
    }
    if |set k | k in c.criterionIndices| != |c.criterionIndices| {
      errors := errors + [DuplicateCriteria(c.id)];
    }
    if exists k | k in c.criterionIndices :: !InRange(k, c.contract.criteria) {
      errors := errors + [InvalidCriteria(c.id)];
    }
    var more := ErrorsOfDependencies(cells, c);
    errors := errors + more;
  }

  /** An error that one dependency entry causes. */
  predicate DependencyFault(cells: seq<Cell>, c: Cell, dependency: Id, e: GraphError) {
    match e
    case SelfDependency(id) => id == c.id == dependency
    case UnknownDependency(id, dep) => id == c.id && dep == dependency && dep !in ById(cells)
    case NotInEarlierWave(dep, id) =>
      id == c.id && dep == dependency && dep in ById(cells) && ById(cells)[dep].wave >= c.wave
    case _ => false
  }

  method ErrorsOfDependencies(cells: seq<Cell>, c: Cell) returns (errors: seq<GraphError>)
    ensures forall e :: e in errors <==>
      (e.SelfDependency? || e.UnknownDependency? || e.NotInEarlierWave?) && CellFault(cells, c, e)
  {
    errors := [];
    var cellsById := ById(cells);
    for j := 0 to |c.dependencies|
      invariant forall e :: e in errors <==> exists d :: d in c.dependencies[..j] && DependencyFault(cells, c, d, e)
    {
      var dependency := c.dependencies[j];
      assert c.dependencies[..j + 1] == c.dependencies[..j] + [dependency];
      ghost var before := errors;
      ghost var found := [];
      if dependency == c.id {
        errors, found := errors + [SelfDependency(c.id)], found + [SelfDependency(c.id)];
      }
      if dependency !in cellsById {
        errors, found := errors + [UnknownDependency(c.id, dependency)], found + [UnknownDependency(c.id, dependency)];
      } else if cellsById[dependency].wave >= c.wave {
        errors, found := errors + [NotInEarlierWave(dependency, c.id)], found + [NotInEarlierWave(dependency, c.id)];
      }
      assert forall e :: e in found <==> DependencyFault(cells, c, dependency, e);
      assert errors == before + found;
    }
    assert c.dependencies[..|c.dependencies|] == c.dependencies;
    forall e ensures (exists d :: d in c.dependencies && DependencyFault(cells, c, d, e)) <==>
                     (e.SelfDependency? || e.UnknownDependency? || e.NotInEarlierWave?) && CellFault(cells, c, e) {
      match e
      case SelfDependency(id) => assert DependencyFault(cells, c, id, e) <==> id == c.id;
      case UnknownDependency(id, dep) =>
      case NotInEarlierWave(dep, id) =>
      case _ =>
    }
  }

  method EdgeErrors(g: Graph) returns (errors: seq<GraphError>)
    ensures forall e :: e in errors <==> EdgeError(e) && EdgeFault(g, e)
  {
    errors := [];
    var ids := IdSet(g.cells);
    DistinctIffSetSize(g.edges);
    if |set d | d in g.edges| != |g.edges| {
      errors := errors + [DuplicateEdges];
    }
    if Blocking(g.edges) != ArcSet(DependencyArcs(g.cells, ids)) {
      errors := errors + [BlockingMismatch];
    }
    ghost var earlier := errors;
    for i := 0 to |g.edges|
      invariant forall e :: e in errors <==>
        e in earlier ||
        (e.UnknownEndpoint? && exists d :: d in g.edges[..i] && d.source == e.source && d.target == e.target &&
                                           DanglingEdge(g.cells, d))
    {
      var edge := g.edges[i];
      assert g.edges[..i + 1] == g.edges[..i] + [edge];
      if edge.source !in ids || edge.target !in ids {
        errors := errors + [UnknownEndpoint(edge.source, edge.target)];
      }
    }
    assert g.edges[..|g.edges|] == g.edges;
  }

  // Cycle detection: fill the dictionaries, then run Kahn's loop.

  lemma {:induction false} ArcsIntoAre(dependencies: seq<Id>, id: Id, known: set<Id>, a: Arc<Id>)
    ensures a in ArcsInto(dependencies, id, known) <==> a.0 in dependencies && a.0 in known && a.1 == id
  {
    if dependencies != [] {
      var front := dependencies[..|dependencies| - 1];
      ArcsIntoAre(front, id, known, a);
      assert dependencies == front + [dependencies[|dependencies| - 1]];
    }
  }

  lemma {:induction false} DependencyArcsAre(cells: seq<Cell>, known: set<Id>, a: Arc<Id>)
    ensures a in DependencyArcs(cells, known) <==>
            a.0 in known && exists c :: c in cells && c.id == a.1 && a.0 in c.dependencies
  {
    if cells != [] {
      var front, last := cells[..|cells| - 1], cells[|cells| - 1];
      DependencyArcsAre(front, known, a);
      ArcsIntoAre(last.dependencies, last.id, known, a);
      assert cells == front + [last];
    }
  }

  ghost predicate TabulatesSoFar(known: set<Id>, arcs: seq<Arc<Id>>, adj: map<Id, seq<Id>>, inDegree: map<Id, int>) {
    && adj.Keys == inDegree.Keys == known
    && (forall n :: n in known ==> adj[n] == Targets(arcs, n))
    && (forall n :: n in known ==> inDegree[n] == Waiting(arcs, {}, n))
  }

  method Tabulate(cells: seq<Cell>) returns (ids: seq<Id>, adj: map<Id, seq<Id>>, inDegree: map<Id, int>)
    ensures Distinct(ids) && Elems(ids) == IdSet(cells)
    ensures Tabulates(IdSet(cells), DependencyArcs(cells, IdSet(cells)), adj, inDegree)
  {
    ids := DistinctIds(cells);
    var known := IdSet(cells);
    adj := map id | id in known :: [];
    inDegree := map id | id in known :: 0;
    for i := 0 to |cells|
      invariant TabulatesSoFar(known, DependencyArcs(cells[..i], known), adj, inDegree)
    {
      assert cells[i].id in known;
      adj, inDegree := TabulateCell(cells[i], known, DependencyArcs(cells[..i], known), adj, inDegree);
      assert cells[..i + 1][..i] == cells[..i];
    }
    assert cells[..|cells|] == cells;
    forall a | a in DependencyArcs(cells, known) ensures a.0 in known && a.1 in known {
      DependencyArcsAre(cells, known, a);
    }
  }

  method TabulateArc(from: Id, to: Id, ghost known: set<Id>, ghost before: seq<Arc<Id>>,
                     adj0: map<Id, seq<Id>>, inDegree0: map<Id, int>)
    returns (adj: map<Id, seq<Id>>, inDegree: map<Id, int>)
    requires from in known && to in known && TabulatesSoFar(known, before, adj0, inDegree0)
    ensures TabulatesSoFar(known, before + [(from, to)], adj, inDegree)
  {
    adj := adj0[from := adj0[from] + [to]];
    inDegree := inDegree0[to := inDegree0[to] + 1];
    assert (before + [(from, to)])[..|before|] == before;
  }

  lemma {:induction false} ArcsIntoSnoc(front: seq<Id>, last: Id, id: Id, known: set<Id>)
    ensures ArcsInto(front + [last], id, known) ==
            ArcsInto(front, id, known) + if last in known then [(last, id)] else []
  {
    assert (front + [last])[..|front|] == front;
  }

  method TabulateCell(cell: Cell, known: set<Id>, ghost before: seq<Arc<Id>>,
                      adj0: map<Id, seq<Id>>, inDegree0: map<Id, int>)
    returns (adj: map<Id, seq<Id>>, inDegree: map<Id, int>)
    requires cell.id in known && TabulatesSoFar(known, before, adj0, inDegree0)
    ensures TabulatesSoFar(known, before + ArcsInto(cell.dependencies, cell.id, known), adj, inDegree)
  {
    adj, inDegree := adj0, inDegree0;
    ghost var arcs := before;
    assert before + ArcsInto(cell.dependencies[..0], cell.id, known) == before;
    for j := 0 to |cell.dependencies|
      invariant arcs == before + ArcsInto(cell.dependencies[..j], cell.id, known)
      invariant TabulatesSoFar(known, arcs, adj, inDegree)
    {
      var dependency := cell.dependencies[j];
      assert cell.dependencies[..j + 1] == cell.dependencies[..j] + [dependency];
      ArcsIntoSnoc(cell.dependencies[..j], dependency, cell.id, known);
      if dependency !in known {
        continue;
      }
      adj, inDegree := TabulateArc(dependency, cell.id, known, arcs, adj, inDegree);
      arcs := arcs + [(dependency, cell.id)];
    }
    assert cell.dependencies[..|cell.dependencies|] == cell.dependencies;
  }

  method DistinctIds(cells: seq<Cell>) returns (ids: seq<Id>)
    ensures Distinct(ids) && Elems(ids) == IdSet(cells)
  {
    ids := [];
    for i := 0 to |cells|
      invariant Distinct(ids) && Elems(ids) == IdSet(cells[..i])
    {
      assert cells[..i + 1] == cells[..i] + [cells[i]];
      assert IdSet(cells[..i + 1]) == IdSet(cells[..i]) + {cells[i].id};
      ghost var before := ids;
      if cells[i].id !in ids {
        ids := ids + [cells[i].id];
        assert Elems(ids) == Elems(before) + {cells[i].id};
      } else {
        assert cells[i].id in Elems(ids);
      }
    }
    assert cells[..|cells|] == cells;
  }

  method CycleErrors(g: Graph) returns (errors: seq<GraphError>)
    ensures forall e :: e in errors <==> e.Cycle? && CycleFault(g.cells)
  {
    var ids, adj, inDegree := Tabulate(g.cells);
    ghost var nodes, arcs := IdSet(g.cells), DependencyArcs(g.cells, IdSet(g.cells));
    var visited, order := KahnOrder(nodes, arcs, ids, adj, inDegree);
    UniqueIffSizesAgree(g.cells);
    errors := if visited != |g.cells| then [Cycle] else [];
  }

  method BudgetErrors(g: Graph, runBudget: Option<Budget>) returns (errors: seq<GraphError>)
    ensures forall e :: e in errors <==> BudgetError(e) && BudgetFault(g.cells, runBudget, e)
  {
    errors := [];
    var tokens := TokenLimits(g.cells);
    if |tokens| != |g.cells| {
      if runBudget.Some? && runBudget.value.tokenLimit.Some? {
        errors := errors + [UnlimitedTokens];
      }
    } else if SumNats(tokens) > MAX_TOTAL_TOKEN_BUDGET {
      errors := errors + [TokenCapExceeded];
    }
    var costs := CostLimits(g.cells);
    if |costs| != |g.cells| {
      if runBudget.Some? && runBudget.value.costLimit.Some? {
        errors := errors + [UnlimitedCost];
      }
    } else if SumReals(costs) > MAX_TOTAL_COST_USD {
      errors := errors + [CostCapExceeded];
    }
  }

  method ConcurrencyErrors(g: Graph) returns (errors: seq<GraphError>)
    ensures forall e :: e in errors <==> e.CrowdedWave? && CrowdedBefore(g.cells, |g.cells|, e.wave)
  {
    var taken: set<nat> := {};
    errors := [];
    for i := 0 to |g.cells|
      invariant forall w :: w in taken <==> TakenBefore(g.cells, i, w)
      invariant forall e :: e in errors <==> e.CrowdedWave? && CrowdedBefore(g.cells, i, e.wave)
    {
      var c := g.cells[i];
      if c.mode.Mutating? {
        if c.wave in taken {
          errors := errors + [CrowdedWave(c.wave)];
        }
        taken := taken + {c.wave};
      }
      TakenAndCrowdedStep(g.cells, i);
    }
  }

  /** Some mutating cell before position `n` is in wave `w`. */
  ghost predicate TakenBefore(cells: seq<Cell>, n: nat, w: nat)
    requires n <= |cells|
  {
    exists j :: 0 <= j < n && cells[j].wave == w && cells[j].mode.Mutating?
  }

  lemma {:induction false} TakenAndCrowdedStep(cells: seq<Cell>, n: nat)
    requires n < |cells|
    ensures forall w :: TakenBefore(cells, n + 1, w) <==>
      TakenBefore(cells, n, w) || (cells[n].mode.Mutating? && cells[n].wave == w)
    ensures forall w :: CrowdedBefore(cells, n + 1, w) <==>
      CrowdedBefore(cells, n, w) || (TakenBefore(cells, n, w) && cells[n].mode.Mutating? && cells[n].wave == w)
  {
    forall w | TakenBefore(cells, n, w) && cells[n].mode.Mutating? && cells[n].wave == w
      ensures CrowdedBefore(cells, n + 1, w)
    {
      var i :| 0 <= i < n && cells[i].wave == w && cells[i].mode.Mutating?;
      assert cells[i].wave == cells[n].wave;
    }
    forall w | CrowdedBefore(cells, n + 1, w)
      ensures CrowdedBefore(cells, n, w) || (TakenBefore(cells, n, w) && cells[n].mode.Mutating? && cells[n].wave == w)
    {
      var i, j :| 0 <= i < j < n + 1 && cells[i].wave == cells[j].wave == w && cells[i].mode.Mutating? &&
        cells[j].mode.Mutating?;
      assert j == n ==> TakenBefore(cells, n, w);
    }
  }

  ghost predicate CrowdedBefore(cells: seq<Cell>, n: nat, w: nat)
    requires n <= |cells|
  {
    exists i, j :: 0 <= i < j < n && cells[i].wave == cells[j].wave == w &&
                   cells[i].mode.Mutating? && cells[j].mode.Mutating?
  }

  method WaveBudgetErrors(g: Graph, maxWaves: Option<nat>) returns (errors: seq<GraphError>)
    ensures forall e :: e in errors <==>
      e.TooManyMutating? && maxWaves.Some? && |MutatingCells(g.cells)| > maxWaves.value
  {
    if maxWaves.None? {
      return [];
    }
    if |MutatingCells(g.cells)| > maxWaves.value {
      return [TooManyMutating];
    }
    return [];
  }

  /** Every known dependency is in an earlier wave than the cell that waits for it. */
  ghost predicate WavesOrdered(cells: seq<Cell>) {
    forall c, dep :: c in cells && dep in c.dependencies && dep in ById(cells) ==> ById(cells)[dep].wave < c.wave
  }

  lemma {:induction false} NoWaveErrorOrders(g: Graph, runBudget: Option<Budget>, maxWaves: Option<nat>)
    requires forall dep, id :: !Fault(g, runBudget, maxWaves, NotInEarlierWave(dep, id))
    ensures WavesOrdered(g.cells)
  {
    forall c, dep | c in g.cells && dep in c.dependencies && dep in ById(g.cells)
      ensures ById(g.cells)[dep].wave < c.wave
    {
      var e := NotInEarlierWave(dep, c.id);
      assert !Fault(g, runBudget, maxWaves, e);
      assert !CellFault(g.cells, c, e);
    }
  }

  /** The wave check already excludes cycles: with unique ids, every dependency cycle has a wave error. */
  lemma {:induction false} EarlierWavesExcludeCycles(cells: seq<Cell>)
    requires UniqueIds(cells) && WavesOrdered(cells)
    ensures !CycleFault(cells)
  {
    var arcs := DependencyArcs(cells, IdSet(cells));
    forall p | IsWalk(arcs, p) && |p| >= 2 ensures p[0] != p[|p| - 1] {
      WavesClimb(cells, p, |p| - 1);
    }
  }

  lemma {:induction false} WavesClimb(cells: seq<Cell>, p: seq<Id>, k: nat)
    requires UniqueIds(cells) && WavesOrdered(cells)
    requires IsWalk(DependencyArcs(cells, IdSet(cells)), p) && 0 < k < |p|
    ensures p[0] in ById(cells) && p[k] in ById(cells)
    ensures ById(cells)[p[0]].wave < ById(cells)[p[k]].wave
  {
    var arc := (p[k - 1], p[k]);
    assert arc in DependencyArcs(cells, IdSet(cells));
    DependencyArcsAre(cells, IdSet(cells), arc);
    var c :| c in cells && c.id == p[k] && p[k - 1] in c.dependencies;
    UniqueIdsGiveCell(cells, c);
    if k > 1 {
      WavesClimb(cells, p, k - 1);
    }
  }

  lemma {:induction false} UniqueIdsGiveCell(cells: seq<Cell>, c: Cell)
    requires UniqueIds(cells) && c in cells
    ensures c.id in ById(cells) && ById(cells)[c.id] == c
  {
    assert c.id in IdSet(cells);
    var d := ById(cells)[c.id];
    var i :| 0 <= i < |cells| && cells[i] == c;
    var j :| 0 <= j < |cells| && cells[j] == d;
    assert i == j;
  }
}
