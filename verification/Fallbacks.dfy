/** Exactly when planning keeps the hardened graph of a proposal, and when it falls back on one cell. */
module Fallbacks {
  import opened Domain
  import opened Validation
  import opened Waves
  import opened Hardening

  /** Keeping writers apart has left every dependency in an earlier wave. */
  ghost predicate OrderKept(d: Draft)
    requires ValidDraft(d)
  {
    forall i, j :: 0 <= j < i < |d.ids| && d.ids[j] in d.deps[i] ==> d.waves[j] < d.waves[i]
  }

  /** The token limits of the cells, as split and truncated, sum to at most the cap. */
  ghost predicate TokensUnderCap(d: Draft)
    requires ValidDraft(d)
  {
    var limit := d.contract.budget.tokenLimit;
    limit.Some? ==> SumNats(TokenParts(limit.value, d.shares)) <= MAX_TOTAL_TOKEN_BUDGET
  }

  /** Their cost limits, as split and rounded, sum to at most the cap. */
  ghost predicate CostsUnderCap(d: Draft)
    requires ValidDraft(d)
  {
    var limit := d.contract.budget.costLimit;
    limit.Some? ==> SumReals(CostParts(limit.value, d.shares)) <= MAX_TOTAL_COST_USD
  }

  lemma {:induction false} LateIsFault(d: Draft, g: Graph, i: nat, j: nat)
    requires ValidDraft(d) && GraphOf(d, g)
    requires j < i < |d.ids| && d.ids[j] in d.deps[i] && d.waves[j] >= d.waves[i]
    ensures SomeCellFault(g.cells, NotInEarlierWave(d.ids[j], d.ids[i]))
  {
    HardenedShape(d, g);
    ShapeIds(d.ids, d.deps, g.cells);
    ShapeLookup(d.ids, d.deps, g.cells, j);
    assert g.cells[i] == CellOf(d, i) && g.cells[j] == CellOf(d, j);
    assert g.cells[i] in g.cells && CellFault(g.cells, g.cells[i], NotInEarlierWave(d.ids[j], d.ids[i]));
  }

  lemma {:induction false} LateFaultMeans(d: Draft, g: Graph, e: GraphError)
    requires ValidDraft(d) && GraphOf(d, g) && e.NotInEarlierWave? && SomeCellFault(g.cells, e)
    ensures !OrderKept(d)
  {
    HardenedShape(d, g);
    var i := FaultyCell(g.cells, e);
    var j := LateDependency(d.ids, d.deps, g.cells, i, e);
    assert g.cells[i] == CellOf(d, i) && g.cells[j] == CellOf(d, j);
  }

  lemma {:induction false} TokensAreSplit(d: Draft, g: Graph)
    requires ValidDraft(d) && GraphOf(d, g)
    ensures d.contract.budget.tokenLimit.Some? ==>
      TokenLimits(g.cells) == TokenParts(d.contract.budget.tokenLimit.value, d.shares)
    ensures d.contract.budget.tokenLimit.None? ==> |TokenLimits(g.cells)| != |g.cells|
  {
    assert g.cells[0] in g.cells && g.cells[0] == CellOf(d, 0);
    if d.contract.budget.tokenLimit.Some? {
      TokenLimitsAreParts(g.cells, d.contract.budget.tokenLimit.value, d.shares);
    }
  }

  lemma {:induction false} CostsAreSplit(d: Draft, g: Graph)
    requires ValidDraft(d) && GraphOf(d, g)
    ensures d.contract.budget.costLimit.Some? ==>
      CostLimits(g.cells) == CostParts(d.contract.budget.costLimit.value, d.shares)
    ensures d.contract.budget.costLimit.None? ==> |CostLimits(g.cells)| != |g.cells|
  {
    assert g.cells[0] in g.cells && g.cells[0] == CellOf(d, 0);
    if d.contract.budget.costLimit.Some? {
      CostLimitsAreParts(g.cells, d.contract.budget.costLimit.value, d.shares);
    }
  }

  lemma {:induction false} TokenCapIff(cells: seq<Cell>, b: Budget, parts: seq<nat>)
    requires b.tokenLimit.Some? ==> TokenLimits(cells) == parts && |parts| == |cells|
    requires b.tokenLimit.None? ==> |TokenLimits(cells)| != |cells|
    ensures BudgetFault(cells, Some(b), TokenCapExceeded) <==>
            b.tokenLimit.Some? && SumNats(parts) > MAX_TOTAL_TOKEN_BUDGET
  {
  }

  lemma {:induction false} CostCapIff(cells: seq<Cell>, b: Budget, parts: seq<real>)
    requires b.costLimit.Some? ==> CostLimits(cells) == parts && |parts| == |cells|
    requires b.costLimit.None? ==> |CostLimits(cells)| != |cells|
    ensures BudgetFault(cells, Some(b), CostCapExceeded) <==>
            b.costLimit.Some? && SumReals(parts) > MAX_TOTAL_COST_USD
  {
  }

  lemma {:induction false} TokensUnderCapIff(d: Draft, g: Graph)
    requires ValidDraft(d) && GraphOf(d, g)
    ensures TokensUnderCap(d) <==> !BudgetFault(g.cells, Some(d.contract.budget), TokenCapExceeded)
  {
    var b := d.contract.budget;
    TokensAreSplit(d, g);
    TokenCapIff(g.cells, b, if b.tokenLimit.Some? then TokenParts(b.tokenLimit.value, d.shares) else []);
  }

  lemma {:induction false} CostsUnderCapIff(d: Draft, g: Graph)
    requires ValidDraft(d) && GraphOf(d, g)
    ensures CostsUnderCap(d) <==> !BudgetFault(g.cells, Some(d.contract.budget), CostCapExceeded)
  {
    var b := d.contract.budget;
    CostsAreSplit(d, g);
    CostCapIff(g.cells, b, if b.costLimit.Some? then CostParts(b.costLimit.value, d.shares) else []);
  }

  lemma {:induction false} OrderIff(d: Draft, g: Graph)
    requires ValidDraft(d) && GraphOf(d, g)
    ensures OrderKept(d) <==> forall e: GraphError :: e.NotInEarlierWave? ==> !SomeCellFault(g.cells, e)
  {
    forall e: GraphError | e.NotInEarlierWave? && SomeCellFault(g.cells, e) ensures !OrderKept(d) {
      LateFaultMeans(d, g, e);
    }
    if !OrderKept(d) {
      var i, j :| 0 <= j < i < |d.ids| && d.ids[j] in d.deps[i] && d.waves[j] >= d.waves[i];
      LateIsFault(d, g, i, j);
    }
  }

  /** A hardened graph validates exactly when its waves kept the order and its split limits are under the caps. */
  lemma {:induction false} HardenedAcceptedIff(d: Draft, g: Graph)
    requires ValidDraft(d) && GraphOf(d, g)
    ensures Accepted(g, Some(d.contract.budget), None) <==> OrderKept(d) && TokensUnderCap(d) && CostsUnderCap(d)
  {
    TokensUnderCapIff(d, g);
    CostsUnderCapIff(d, g);
    OrderIff(d, g);
    if Accepted(g, Some(d.contract.budget), None) {
      AcceptedHasNone(g, d.contract.budget);
    }
    forall e | Fault(g, Some(d.contract.budget), None, e)
      ensures !(OrderKept(d) && TokensUnderCap(d) && CostsUnderCap(d))
    {
      HardenedFaults(d, g, e);
    }
  }

  lemma {:induction false} AcceptedHasNone(g: Graph, b: Budget)
    requires Accepted(g, Some(b), None)
    ensures !BudgetFault(g.cells, Some(b), TokenCapExceeded) && !BudgetFault(g.cells, Some(b), CostCapExceeded)
    ensures forall e: GraphError :: e.NotInEarlierWave? ==> !SomeCellFault(g.cells, e)
  {
    assert !Fault(g, Some(b), None, TokenCapExceeded) && !Fault(g, Some(b), None, CostCapExceeded);
    forall e: GraphError | e.NotInEarlierWave? ensures !SomeCellFault(g.cells, e) {
      assert !Fault(g, Some(b), None, e);
    }
  }

  /** A proposal whose draft makes a valid graph. */
  ghost predicate Usable(cells: seq<ProposedCell>, contract: Contract, runId: string, d: Draft) {
    && Drafts(cells, contract, runId, d) && ValidDraft(d)
    && OrderKept(d) && TokensUnderCap(d) && CostsUnderCap(d)
  }

  /** What hardening made of a proposal, as `Plan` promises it. */
  ghost predicate HardenedFrom(cells: seq<ProposedCell>, contract: Contract, runId: string, hardened: Option<Graph>) {
    && (hardened.Some? ==> IsHardened(cells, contract, runId, hardened.value))
    && (hardened.None? ==> forall h :: !IsHardened(cells, contract, runId, h))
  }

  lemma {:induction false} DraftHasGraph(cells: seq<ProposedCell>, contract: Contract, runId: string, d: Draft)
    returns (g: Graph)
    requires Drafts(cells, contract, runId, d) && ValidDraft(d)
    ensures DraftOf(cells, contract, runId, d, g)
  {
    var n := |d.ids|;
    var made := DraftCells(d);
    g := Graph(made, EdgesOf(d.ids, d.deps, n), [d.ids[n - 1]], HighestWave(made));
  }

  lemma {:induction false} UsableIsAccepted(cells: seq<ProposedCell>, contract: Contract, runId: string,
                                            hardened: Option<Graph>, d: Draft)
    requires HardenedFrom(cells, contract, runId, hardened) && Usable(cells, contract, runId, d)
    ensures hardened.Some? && Accepted(hardened.value, Some(contract.budget), None)
  {
    var h := DraftHasGraph(cells, contract, runId, d);
    assert IsHardened(cells, contract, runId, h);
    HardenedIsUnique(cells, contract, runId, h, hardened.value);
    HardenedAcceptedIff(d, h);
  }

  lemma {:induction false} AcceptedIsUsable(cells: seq<ProposedCell>, contract: Contract, runId: string, h: Graph)
    returns (d: Draft)
    requires IsHardened(cells, contract, runId, h) && Accepted(h, Some(contract.budget), None)
    ensures Usable(cells, contract, runId, d) && |h.cells| >= 2
  {
    d :| DraftOf(cells, contract, runId, d, h);
    HardenedAcceptedIff(d, h);
  }

  /** Planning falls back exactly when the proposal has no draft, or one out of order or over a cap. */
  lemma {:induction false} FallsBackIff(cells: seq<ProposedCell>, contract: Contract, runId: string,
                                        hardened: Option<Graph>, g: Graph)
    requires HardenedFrom(cells, contract, runId, hardened) && PlannedFrom(hardened, contract, runId, g)
    ensures g == FallbackGraph(contract, runId) <==> forall d :: !Usable(cells, contract, runId, d)
  {
    forall d | Usable(cells, contract, runId, d) ensures hardened.Some? && g == hardened.value {
      UsableIsAccepted(cells, contract, runId, hardened, d);
    }
    if hardened.Some? && Accepted(hardened.value, Some(contract.budget), None) {
      var d := AcceptedIsUsable(cells, contract, runId, hardened.value);
      assert |FallbackGraph(contract, runId).cells| == 1;
    }
  }
}
