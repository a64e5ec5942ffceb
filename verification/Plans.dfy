/** What a planned graph carries over from the contract and the proposal, read off the graph alone. */
module Plans {
  import opened Domain
  import opened Text
  import opened Validation
  import opened Waves
  import opened Hardening

  // Which proposals become cells.

  /** The positions of the proposals that are kept: of those with a name, the first ones. */
  ghost predicate KeptAt(cells: seq<ProposedCell>, at: seq<nat>) {
    && |at| <= 8 && Ascending(at)
    && (forall i :: 0 <= i < |at| ==> at[i] < |cells| && Strip(cells[at[i]].name) != "")
    && forall j: nat :: j < |cells| && Strip(cells[j].name) != "" ==>
         j in at || (|at| == 8 && at[|at| - 1] < j)
  }

  function Chosen(cells: seq<ProposedCell>, at: seq<nat>): (kept: seq<ProposedCell>)
    requires forall i :: 0 <= i < |at| ==> at[i] < |cells|
    ensures |kept| == |at| && forall i :: 0 <= i < |at| ==> kept[i] == cells[at[i]]
  {
    seq(|at|, i requires 0 <= i < |at| => cells[at[i]])
  }

  /** The positions that are marked, in order. */
  predicate MarkedAt(marks: seq<bool>, at: seq<nat>) {
    && Ascending(at)
    && (forall i :: 0 <= i < |at| ==> at[i] < |marks| && marks[at[i]])
    && forall j: nat :: j < |marks| && marks[j] ==> j in at
  }

  lemma {:induction false} OneMoreMark(marks: seq<bool>, before: seq<nat>, mark: bool) returns (at: seq<nat>)
    requires MarkedAt(marks, before)
    ensures MarkedAt(marks + [mark], at) && at == before + if mark then [|marks|] else []
  {
    at := before + if mark then [|marks|] else [];
    forall j: nat | j < |marks + [mark]| && (marks + [mark])[j] ensures j in at {
      assert if j < |marks| then j in before else at[|before|] == j;
    }
  }

  function NamedMarks(cells: seq<ProposedCell>): (marks: seq<bool>)
    ensures |marks| == |cells| && forall i :: 0 <= i < |cells| ==> (marks[i] <==> Strip(cells[i].name) != "")
  {
    seq(|cells|, i requires 0 <= i < |cells| => Strip(cells[i].name) != "")
  }

  lemma {:induction false} NamedAt(cells: seq<ProposedCell>) returns (at: seq<nat>)
    ensures MarkedAt(NamedMarks(cells), at) && |at| == |Named(cells)|
    ensures forall i :: 0 <= i < |at| ==> cells[at[i]] == Named(cells)[i]
  {
    at := [];
    if cells != [] {
      var n := |cells| - 1;
      var front, mark := cells[..n], Strip(cells[n].name) != "";
      var before := NamedAt(front);
      at := OneMoreMark(NamedMarks(front), before, mark);
      assert NamedMarks(cells) == NamedMarks(front) + [mark];
      assert Named(cells) == Named(front) + if mark then [cells[n]] else [];
    }
  }

  lemma {:induction false} KeptOf(cells: seq<ProposedCell>) returns (at: seq<nat>)
    ensures KeptAt(cells, at) && Chosen(cells, at) == Prefix(Named(cells), MAX_PROPOSED_CELLS)
  {
    var all := NamedAt(cells);
    at := Prefix(all, MAX_PROPOSED_CELLS);
    FirstOf(all, at, MAX_PROPOSED_CELLS);
    var marks := NamedMarks(cells);
    forall j: nat | j < |cells| && Strip(cells[j].name) != ""
      ensures j in at || (|at| == MAX_PROPOSED_CELLS && at[|at| - 1] < j)
    {
      assert marks[j] && j in all;
    }
    assert Chosen(cells, at) == Prefix(Named(cells), MAX_PROPOSED_CELLS);
  }

  lemma {:induction false} FirstOf(all: seq<nat>, at: seq<nat>, n: nat)
    requires Ascending(all) && at == Prefix(all, n) && n > 0
    ensures Ascending(at) && forall j :: j in all ==> j in at || (|at| == n && at[n - 1] < j)
  {
    forall j | j in all ensures j in at || (|at| == n && at[n - 1] < j) {
      var i :| 0 <= i < |all| && all[i] == j;
      assert i < |at| ==> at[i] == j;
    }
  }

  // What a cell keeps.

  /** The cell that a kept proposal becomes, in everything that does not depend on the other cells. */
  ghost predicate Carries(p: ProposedCell, c: Cell, contract: Contract) {
    && c.contract.id != contract.id && contract.id <= c.contract.id
    && c.name <= Strip(p.name) && |c.name| == Min(50, |Strip(p.name)|)
    && (c.mode.ReadOnly? <==> p.mode == "read_only")
    && c.status.Pending?
    && c.contract.objective == contract.objective && c.contract.criteria == contract.criteria
    && c.contract.version == contract.version
    && (forall k :: k in c.criterionIndices <==> 0 <= k < |contract.criteria| && k in p.criterionIndices)
    && Rising(c.criterionIndices)
  }

  /** Proposal `i` names proposal `j` before it, which is the last of its name. */
  ghost predicate NamesEarlier(kept: seq<ProposedCell>, i: nat, j: nat)
    requires i < |kept| && j < |kept|
  {
    && j < i && LastOfItsName(kept, j)
    && exists d :: d in kept[i].dependsOn && Strip(d) == Strip(kept[j].name)
  }

  ghost predicate LastOfItsName(kept: seq<ProposedCell>, j: nat)
    requires j < |kept|
  {
    forall m :: j < m < |kept| ==> Strip(kept[m].name) != Strip(kept[j].name)
  }

  /** A cell depends on exactly the cells that its proposal names among those before it. */
  ghost predicate DependsAsNamed(kept: seq<ProposedCell>, cells: seq<Cell>)
    requires |kept| == |cells|
  {
    && (forall i, j :: 0 <= i < |cells| && 0 <= j < |cells| ==>
          (cells[j].id in cells[i].dependencies <==> NamesEarlier(kept, i, j)))
    && forall i, x :: 0 <= i < |cells| && x in cells[i].dependencies ==> x in IdSet(cells)
  }

  function Asked(p: ProposedCell): real { if p.budgetShare > 0.0 then p.budgetShare else 0.0 }

  /** Shares of the whole, each in proportion to what its proposal asks for. */
  ghost predicate InProportion(kept: seq<ProposedCell>, shares: seq<real>) {
    && |shares| == |kept| && Shares(shares)
    && forall i, j :: 0 <= i < |kept| && 0 <= j < |kept| ==> shares[i] * Asked(kept[j]) == shares[j] * Asked(kept[i])
  }

  /** A share of a budget: tokens rounded down, cost to the micro-dollar, the other limits as they are. */
  ghost predicate IsShare(part: Budget, share: real, whole: Budget) {
    && part.maxCalls == whole.maxCalls && part.maxToolRounds == whole.maxToolRounds
    && part.maxRetries == whole.maxRetries
    && (part.tokenLimit.Some? <==> whole.tokenLimit.Some?) && (part.costLimit.Some? <==> whole.costLimit.Some?)
    && (whole.tokenLimit.Some? ==>
          part.tokenLimit.value as real <= whole.tokenLimit.value as real * share < part.tokenLimit.value as real + 1.0)
    && (whole.costLimit.Some? ==>
          && -0.0000005 <= part.costLimit.value - whole.costLimit.value * share <= 0.0000005
          && exists micros :: IsMicros(part.costLimit.value, micros))
  }

  predicate IsMicros(cost: real, micros: nat) { cost == micros as real / 1000000.0 }

  /** One level per cell, above those of its dependencies and above one of them by one. */
  ghost predicate LevelsOf(cells: seq<Cell>, levels: seq<nat>) {
    && |levels| == |cells|
    && (forall i, j :: 0 <= i < |cells| && 0 <= j < |cells| && cells[j].id in cells[i].dependencies ==>
          levels[j] < levels[i])
    && forall i :: 0 <= i < |cells| && levels[i] > 0 ==> RestsOn(cells, levels, i)
  }

  ghost predicate RestsOn(cells: seq<Cell>, levels: seq<nat>, i: nat)
    requires i < |cells| == |levels|
  {
    exists j :: 0 <= j < |cells| && cells[j].id in cells[i].dependencies && levels[j] + 1 == levels[i]
  }

  ghost predicate WrittenBefore(cells: seq<Cell>, i: nat, wave: nat)
    requires i <= |cells|
  {
    exists j :: 0 <= j < i && cells[j].mode.Mutating? && cells[j].wave == wave
  }

  /** Readers run at their level; a writer takes the first wave from its level on that no earlier writer has. */
  ghost predicate WavesFollow(cells: seq<Cell>, levels: seq<nat>)
    requires |levels| == |cells|
  {
    forall i :: 0 <= i < |cells| ==> WaveFollows(cells, levels[i], i)
  }

  ghost predicate WaveFollows(cells: seq<Cell>, level: nat, i: nat)
    requires i < |cells|
  {
    if cells[i].mode.ReadOnly? then cells[i].wave == level
    else
      && level <= cells[i].wave && !WrittenBefore(cells, i, cells[i].wave)
      && forall w: nat :: level <= w < cells[i].wave ==> WrittenBefore(cells, i, w)
  }

  /** The whole graph: a cell for each kept proposal, the last one its milestone. */
  ghost predicate CarriesAll(cells: seq<ProposedCell>, contract: Contract, at: seq<nat>, shares: seq<real>, g: Graph) {
    && UniqueIds(g.cells) && g.horizon < 6
    && KeptAt(cells, at) && |g.cells| == |at| >= 2
    && InProportion(Chosen(cells, at), shares)
    && (forall i :: 0 <= i < |at| ==> Carries(cells[at[i]], g.cells[i], contract))
    && (forall i :: 0 <= i < |at| ==> IsShare(g.cells[i].contract.budget, shares[i], contract.budget))
    && DependsAsNamed(Chosen(cells, at), g.cells)
    && (exists levels :: LevelsOf(g.cells, levels) && WavesFollow(g.cells, levels))
    && g.milestones == [g.cells[|g.cells| - 1].id]
    && (forall c :: c in g.cells ==> c.wave <= g.horizon) && exists c :: c in g.cells && c.wave == g.horizon
  }

  /** Every acceptance criterion is a cell's. */
  ghost predicate CoversAll(g: Graph, n: nat) {
    forall k: nat :: k < n ==> IsCovered(g.cells, k)
  }

  ghost predicate IsCovered(cells: seq<Cell>, k: nat) { exists c :: c in cells && k in c.criterionIndices }

  /** The plan for a contract that stays in one piece: a single writer with everything. */
  ghost predicate InOnePiece(g: Graph, contract: Contract) {
    && |g.cells| == 1 && g.cells[0].name <= contract.objective
    && |g.cells[0].name| == Min(50, |contract.objective|)
    && g.edges == [] && g.milestones == [g.cells[0].id]
    && g.cells[0].contract == contract && g.cells[0].mode.Mutating? && g.cells[0].status.Pending?
    && g.cells[0].dependencies == [] && g.cells[0].wave == g.horizon == 0
  }

  lemma {:induction false} CellCarries(d: Draft, i: nat)
    requires ValidDraft(d) && i < |d.ids|
    ensures Carries(d.proposed[i], CellOf(d, i), d.contract)
    ensures IsShare(CellOf(d, i).contract.budget, d.shares[i], d.contract.budget)
  {
    IndicesRise(d.proposed[i].criterionIndices, |d.contract.criteria|);
    var whole := d.contract.budget.costLimit;
    if whole.Some? {
      var micros := CostIsMicros(whole.value, d.shares[i]);
    }
  }

  lemma {:induction false} CostIsMicros(limit: Money, share: real) returns (micros: nat)
    requires share >= 0.0
    ensures IsMicros(CostPart(limit, share), micros)
  {
    NonNegativeProduct(limit, share);
    micros := RoundHalfEven(limit * share * 1000000.0);
  }

  // Shares.

  lemma {:induction false} SharesInProportion(kept: seq<ProposedCell>)
    requires SumReals(Clipped(kept)) > 0.0
    ensures InProportion(kept, NormalizedShares(kept))
  {
    var s, factor := Clipped(kept), 1.0 / SumReals(Clipped(kept));
    NormalizedAreShares(s);
    forall i, j | 0 <= i < |kept| && 0 <= j < |kept|
      ensures NormalizedShares(kept)[i] * Asked(kept[j]) == NormalizedShares(kept)[j] * Asked(kept[i])
    {
      Crosswise(s[i], s[j], factor);
    }
  }

  lemma {:induction false} Crosswise(a: real, b: real, factor: real)
    ensures a * factor * b == b * factor * a
  {
  }

  // Names.

  lemma {:induction false} OneMoreName(kept: seq<ProposedCell>, ids: seq<Id>)
    requires |kept| == |ids| && kept != []
    ensures var n := |kept| - 1;
            NameToId(kept, ids) == NameToId(kept[..n], ids[..n])[Strip(kept[n].name) := ids[n]]
  {
  }

  /** A name stands for the last proposal that bears it. */
  lemma {:induction false} StandsForLast(kept: seq<ProposedCell>, ids: seq<Id>, j: nat)
    requires j < |kept| == |ids| && LastOfItsName(kept, j)
    ensures Strip(kept[j].name) in NameToId(kept, ids) && NameToId(kept, ids)[Strip(kept[j].name)] == ids[j]
  {
    var n := |kept| - 1;
    OneMoreName(kept, ids);
    if j < n {
      var front := kept[..n];
      assert Strip(kept[n].name) != Strip(kept[j].name);
      forall m | j < m < n ensures Strip(front[m].name) != Strip(front[j].name) {
        assert Strip(kept[m].name) != Strip(kept[j].name);
      }
      StandsForLast(front, ids[..n], j);
    }
  }

  lemma {:induction false} LastOfName(kept: seq<ProposedCell>, j: nat) returns (k: nat)
    requires j < |kept|
    ensures j <= k < |kept| && Strip(kept[k].name) == Strip(kept[j].name) && LastOfItsName(kept, k)
    decreases |kept| - j
  {
    k := j;
    if m :| j < m < |kept| && Strip(kept[m].name) == Strip(kept[j].name) {
      k := LastOfName(kept, m);
    }
  }

  /** What a name stands for is the last proposal of that name. */
  lemma {:induction false} LastStands(kept: seq<ProposedCell>, ids: seq<Id>, name: string) returns (j: nat)
    requires |kept| == |ids| && name in NameToId(kept, ids)
    ensures j < |kept| && Strip(kept[j].name) == name && LastOfItsName(kept, j) && NameToId(kept, ids)[name] == ids[j]
  {
    var first :| 0 <= first < |ids| && ids[first] == NameToId(kept, ids)[name] && Strip(kept[first].name) == name;
    j := LastOfName(kept, first);
    StandsForLast(kept, ids, j);
  }

  lemma {:induction false} NamedIsDependency(kept: seq<ProposedCell>, ids: seq<Id>, i: nat, j: nat)
    requires |kept| == |ids| && i < |ids| && j < |ids| && NamesEarlier(kept, i, j)
    ensures ids[j] in Resolved(NameToId(kept, ids), kept[i].dependsOn, ids[..i])
  {
    var d :| d in kept[i].dependsOn && Strip(d) == Strip(kept[j].name);
    StandsForLast(kept, ids, j);
    assert ids[..i][j] == ids[j];
  }

  lemma {:induction false} DependencyIsNamed(kept: seq<ProposedCell>, ids: seq<Id>, i: nat, j: nat)
    requires |kept| == |ids| && Distinct(ids) && i < |ids| && j < |ids|
    requires ids[j] in Resolved(NameToId(kept, ids), kept[i].dependsOn, ids[..i])
    ensures NamesEarlier(kept, i, j)
  {
    var names := NameToId(kept, ids);
    var d :| d in kept[i].dependsOn && Strip(d) in names && names[Strip(d)] in ids[..i] && names[Strip(d)] == ids[j];
    IsEarlier(ids, i, j);
    var name := Strip(d);
    var last := LastStands(kept, ids, name);
    assert last == j;
  }

  lemma {:induction false} IsEarlier(ids: seq<Id>, i: nat, j: nat)
    requires Distinct(ids) && i < |ids| && j < |ids| && ids[j] in ids[..i]
    ensures j < i
  {
    var e :| 0 <= e < i && ids[..i][e] == ids[j];
    assert ids[e] == ids[j];
  }

  lemma {:induction false} DependencyIff(ids: seq<Id>, deps: seq<set<Id>>, cells: seq<Cell>, i: nat, j: nat)
    requires Shape(ids, deps, cells) && i < |ids| && j < |ids|
    ensures cells[j].id in cells[i].dependencies <==> ids[j] in deps[i]
  {
    assert cells[i].dependencies == InOrder(ids, deps[i]) && ids[j] in ids;
  }

  lemma {:induction false} ShapeDependsAsNamed(ids: seq<Id>, kept: seq<ProposedCell>, cells: seq<Cell>)
    requires |kept| == |ids| && Shape(ids, Dependencies(kept, ids), cells)
    ensures DependsAsNamed(kept, cells)
  {
    var deps := Dependencies(kept, ids);
    forall i, j | 0 <= i < |cells| && 0 <= j < |cells|
      ensures cells[j].id in cells[i].dependencies <==> NamesEarlier(kept, i, j)
    {
      DependencyIff(ids, deps, cells, i, j);
      if ids[j] in deps[i] {
        DependencyIsNamed(kept, ids, i, j);
      }
      if NamesEarlier(kept, i, j) {
        NamedIsDependency(kept, ids, i, j);
      }
    }
    ShapeIds(ids, deps, cells);
    forall i, x | 0 <= i < |cells| && x in cells[i].dependencies ensures x in IdSet(cells) {
      assert cells[i].dependencies == InOrder(ids, deps[i]);
    }
  }

  // Waves.

  lemma {:induction false} ShapeLevels(ids: seq<Id>, deps: seq<set<Id>>, cells: seq<Cell>, levels: seq<nat>)
    requires Shape(ids, deps, cells) && |levels| == |ids| && Levels(ids, deps, levels)
    ensures LevelsOf(cells, levels)
  {
    forall i, j | 0 <= i < |cells| && 0 <= j < |cells| && cells[j].id in cells[i].dependencies
      ensures levels[j] < levels[i]
    {
      DependencyIff(ids, deps, cells, i, j);
      assert LevelAt(ids, deps, levels, i);
    }
    forall i | 0 <= i < |cells| && levels[i] > 0 ensures RestsOn(cells, levels, i) {
      assert LevelAt(ids, deps, levels, i);
      var j :| 0 <= j < |ids| && ids[j] in deps[i] && levels[j] + 1 == levels[i];
      DependencyIff(ids, deps, cells, i, j);
    }
  }

  lemma {:induction false} SeparatedWaves(kept: seq<ProposedCell>, cells: seq<Cell>, levels: seq<nat>, waves: seq<nat>)
    requires |kept| == |cells| == |levels| == |waves| && Separated(kept, levels, waves)
    requires forall i :: 0 <= i < |cells| ==> cells[i].wave == waves[i]
    requires forall i :: 0 <= i < |cells| ==> (cells[i].mode.Mutating? <==> IsMutating(kept[i]))
    ensures WavesFollow(cells, levels)
  {
    forall i | 0 <= i < |cells| ensures WaveFollows(cells, levels[i], i) {
      assert FirstFree(kept, levels, waves, i);
      forall w: nat ensures WrittenBefore(cells, i, w) <==> TakenEarlier(kept, waves, i, w) {
      }
    }
  }

  lemma {:induction false} DraftShapes(d: Draft, g: Graph)
    requires ValidDraft(d) && GraphOf(d, g) && d.deps == Dependencies(d.proposed, d.ids)
    ensures UniqueIds(g.cells) && DependsAsNamed(d.proposed, g.cells)
    ensures LevelsOf(g.cells, d.levels) && WavesFollow(g.cells, d.levels)
  {
    HardenedShape(d, g);
    ShapeIds(d.ids, d.deps, g.cells);
    ShapeDependsAsNamed(d.ids, d.proposed, g.cells);
    ShapeLevels(d.ids, d.deps, g.cells, d.levels);
    forall i | 0 <= i < |g.cells|
      ensures g.cells[i].wave == d.waves[i] && (g.cells[i].mode.Mutating? <==> IsMutating(d.proposed[i]))
    {
      assert g.cells[i] == CellOf(d, i);
    }
    SeparatedWaves(d.proposed, g.cells, d.levels, d.waves);
  }

  // The graph.

  lemma {:induction false} DraftCarries(d: Draft, g: Graph)
    requires ValidDraft(d) && GraphOf(d, g)
    ensures forall i :: 0 <= i < |d.ids| ==>
      Carries(d.proposed[i], g.cells[i], d.contract) &&
      IsShare(g.cells[i].contract.budget, d.shares[i], d.contract.budget)
  {
    forall i | 0 <= i < |d.ids|
      ensures Carries(d.proposed[i], g.cells[i], d.contract)
      ensures IsShare(g.cells[i].contract.budget, d.shares[i], d.contract.budget)
    {
      CellCarries(d, i);
      assert g.cells[i] == CellOf(d, i);
    }
  }

  lemma {:induction false} DraftCarriesAll(cells: seq<ProposedCell>, at: seq<nat>, d: Draft, g: Graph)
    requires ValidDraft(d) && GraphOf(d, g) && d.deps == Dependencies(d.proposed, d.ids)
    requires KeptAt(cells, at) && Chosen(cells, at) == d.proposed && InProportion(d.proposed, d.shares)
    requires forall i :: 0 <= i < |d.waves| ==> d.waves[i] < MAX_WAVES
    ensures CarriesAll(cells, d.contract, at, d.shares, g)
  {
    DraftShapes(d, g);
    DraftCarries(d, g);
    LastIsMilestone(d, g);
    HorizonIsHighest(g.cells);
    HighestWaveBelow(d, g.cells);
    assert forall i :: 0 <= i < |at| ==> Chosen(cells, at)[i] == cells[at[i]];
  }

  /** A hardened graph carries what was proposed, and nothing else. */
  lemma {:induction false} HardenedCarries(cells: seq<ProposedCell>, contract: Contract, runId: string, g: Graph)
    returns (at: seq<nat>, shares: seq<real>)
    requires IsHardened(cells, contract, runId, g)
    ensures CarriesAll(cells, contract, at, shares, g)
  {
    var d :| DraftOf(cells, contract, runId, d, g);
    at := KeptOf(cells);
    shares := d.shares;
    SharesInProportion(d.proposed);
    DraftCarriesAll(cells, at, d, g);
  }

  lemma {:induction false} LastIsMilestone(d: Draft, g: Graph)
    requires ValidDraft(d) && GraphOf(d, g)
    ensures g.milestones == [g.cells[|g.cells| - 1].id]
  {
    var n := |g.cells| - 1;
    assert g.cells[n] == CellOf(d, n);
  }

  lemma {:induction false} HorizonIsHighest(cells: seq<Cell>)
    requires cells != []
    ensures var w := HighestWave(cells);
            (forall c :: c in cells ==> c.wave <= w) && exists c :: c in cells && c.wave == w
  {
    var w := HighestWave(cells);
    var c :| c in cells && c.wave == w;
  }

  /** No acceptance criterion gets lost. */
  lemma {:induction false} HardenedCovers(cells: seq<ProposedCell>, contract: Contract, runId: string, g: Graph)
    requires IsHardened(cells, contract, runId, g)
    ensures CoversAll(g, |contract.criteria|)
  {
    var d :| DraftOf(cells, contract, runId, d, g);
    DraftCarries(d, g);
    forall k: nat | k < |contract.criteria| ensures IsCovered(g.cells, k) {
      assert Covered(d.proposed, k);
      CoveredIsCarried(d.proposed, g.cells, contract, k);
    }
  }

  lemma {:induction false} CoveredIsCarried(kept: seq<ProposedCell>, cells: seq<Cell>, contract: Contract, k: nat)
    requires |kept| == |cells| && Covered(kept, k) && k < |contract.criteria|
    requires forall i :: 0 <= i < |kept| ==> Carries(kept[i], cells[i], contract)
    ensures IsCovered(cells, k)
  {
    var p :| p in kept && k in p.criterionIndices;
    var i :| 0 <= i < |kept| && kept[i] == p;
    assert Carries(kept[i], cells[i], contract) && cells[i] in cells;
  }

  lemma {:induction false} FallbackIsWhole(contract: Contract, runId: string)
    ensures InOnePiece(FallbackGraph(contract, runId), contract)
    ensures CoversAll(FallbackGraph(contract, runId), |contract.criteria|)
  {
    var c := FallbackGraph(contract, runId).cells[0];
    forall k: nat | k < |contract.criteria| ensures IsCovered([c], k) {
      assert c.criterionIndices[k] == k;
    }
  }

  /** What a plan holds of the contract and of the proposal that it follows, if it follows one. */
  ghost predicate PlanCarries(proposal: Option<seq<ProposedCell>>, contract: Contract, g: Graph) {
    && CoversAll(g, |contract.criteria|)
    && (InOnePiece(g, contract) ||
        (proposal.Some? && exists at, shares :: CarriesAll(proposal.value, contract, at, shares, g)))
  }

  /** `None` also when there is no proposal. */
  method TryHarden(proposal: Option<seq<ProposedCell>>, contract: Contract, runId: string) returns (r: Option<Graph>)
    ensures r.Some? ==> proposal.Some? && IsHardened(proposal.value, contract, runId, r.value)
    ensures r.None? && proposal.Some? ==> forall g :: !IsHardened(proposal.value, contract, runId, g)
  {
    if proposal.None? {
      return None;
    }
    ghost var draft;
    r, draft := Harden(proposal.value, contract, runId);
    if r.Some? {
      assert DraftOf(proposal.value, contract, runId, draft.value, r.value);
    }
  }

  /** `proposal` is `None` when the gateway failed or its answer did not parse. */
  method Plan(proposal: Option<seq<ProposedCell>>, contract: Contract, runId: string)
    returns (g: Graph, ghost hardened: Option<Graph>)
    ensures hardened.Some? ==> proposal.Some? && IsHardened(proposal.value, contract, runId, hardened.value)
    ensures hardened.None? && proposal.Some? ==> forall h :: !IsHardened(proposal.value, contract, runId, h)
    ensures PlannedFrom(hardened, contract, runId, g) && PlanCarries(proposal, contract, g)
  {
    var candidate := TryHarden(proposal, contract, runId);
    g := Choose(candidate, contract, runId);
    hardened := candidate;
    PlansCarry(proposal, hardened, contract, runId, g);
  }

  lemma {:induction false} PlansCarry(proposal: Option<seq<ProposedCell>>, hardened: Option<Graph>, contract: Contract,
                                      runId: string, g: Graph)
    requires hardened.Some? ==> proposal.Some? && IsHardened(proposal.value, contract, runId, hardened.value)
    requires PlannedFrom(hardened, contract, runId, g)
    ensures PlanCarries(proposal, contract, g)
  {
    FallbackIsWhole(contract, runId);
    if hardened.Some? && g == hardened.value {
      HardenedCovers(proposal.value, contract, runId, g);
      var at, shares := HardenedCarries(proposal.value, contract, runId, g);
    }
  }

  method Choose(candidate: Option<Graph>, contract: Contract, runId: string) returns (g: Graph)
    ensures PlannedFrom(candidate, contract, runId, g)
  {
    if candidate.None? {
      return FallbackGraph(contract, runId);
    }
    var errors := Validate(candidate.value, Some(contract.budget), None);
    if errors != [] {
      assert errors[0] in errors;
      return FallbackGraph(contract, runId);
    }
    return candidate.value;
  }
}
