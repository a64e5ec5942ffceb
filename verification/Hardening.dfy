/** The model-backed planner: a proposal is hardened into a legal graph or replaced by the single-cell plan. */
module Hardening {
  import opened Domain
  import opened Text
  import opened Digraph
  import opened Validation
  import opened Waves

  // Splitting the budget by shares.

  function Clipped(proposed: seq<ProposedCell>): (s: seq<real>)
    ensures |s| == |proposed| && forall i :: 0 <= i < |s| ==> s[i] >= 0.0
  {
    seq(|proposed|, i requires 0 <= i < |proposed| =>
      if proposed[i].budgetShare < 0.0 then 0.0 else proposed[i].budgetShare)
  }

  function Scale(s: seq<real>, factor: real): (t: seq<real>)
    ensures |t| == |s| && forall i :: 0 <= i < |s| ==> t[i] == s[i] * factor
  {
    seq(|s|, i requires 0 <= i < |s| => s[i] * factor)
  }

  lemma {:induction false} ScaleFront(s: seq<real>, factor: real)
    requires s != []
    ensures Scale(s, factor)[..|s| - 1] == Scale(s[..|s| - 1], factor)
  {
    var n := |s| - 1;
    var whole, part := Scale(s, factor), Scale(s[..n], factor);
    forall k | 0 <= k < n ensures whole[..n][k] == part[k] {
      assert s[..n][k] == s[k];
    }
  }

  lemma {:induction false} SumScale(s: seq<real>, factor: real)
    ensures SumReals(Scale(s, factor)) == SumReals(s) * factor
  {
    if s != [] {
      var n := |s| - 1;
      SumScale(s[..n], factor);
      ScaleFront(s, factor);
    }
  }

  /** Non-negative shares that sum to one. */
  ghost predicate Shares(s: seq<real>) {
    SumReals(s) == 1.0 && forall i :: 0 <= i < |s| ==> s[i] >= 0.0
  }

  lemma {:induction false} NormalizedAreShares(s: seq<real>)
    requires SumReals(s) > 0.0 && forall i :: 0 <= i < |s| ==> s[i] >= 0.0
    ensures Shares(Scale(s, 1.0 / SumReals(s)))
  {
    var total := SumReals(s);
    SumScale(s, 1.0 / total);
    assert total * (1.0 / total) == 1.0;
    var t := Scale(s, 1.0 / total);
    forall i | 0 <= i < |t| ensures t[i] >= 0.0 {
      NonNegativeProduct(s[i], 1.0 / total);
    }
  }

  lemma {:induction false} NonNegativeProduct(a: real, b: real)
    requires a >= 0.0 && b >= 0.0
    ensures a * b >= 0.0
  {
  }

  /** `int(limit * share)` for a non-negative product. */
  function TokenPart(limit: nat, share: real): (n: nat)
    requires share >= 0.0
    ensures n as real <= limit as real * share
    ensures limit as real * share < n as real + 1.0
  {
    NonNegativeProduct(limit as real, share);
    (limit as real * share).Floor
  }

  function RoundHalfEven(x: real): (n: int)
    ensures -0.5 <= n as real - x <= 0.5
    ensures x >= 0.0 ==> n >= 0
  {
    var f := x.Floor;
    var rest := x - f as real;
    if rest < 0.5 then f else if rest > 0.5 then f + 1 else if f % 2 == 0 then f else f + 1
  }

  /** `round(limit * share, 6)`. */
  function CostPart(limit: Money, share: real): (r: Money)
    requires share >= 0.0
    ensures -0.0000005 <= r - limit * share <= 0.0000005
  {
    NonNegativeProduct(limit, share);
    RoundHalfEven(limit * share * 1000000.0) as real / 1000000.0
  }

  function TokenParts(limit: nat, shares: seq<real>): (parts: seq<nat>)
    requires forall i :: 0 <= i < |shares| ==> shares[i] >= 0.0
    ensures |parts| == |shares|
    ensures forall i :: 0 <= i < |shares| ==> parts[i] == TokenPart(limit, shares[i])
  {
    seq(|shares|, i requires 0 <= i < |shares| => TokenPart(limit, shares[i]))
  }

  function CostParts(limit: Money, shares: seq<real>): (parts: seq<real>)
    requires forall i :: 0 <= i < |shares| ==> shares[i] >= 0.0
    ensures |parts| == |shares|
    ensures forall i :: 0 <= i < |shares| ==> parts[i] == CostPart(limit, shares[i])
  {
    seq(|shares|, i requires 0 <= i < |shares| => CostPart(limit, shares[i]))
  }

  lemma {:induction false} TokenPartsBelow(limit: nat, shares: seq<real>)
    requires forall i :: 0 <= i < |shares| ==> shares[i] >= 0.0
    ensures SumNats(TokenParts(limit, shares)) as real <= SumReals(shares) * limit as real
  {
    if shares != [] {
      var front, last := shares[..|shares| - 1], shares[|shares| - 1];
      TokenPartsBelow(limit, front);
      assert TokenParts(limit, shares)[..|shares| - 1] == TokenParts(limit, front);
      Distributes(SumReals(front), last, limit as real);
    }
  }

  /** The token budgets of the children never sum above the contract's limit. */
  lemma {:induction false} TokenSplitWithinLimit(limit: nat, shares: seq<real>)
    requires Shares(shares)
    ensures SumNats(TokenParts(limit, shares)) <= limit
  {
    TokenPartsBelow(limit, shares);
  }

  lemma {:induction false} CostPartsNear(limit: Money, shares: seq<real>)
    requires forall i :: 0 <= i < |shares| ==> shares[i] >= 0.0
    ensures Near(SumReals(CostParts(limit, shares)), SumReals(Scale(shares, limit)), |shares|)
  {
    var parts, exact := CostParts(limit, shares), Scale(shares, limit);
    forall i | 0 <= i < |shares| ensures -0.0000005 <= parts[i] - exact[i] <= 0.0000005 {
      CostPartNear(limit, shares[i]);
    }
    SumsNear(parts, exact);
  }

  lemma {:induction false} SumsNear(a: seq<real>, b: seq<real>)
    requires |a| == |b| && forall i :: 0 <= i < |a| ==> -0.0000005 <= a[i] - b[i] <= 0.0000005
    ensures Near(SumReals(a), SumReals(b), |a|)
  {
    if a != [] {
      var n := |a| - 1;
      SumsNear(a[..n], b[..n]);
      NearStep(SumReals(a[..n]), SumReals(b[..n]), n, a[n], b[n]);
    }
  }

  lemma {:induction false} CostPartNear(limit: Money, share: real)
    requires share >= 0.0
    ensures -0.0000005 <= CostPart(limit, share) - share * limit <= 0.0000005
  {
    assert share * limit == limit * share;
  }

  /** Within half a micro-dollar for each of `n` rounded parts. */
  predicate Near(x: real, y: real, n: nat) {
    -(n as real) * 0.0000005 <= x - y <= n as real * 0.0000005
  }

  lemma {:induction false} NearStep(x: real, y: real, n: nat, dx: real, dy: real)
    requires Near(x, y, n) && -0.0000005 <= dx - dy <= 0.0000005
    ensures Near(x + dx, y + dy, n + 1)
  {
    assert (n + 1) as real == n as real + 1.0;
  }

  lemma {:induction false} Distributes(a: real, b: real, c: real)
    ensures (a + b) * c == a * c + c * b
  {
  }

  /** The cost budgets of `n` children sum to the contract's limit up to half a micro-dollar each ... */
  lemma {:induction false} CostSplitNearLimit(limit: Money, shares: seq<real>)
    requires Shares(shares)
    ensures Near(SumReals(CostParts(limit, shares)), limit, |shares|)
  {
    CostPartsNear(limit, shares);
    SumScale(shares, limit);
  }

  // Exactly when the rounded parts stay within the limit.

  function Fraction(x: real): real { x - x.Floor as real }

  /** Half a unit goes to the even neighbour. */
  predicate RoundsUp(x: real) { Fraction(x) > 0.5 || (Fraction(x) == 0.5 && x.Floor % 2 != 0) }

  /** A cell's part of the limit before rounding, in micro-dollars. */
  function Micros(limit: Money, share: real): real { limit * share * 1000000.0 }

  /** What rounding adds to a part that it rounds up. */
  function Added(x: real): real { if RoundsUp(x) then 1.0 - Fraction(x) else 0.0 }

  /** What it cuts off any other. */
  function Cut(x: real): real { if RoundsUp(x) then 0.0 else Fraction(x) }

  function AddedParts(limit: Money, shares: seq<real>): (s: seq<real>)
    ensures |s| == |shares| && forall i :: 0 <= i < |s| ==> s[i] == Added(Micros(limit, shares[i]))
  {
    seq(|shares|, i requires 0 <= i < |shares| => Added(Micros(limit, shares[i])))
  }

  function CutParts(limit: Money, shares: seq<real>): (s: seq<real>)
    ensures |s| == |shares| && forall i :: 0 <= i < |s| ==> s[i] == Cut(Micros(limit, shares[i]))
  {
    seq(|shares|, i requires 0 <= i < |shares| => Cut(Micros(limit, shares[i])))
  }

  /** What rounding adds over all the parts that it rounds up. */
  function AddedUp(limit: Money, shares: seq<real>): real { SumReals(AddedParts(limit, shares)) }

  /** What it cuts off over all the others. */
  function CutOff(limit: Money, shares: seq<real>): real { SumReals(CutParts(limit, shares)) }

  lemma {:induction false} PartBalance(limit: Money, share: real)
    requires share >= 0.0
    ensures var x := Micros(limit, share);
            (CostPart(limit, share) - share * limit) * 1000000.0 == Added(x) - Cut(x)
  {
    assert share * limit == limit * share;
  }

  lemma {:induction false} SplitBalance(limit: Money, shares: seq<real>)
    requires forall i :: 0 <= i < |shares| ==> shares[i] >= 0.0
    ensures (SumReals(CostParts(limit, shares)) - SumReals(Scale(shares, limit))) * 1000000.0 ==
            AddedUp(limit, shares) - CutOff(limit, shares)
  {
    var parts, exact := CostParts(limit, shares), Scale(shares, limit);
    var added, cut := AddedParts(limit, shares), CutParts(limit, shares);
    forall i | 0 <= i < |shares| ensures (parts[i] - exact[i]) * 1000000.0 == added[i] - cut[i] {
      PartBalance(limit, shares[i]);
    }
    SumsBalance(parts, exact, added, cut);
  }

  lemma {:induction false} SumsBalance(a: seq<real>, b: seq<real>, added: seq<real>, cut: seq<real>)
    requires |a| == |b| == |added| == |cut|
    requires forall i :: 0 <= i < |a| ==> (a[i] - b[i]) * 1000000.0 == added[i] - cut[i]
    ensures (SumReals(a) - SumReals(b)) * 1000000.0 == SumReals(added) - SumReals(cut)
  {
    if a != [] {
      var n := |a| - 1;
      SumsBalance(a[..n], b[..n], added[..n], cut[..n]);
      BalanceStep(SumReals(a[..n]), SumReals(b[..n]), SumReals(added[..n]), SumReals(cut[..n]),
                  a[n], b[n], added[n], cut[n]);
    }
  }

  lemma {:induction false} BalanceStep(x: real, y: real, up: real, down: real, dx: real, dy: real, du: real, dd: real)
    requires (x - y) * 1000000.0 == up - down && (dx - dy) * 1000000.0 == du - dd
    ensures (x + dx - (y + dy)) * 1000000.0 == up + du - (down + dd)
  {
  }

  /** The children's cost budgets stay within the contract exactly when rounding cuts off at least what it adds. */
  lemma {:induction false} CostSplitWithinIff(limit: Money, shares: seq<real>)
    requires Shares(shares)
    ensures SumReals(CostParts(limit, shares)) <= limit <==> AddedUp(limit, shares) <= CutOff(limit, shares)
  {
    SplitBalance(limit, shares);
    SumScale(shares, limit);
  }

  /** ... but not always below it: six equal shares of $100 sum to $100.000002, over the total cap. */
  lemma {:induction false} CostSplitCanExceedLimit()
    ensures var sixth := 1.0 / 6.0;
            var shares := [sixth, sixth, sixth, sixth, sixth, sixth];
            Shares(shares) && SumReals(CostParts(100.0, shares)) == 100.000002 > MAX_TOTAL_COST_USD
  {
    var sixth := 1.0 / 6.0;
    var shares := [sixth, sixth, sixth, sixth, sixth, sixth];
    assert SumReals(shares) == 1.0 by {
      SumSix(shares, sixth);
    }
    var x := 100.0 * sixth * 1000000.0;
    assert 16666666.5 < x < 16666667.0;
    assert x.Floor == 16666666;
    assert CostPart(100.0, sixth) == 16.666667;
    SumSix(CostParts(100.0, shares), 16.666667);
  }

  lemma {:induction false} SumSix(s: seq<real>, x: real)
    requires |s| == 6 && forall i :: 0 <= i < 6 ==> s[i] == x
    ensures SumReals(s) == 6.0 * x
  {
    assert s[..5][..4] == s[..4] && s[..4][..3] == s[..3] && s[..3][..2] == s[..2] && s[..2][..1] == s[..1];
    assert s[..1][..0] == [];
    assert SumReals(s[..1]) == x && SumReals(s[..2]) == 2.0 * x && SumReals(s[..3]) == 3.0 * x;
    assert SumReals(s[..4]) == 4.0 * x && SumReals(s[..5]) == 5.0 * x;
  }

  // Ids, dependencies and criteria.

  function Digit(i: nat): char
    requires i < 10
  {
    "0123456789"[i]
  }

  function CellIds(runId: string, n: nat): (ids: seq<Id>)
    requires n <= 10
    ensures |ids| == n && Distinct(ids)
  {
    var ids := seq(n, i requires 0 <= i < n => Id("cell-" + runId + "-" + [Digit(i)]));
    assert Distinct(ids) by {
      forall i, j | 0 <= i < j < n ensures ids[i] != ids[j] {
        var last := |"cell-" + runId + "-"|;
        assert ids[i].text[last] == Digit(i) && ids[j].text[last] == Digit(j);
      }
    }
    ids
  }

  function Named(cells: seq<ProposedCell>): seq<ProposedCell> {
    if cells == [] then []
    else
      var last := cells[|cells| - 1];
      Named(cells[..|cells| - 1]) + (if Strip(last.name) != "" then [last] else [])
  }

  function Prefix<T>(s: seq<T>, n: nat): seq<T> { if |s| <= n then s else s[..n] }

  /** The name dictionary: of several cells with one name, the last one holds it. */
  function NameToId(proposed: seq<ProposedCell>, ids: seq<Id>): (m: map<string, Id>)
    requires |proposed| == |ids|
    ensures forall name :: name in m ==>
      exists j :: 0 <= j < |ids| && ids[j] == m[name] && Strip(proposed[j].name) == name
  {
    if proposed == [] then map[]
    else
      var n := |proposed| - 1;
      var front := NameToId(proposed[..n], ids[..n]);
      var m := front[Strip(proposed[n].name) := ids[n]];
      assert forall name :: name in m ==>
        exists j :: 0 <= j < |ids| && ids[j] == m[name] && Strip(proposed[j].name) == name by {
        forall name | name in m
          ensures exists j :: 0 <= j < |ids| && ids[j] == m[name] && Strip(proposed[j].name) == name
        {
          if name == Strip(proposed[n].name) {
            assert ids[n] == m[name];
          } else {
            assert name in front;
            var j :| 0 <= j < n && ids[..n][j] == front[name] && Strip(proposed[..n][j].name) == name;
            assert ids[j] == m[name];
          }
        }
      }
      m
  }

  /** Dependencies that name an earlier cell; every other name is dropped. */
  function Resolved(names: map<string, Id>, dependsOn: seq<string>, earlier: seq<Id>): set<Id> {
    set d | d in dependsOn && Strip(d) in names && names[Strip(d)] in earlier :: names[Strip(d)]
  }

  /** For each cell, what it names among the cells before it. */
  function Dependencies(proposed: seq<ProposedCell>, ids: seq<Id>): (deps: seq<set<Id>>)
    requires |proposed| == |ids|
    ensures |deps| == |ids|
    ensures forall i :: 0 <= i < |ids| ==> deps[i] == Resolved(NameToId(proposed, ids), proposed[i].dependsOn, ids[..i])
  {
    seq(|ids|, i requires 0 <= i < |ids| => Resolved(NameToId(proposed, ids), proposed[i].dependsOn, ids[..i]))
  }

  method ResolveDependencies(proposed: seq<ProposedCell>, ids: seq<Id>) returns (deps: seq<set<Id>>)
    requires |proposed| == |ids|
    ensures |deps| == |ids| && DependsOnEarlier(ids, deps)
    ensures deps == Dependencies(proposed, ids)
  {
    deps := ResolveAll(NameToId(proposed, ids), proposed, ids);
  }

  method ResolveAll(names: map<string, Id>, proposed: seq<ProposedCell>, ids: seq<Id>) returns (deps: seq<set<Id>>)
    requires |proposed| == |ids|
    ensures |deps| == |ids| && DependsOnEarlier(ids, deps)
    ensures forall i :: 0 <= i < |ids| ==> deps[i] == Resolved(names, proposed[i].dependsOn, ids[..i])
  {
    deps := [];
    for i := 0 to |proposed|
      invariant |deps| == i
      invariant forall k :: 0 <= k < i ==> deps[k] == Resolved(names, proposed[k].dependsOn, ids[..k])
    {
      var resolved := ResolveOne(names, proposed[i].dependsOn, ids[..i]);
      deps := deps + [resolved];
    }
    ResolvedAreEarlier(names, proposed, ids, deps);
  }

  lemma {:induction false} ResolvedAreEarlier(names: map<string, Id>, proposed: seq<ProposedCell>, ids: seq<Id>,
                                              deps: seq<set<Id>>)
    requires |proposed| == |ids| == |deps|
    requires forall k :: 0 <= k < |ids| ==> deps[k] == Resolved(names, proposed[k].dependsOn, ids[..k])
    ensures DependsOnEarlier(ids, deps)
  {
    forall i | 0 <= i < |ids| ensures deps[i] <= Elems(ids[..i]) {
      assert deps[i] == Resolved(names, proposed[i].dependsOn, ids[..i]);
    }
  }

  method ResolveOne(names: map<string, Id>, dependsOn: seq<string>, earlier: seq<Id>) returns (resolved: set<Id>)
    ensures resolved == Resolved(names, dependsOn, earlier)
  {
    resolved := {};
    for j := 0 to |dependsOn|
      invariant resolved == Resolved(names, dependsOn[..j], earlier)
    {
      assert dependsOn[..j + 1] == dependsOn[..j] + [dependsOn[j]];
      var name := Strip(dependsOn[j]);
      if name in names && names[name] in earlier {
        resolved := resolved + {names[name]};
      }
    }
    assert dependsOn[..|dependsOn|] == dependsOn;
  }

  /** The valid criterion indices, sorted and without repetitions. */
  function ValidIndices(indices: seq<int>, n: nat): (s: seq<int>)
    ensures forall k :: k in s <==> k in indices && 0 <= k < n
    ensures Distinct(s)
  {
    if n == 0 then [] else ValidIndices(indices, n - 1) + (if n - 1 in indices then [n - 1] else [])
  }

  predicate Rising(s: seq<int>) { forall i, j :: 0 <= i < j < |s| ==> s[i] < s[j] }

  lemma {:induction false} IndicesRise(indices: seq<int>, n: nat)
    ensures Rising(ValidIndices(indices, n))
  {
    if n > 0 {
      var front := ValidIndices(indices, n - 1);
      IndicesRise(indices, n - 1);
      if n - 1 in indices {
        RisingSnoc(front, n - 1);
      } else {
        assert ValidIndices(indices, n) == front;
      }
    }
  }

  lemma {:induction false} RisingSnoc(s: seq<int>, x: int)
    requires Rising(s) && forall y :: y in s ==> y < x
    ensures Rising(s + [x])
  {
    forall i | 0 <= i < |s| ensures s[i] < x {
      var y := s[i];
      assert y in s;
    }
  }

  /** The ids of a set in the order of `ids`, which for generated ids is the sorted order. */
  function InOrder(ids: seq<Id>, chosen: set<Id>): (s: seq<Id>)
    ensures forall x :: x in s <==> x in ids && x in chosen
    ensures Distinct(ids) ==> Distinct(s)
  {
    if ids == [] then []
    else
      var n := |ids| - 1;
      assert ids == ids[..n] + [ids[n]];
      InOrder(ids[..n], chosen) + (if ids[n] in chosen then [ids[n]] else [])
  }

  // The hardened graph.

  /** Everything `_harden` has computed before it builds the graph. */
  datatype Draft = Draft(
    contract: Contract,
    proposed: seq<ProposedCell>,
    ids: seq<Id>,
    deps: seq<set<Id>>,
    levels: seq<nat>,
    waves: seq<nat>,
    shares: seq<real>)

  ghost predicate ValidDraft(d: Draft) {
    && 2 <= |d.proposed| <= MAX_PROPOSED_CELLS
    && |d.ids| == |d.deps| == |d.levels| == |d.waves| == |d.shares| == |d.proposed|
    && Distinct(d.ids)
    && DependsOnEarlier(d.ids, d.deps)
    && Levels(d.ids, d.deps, d.levels)
    && Separated(d.proposed, d.levels, d.waves)
    && Shares(d.shares)
  }

  function ChildBudget(b: Budget, share: real): Budget
    requires share >= 0.0
  {
    b.(tokenLimit := match b.tokenLimit case Some(n) => Some(TokenPart(n, share)) case None => None,
       costLimit := match b.costLimit case Some(r) => Some(CostPart(r, share)) case None => None)
  }

  function CellOf(d: Draft, i: nat): Cell
    requires |d.ids| == |d.deps| == |d.waves| == |d.shares| == |d.proposed| <= 10
    requires i < |d.ids| && d.shares[i] >= 0.0
  {
    Cell(d.ids[i], Prefix(Strip(d.proposed[i].name), 50), d.waves[i],
         if IsMutating(d.proposed[i]) then Mutating else ReadOnly,
         d.contract.(id := d.contract.id + "-c" + [Digit(i)], budget := ChildBudget(d.contract.budget, d.shares[i])),
         CellStatus.Pending,
         InOrder(d.ids, d.deps[i]),
         ValidIndices(d.proposed[i].criterionIndices, |d.contract.criteria|))
  }

  function EdgesTo(sources: seq<Id>, target: Id): (edges: seq<Edge>)
    ensures |edges| == |sources|
    ensures forall k :: 0 <= k < |sources| ==> edges[k] == Edge(sources[k], target, Blocks)
  {
    seq(|sources|, k requires 0 <= k < |sources| => Edge(sources[k], target, Blocks))
  }

  /** The sources of the edges into each cell. */
  function Sources(ids: seq<Id>, deps: seq<set<Id>>): (lists: seq<seq<Id>>)
    ensures |lists| == |deps| && forall i :: 0 <= i < |lists| ==> lists[i] == InOrder(ids, deps[i])
  {
    seq(|deps|, i requires 0 <= i < |deps| => InOrder(ids, deps[i]))
  }

  function EdgesInto(ids: seq<Id>, sources: seq<seq<Id>>, n: nat): seq<Edge>
    requires n <= |ids| == |sources|
  {
    if n == 0 then [] else EdgesInto(ids, sources, n - 1) + EdgesTo(sources[n - 1], ids[n - 1])
  }

  function EdgesOf(ids: seq<Id>, deps: seq<set<Id>>, n: nat): seq<Edge>
    requires n <= |ids| == |deps|
  {
    EdgesInto(ids, Sources(ids, deps), n)
  }

  /** The hardened graph of a draft. */
  ghost predicate GraphOf(d: Draft, g: Graph)
    requires ValidDraft(d)
  {
    && |g.cells| == |d.ids|
    && (forall i :: 0 <= i < |d.ids| ==> g.cells[i] == CellOf(d, i))
    && g.edges == EdgesOf(d.ids, d.deps, |d.ids|)
    && g.milestones == [d.ids[|d.ids| - 1]]
    && g.horizon == HighestWave(g.cells)
  }

  /** Every acceptance criterion is linked to some proposed cell. */
  ghost predicate CoversCriteria(proposed: seq<ProposedCell>, n: nat) {
    forall k :: 0 <= k < n ==> Covered(proposed, k)
  }

  ghost predicate Covered(proposed: seq<ProposedCell>, k: int) {
    exists c :: c in proposed && k in c.criterionIndices
  }

  function NormalizedShares(proposed: seq<ProposedCell>): seq<real>
    requires SumReals(Clipped(proposed)) > 0.0
  {
    Scale(Clipped(proposed), 1.0 / SumReals(Clipped(proposed)))
  }

  /** The draft a proposal calls for: everything in it is determined by the proposal. */
  ghost predicate Drafts(cells: seq<ProposedCell>, contract: Contract, runId: string, d: Draft) {
    && d.contract == contract
    && d.proposed == Prefix(Named(cells), MAX_PROPOSED_CELLS) && |d.proposed| >= 2
    && d.ids == CellIds(runId, |d.proposed|)
    && d.deps == Dependencies(d.proposed, d.ids)
    && |d.levels| == |d.waves| == |d.ids|
    && Levels(d.ids, d.deps, d.levels)
    && Separated(d.proposed, d.levels, d.waves)
    && (forall i :: 0 <= i < |d.waves| ==> d.waves[i] < MAX_WAVES)
    && CoversCriteria(d.proposed, |contract.criteria|)
    && SumReals(Clipped(d.proposed)) > 0.0
    && d.shares == NormalizedShares(d.proposed)
  }

  lemma {:induction false} DraftIsUnique(cells: seq<ProposedCell>, contract: Contract, runId: string, d: Draft,
                                         e: Draft)
    requires Drafts(cells, contract, runId, d) && Drafts(cells, contract, runId, e)
    ensures d == e
  {
    LevelsAreUnique(d.ids, d.deps, d.levels, e.levels);
    SeparationIsUnique(d.proposed, d.levels, d.waves, e.waves);
  }

  lemma {:induction false} NoDraft(cells: seq<ProposedCell>, contract: Contract, runId: string, levels: seq<nat>,
                                   e: Draft)
    requires Drafts(cells, contract, runId, e)
    requires |levels| == |e.ids| && Levels(e.ids, e.deps, levels)
    ensures forall part :: !NoRoom(e.proposed, levels, part)
    ensures forall waves :: |waves| == |levels| && Separated(e.proposed, levels, waves) ==> waves == e.waves
  {
    LevelsAreUnique(e.ids, e.deps, levels, e.levels);
    forall part ensures !NoRoom(e.proposed, levels, part) {
      if NoRoom(e.proposed, levels, part) {
        NoRoomMeansNoWaves(e.proposed, levels, part, e.waves);
        assert false;
      }
    }
    forall waves | |waves| == |levels| && Separated(e.proposed, levels, waves) ensures waves == e.waves {
      SeparationIsUnique(e.proposed, levels, waves, e.waves);
    }
  }

  /**
    The waves of the cells, or `None` when some wave would reach the limit.
    Every dependency points to an earlier cell, so the levels always exist.
   */
  method AssignWaves(proposed: seq<ProposedCell>, ids: seq<Id>, deps: seq<set<Id>>)
    returns (waves: Option<seq<nat>>, levels: seq<nat>)
    requires |proposed| == |ids| == |deps| && Distinct(ids) && DependsOnEarlier(ids, deps)
    ensures |levels| == |ids| && Levels(ids, deps, levels)
    ensures waves.Some? ==> |waves.value| == |ids| && Separated(proposed, levels, waves.value)
    ensures waves.Some? ==> forall i :: 0 <= i < |ids| ==> waves.value[i] < MAX_WAVES
    ensures waves.None? ==> TooDeep(proposed, levels)
  {
    var found := TopologicalWaves(ids, deps);
    levels := found.value;
    waves := SeparateMutating(proposed, found.value);
    if waves.Some? && exists i | 0 <= i < |waves.value| :: waves.value[i] >= MAX_WAVES {
      waves := None;
    }
  }

  /** A writer found no wave below the limit, or some cell ended at or past it. */
  ghost predicate TooDeep(proposed: seq<ProposedCell>, levels: seq<nat>)
    requires |proposed| == |levels|
  {
    || (exists part :: NoRoom(proposed, levels, part))
    || (exists waves :: |waves| == |levels| && Separated(proposed, levels, waves) &&
         exists i :: 0 <= i < |waves| && waves[i] >= MAX_WAVES)
  }

  method Harden(cells: seq<ProposedCell>, contract: Contract, runId: string)
    returns (r: Option<Graph>, ghost draft: Option<Draft>)
    ensures r.Some? <==> draft.Some?
    ensures r.Some? ==>
      var d := draft.value;
      Drafts(cells, contract, runId, d) && ValidDraft(d) && GraphOf(d, r.value) && r.value.horizon < MAX_WAVES
    ensures r.None? ==> forall d :: !Drafts(cells, contract, runId, d)
  {
    draft := None;
    var proposed := Prefix(Named(cells), MAX_PROPOSED_CELLS);
    if |proposed| < 2 {
      return None, None;
    }
    var ids := CellIds(runId, |proposed|);
    var deps := ResolveDependencies(proposed, ids);
    var waves, levels := AssignWaves(proposed, ids, deps);
    if waves.None? {
      forall d ensures !Drafts(cells, contract, runId, d) {
        if Drafts(cells, contract, runId, d) {
          NoDraft(cells, contract, runId, levels, d);
        }
      }
      return None, None;
    }
    var covered := Coverage(proposed, |contract.criteria|);
    if !covered {
      return None, None;
    }
    var clipped := Clipped(proposed);
    var total := SumReals(clipped);
    if total <= 0.0 {
      return None, None;
    }
    NormalizedAreShares(clipped);
    var shares := Scale(clipped, 1.0 / total);
    var d := Draft(contract, proposed, ids, deps, levels, waves.value, shares);
    var g := Assemble(d);
    return Some(g), Some(d);
  }

  function DraftCells(d: Draft): (cells: seq<Cell>)
    requires |d.ids| == |d.deps| == |d.waves| == |d.shares| == |d.proposed| <= 10
    requires forall i :: 0 <= i < |d.shares| ==> d.shares[i] >= 0.0
    ensures |cells| == |d.ids| && forall i :: 0 <= i < |cells| ==> cells[i] == CellOf(d, i)
  {
    seq(|d.ids|, i requires 0 <= i < |d.ids| => CellOf(d, i))
  }

  method Assemble(d: Draft) returns (g: Graph)
    requires ValidDraft(d) && forall i :: 0 <= i < |d.waves| ==> d.waves[i] < MAX_WAVES
    ensures GraphOf(d, g) && g.horizon < MAX_WAVES
  {
    var n := |d.ids|;
    var cells := DraftCells(d);
    HighestWaveBelow(d, cells);
    g := Graph(cells, EdgesOf(d.ids, d.deps, n), [d.ids[n - 1]], HighestWave(cells));
  }

  lemma {:induction false} HighestWaveBelow(d: Draft, cells: seq<Cell>)
    requires ValidDraft(d) && |cells| == |d.ids| && forall i :: 0 <= i < |cells| ==> cells[i] == CellOf(d, i)
    requires forall i :: 0 <= i < |d.waves| ==> d.waves[i] < MAX_WAVES
    ensures HighestWave(cells) < MAX_WAVES
  {
    var w := HighestWave(cells);
    var c :| c in cells && c.wave == w;
    var i :| 0 <= i < |cells| && cells[i] == c;
    assert c.wave == d.waves[i];
  }

  method Coverage(proposed: seq<ProposedCell>, n: nat) returns (all: bool)
    ensures all <==> CoversCriteria(proposed, n)
  {
    var covered: set<int> := {};
    for i := 0 to |proposed|
      invariant forall k :: k in covered <==> 0 <= k < n && Covered(proposed[..i], k)
    {
      assert proposed[..i + 1] == proposed[..i] + [proposed[i]];
      assert forall k :: Covered(proposed[..i + 1], k) <==>
        Covered(proposed[..i], k) || k in proposed[i].criterionIndices;
      var valid := ValidIndices(proposed[i].criterionIndices, n);
      covered := covered + (set k | k in valid);
    }
    assert proposed[..|proposed|] == proposed;
    all := forall k | 0 <= k < n :: k in covered;
  }

  // What validation can still object to in a hardened graph.

  /** The ids and dependencies of a hardened graph, without the rest. */
  ghost predicate Shape(ids: seq<Id>, deps: seq<set<Id>>, cells: seq<Cell>) {
    && |ids| == |deps| == |cells|
    && Distinct(ids)
    && (forall i :: 0 <= i < |cells| ==> cells[i].id == ids[i])
    && (forall i :: 0 <= i < |cells| ==> cells[i].dependencies == InOrder(ids, deps[i]))
    && (forall i, x :: 0 <= i < |cells| && x in deps[i] ==> OccursBefore(ids, i, x))
  }

  ghost predicate OccursBefore(ids: seq<Id>, i: nat, x: Id)
    requires i <= |ids|
  {
    exists j :: 0 <= j < i && ids[j] == x
  }

  lemma {:induction false} HardenedShape(d: Draft, g: Graph)
    requires ValidDraft(d) && GraphOf(d, g)
    ensures Shape(d.ids, d.deps, g.cells)
  {
    forall i | 0 <= i < |d.ids|
      ensures g.cells[i].id == d.ids[i] && g.cells[i].dependencies == InOrder(d.ids, d.deps[i])
    {
      assert g.cells[i] == CellOf(d, i);
    }
    EarlierOccur(d.ids, d.deps);
  }

  lemma {:induction false} EarlierOccur(ids: seq<Id>, deps: seq<set<Id>>)
    requires |ids| == |deps| && DependsOnEarlier(ids, deps)
    ensures forall i, x :: 0 <= i < |ids| && x in deps[i] ==> OccursBefore(ids, i, x)
  {
    forall i, x | 0 <= i < |ids| && x in deps[i] ensures OccursBefore(ids, i, x) {
      assert x in Elems(ids[..i]);
      var j :| 0 <= j < i && ids[..i][j] == x;
      assert ids[j] == x;
    }
  }

  lemma {:induction false} ShapeIds(ids: seq<Id>, deps: seq<set<Id>>, cells: seq<Cell>)
    requires Shape(ids, deps, cells)
    ensures UniqueIds(cells)
    ensures IdSet(cells) == Elems(ids)
    ensures forall i :: 0 <= i < |ids| ==> ids[i] in IdSet(cells)
  {
    forall x | x in IdSet(cells) ensures x in Elems(ids) {
      var c :| c in cells && c.id == x;
      var i :| 0 <= i < |cells| && cells[i] == c;
      assert ids[i] == x;
    }
    forall i | 0 <= i < |ids| ensures ids[i] in IdSet(cells) {
      assert cells[i] in cells;
    }
  }

  lemma {:induction false} ShapeLookup(ids: seq<Id>, deps: seq<set<Id>>, cells: seq<Cell>, i: nat)
    requires Shape(ids, deps, cells) && i < |ids|
    ensures ids[i] in ById(cells) && ById(cells)[ids[i]] == cells[i]
  {
    ShapeIds(ids, deps, cells);
    UniqueIdsGiveCell(cells, cells[i]);
  }

  /** A cell whose wave was bumped past its level to keep writers apart. */
  ghost predicate Bumped(d: Draft, id: Id)
    requires ValidDraft(d)
  {
    exists j :: 0 <= j < |d.ids| && d.ids[j] == id && IsMutating(d.proposed[j]) && d.levels[j] < d.waves[j]
  }

  lemma {:induction false} HardenedHeader(d: Draft, g: Graph, e: GraphError)
    requires ValidDraft(d) && GraphOf(d, g)
    ensures !HeaderFault(g, e)
  {
    HardenedShape(d, g);
    ShapeIds(d.ids, d.deps, g.cells);
  }

  lemma {:induction false} HardenedCells(d: Draft, g: Graph, e: GraphError)
    requires ValidDraft(d) && GraphOf(d, g) && CellError(e) && SomeCellFault(g.cells, e)
    ensures e.NotInEarlierWave? && Bumped(d, e.dependency)
  {
    HardenedShape(d, g);
    var i := FaultyCell(g.cells, e);
    HardenedCriteria(d, g, i);
    CellFaultIsLateWave(d.ids, d.deps, g.cells, i, e);
    var j := LateDependency(d.ids, d.deps, g.cells, i, e);
    assert g.cells[i] == CellOf(d, i) && g.cells[j] == CellOf(d, j);
    LateMeansBumped(d, i, j);
  }

  lemma {:induction false} FaultyCell(cells: seq<Cell>, e: GraphError) returns (i: nat)
    requires SomeCellFault(cells, e)
    ensures i < |cells| && CellFault(cells, cells[i], e)
  {
    var c :| c in cells && CellFault(cells, c, e);
    i :| 0 <= i < |cells| && cells[i] == c;
  }

  lemma {:induction false} HardenedCriteria(d: Draft, g: Graph, i: nat)
    requires ValidDraft(d) && GraphOf(d, g) && i < |d.ids|
    ensures Distinct(g.cells[i].criterionIndices)
    ensures forall k :: k in g.cells[i].criterionIndices ==> InRange(k, g.cells[i].contract.criteria)
  {
    assert g.cells[i] == CellOf(d, i);
  }

  /** By its shape a hardened cell can only have a wave error. */
  lemma {:induction false} CellFaultIsLateWave(ids: seq<Id>, deps: seq<set<Id>>, cells: seq<Cell>, i: nat,
                                               e: GraphError)
    requires Shape(ids, deps, cells) && i < |ids| && CellError(e) && CellFault(cells, cells[i], e)
    requires Distinct(cells[i].criterionIndices)
    requires forall k :: k in cells[i].criterionIndices ==> InRange(k, cells[i].contract.criteria)
    ensures e.NotInEarlierWave?
  {
    ShapeIds(ids, deps, cells);
    forall x | x in cells[i].dependencies ensures x != ids[i] && x in IdSet(cells) {
      assert OccursBefore(ids, i, x);
    }
  }

  lemma {:induction false} LateDependency(ids: seq<Id>, deps: seq<set<Id>>, cells: seq<Cell>, i: nat, e: GraphError)
    returns (j: nat)
    requires Shape(ids, deps, cells) && i < |ids| && e.NotInEarlierWave? && CellFault(cells, cells[i], e)
    ensures j < i && ids[j] == e.dependency && ids[j] in deps[i] && cells[j].wave >= cells[i].wave
  {
    assert OccursBefore(ids, i, e.dependency);
    j :| 0 <= j < i && ids[j] == e.dependency;
    ShapeLookup(ids, deps, cells, j);
  }

  lemma {:induction false} LateMeansBumped(d: Draft, i: nat, j: nat)
    requires ValidDraft(d) && j < i < |d.ids| && d.ids[j] in d.deps[i] && d.waves[j] >= d.waves[i]
    ensures Bumped(d, d.ids[j])
  {
    assert LevelAt(d.ids, d.deps, d.levels, i);
    assert FirstFree(d.proposed, d.levels, d.waves, i) && FirstFree(d.proposed, d.levels, d.waves, j);
  }

  lemma {:induction false} EdgesToAre(sources: seq<Id>, target: Id, e: Edge)
    ensures e in EdgesTo(sources, target) <==> e.kind == Blocks && e.target == target && e.source in sources
  {
    if e.kind == Blocks && e.target == target && e.source in sources {
      var k :| 0 <= k < |sources| && sources[k] == e.source;
      assert EdgesTo(sources, target)[k] == e;
    }
  }

  /** `x` is a resolved dependency of a cell with the id `target` among the first `n`. */
  ghost predicate ResolvedBefore(ids: seq<Id>, deps: seq<set<Id>>, n: nat, target: Id, x: Id)
    requires n <= |ids| == |deps|
  {
    x in ids && exists i :: 0 <= i < n && ids[i] == target && x in deps[i]
  }

  lemma {:induction false} EdgesOfAre(ids: seq<Id>, deps: seq<set<Id>>, n: nat, e: Edge)
    requires n <= |ids| == |deps|
    ensures e in EdgesOf(ids, deps, n) <==> e.kind == Blocks && ResolvedBefore(ids, deps, n, e.target, e.source)
  {
    EdgesIntoAre(ids, Sources(ids, deps), n, e);
  }

  lemma {:induction false} EdgesIntoAre(ids: seq<Id>, sources: seq<seq<Id>>, n: nat, e: Edge)
    requires n <= |ids| == |sources|
    ensures e in EdgesInto(ids, sources, n) <==>
            e.kind == Blocks && exists i :: 0 <= i < n && ids[i] == e.target && e.source in sources[i]
  {
    if n > 0 {
      EdgesIntoAre(ids, sources, n - 1, e);
      EdgesToAre(sources[n - 1], ids[n - 1], e);
    }
  }

  lemma {:induction false} EdgesOfDistinct(ids: seq<Id>, deps: seq<set<Id>>, n: nat)
    requires n <= |ids| == |deps| && Distinct(ids)
    ensures Distinct(EdgesOf(ids, deps, n))
  {
    EdgesIntoDistinct(ids, Sources(ids, deps), n);
  }

  lemma {:induction false} EdgesIntoDistinct(ids: seq<Id>, sources: seq<seq<Id>>, n: nat)
    requires n <= |ids| == |sources| && Distinct(ids) && forall i :: 0 <= i < |sources| ==> Distinct(sources[i])
    ensures Distinct(EdgesInto(ids, sources, n))
  {
    if n > 0 {
      EdgesIntoDistinct(ids, sources, n - 1);
      var front, back := EdgesInto(ids, sources, n - 1), EdgesTo(sources[n - 1], ids[n - 1]);
      forall i, j | 0 <= i < |front| && 0 <= j < |back| ensures front[i] != back[j] {
        EdgesIntoAre(ids, sources, n - 1, front[i]);
        assert front[i] in front;
        var k :| 0 <= k < n - 1 && ids[k] == front[i].target;
        assert back[j].target == ids[n - 1];
      }
      DistinctConcat(front, back);
    }
  }

  lemma {:induction false} DistinctConcat<T>(a: seq<T>, b: seq<T>)
    requires Distinct(a) && Distinct(b)
    requires forall i, j :: 0 <= i < |a| && 0 <= j < |b| ==> a[i] != b[j]
    ensures Distinct(a + b)
  {
  }

  lemma {:induction false} HardenedEdges(ids: seq<Id>, deps: seq<set<Id>>, g: Graph, e: GraphError)
    requires Shape(ids, deps, g.cells) && g.edges == EdgesOf(ids, deps, |ids|)
    ensures !EdgeFault(g, e)
  {
    EdgesOfDistinct(ids, deps, |ids|);
    BlockingAgrees(ids, deps, g.cells, g.edges);
    forall d | d in g.edges ensures !DanglingEdge(g.cells, d) {
      EdgesOfAre(ids, deps, |ids|, d);
      ShapeIds(ids, deps, g.cells);
      assert d.source in Elems(ids) && d.target in Elems(ids);
    }
  }

  lemma {:induction false} BlockingAgrees(ids: seq<Id>, deps: seq<set<Id>>, cells: seq<Cell>, edges: seq<Edge>)
    requires Shape(ids, deps, cells) && edges == EdgesOf(ids, deps, |ids|)
    ensures Blocking(edges) == ArcSet(DependencyArcs(cells, IdSet(cells)))
  {
    var known := IdSet(cells);
    forall a: Arc<Id> ensures a in Blocking(edges) <==> a in ArcSet(DependencyArcs(cells, known)) {
      BlockingArc(ids, deps, cells, edges, a);
    }
  }

  lemma {:induction false} BlockingArc(ids: seq<Id>, deps: seq<set<Id>>, cells: seq<Cell>, edges: seq<Edge>, a: Arc<Id>)
    requires Shape(ids, deps, cells) && edges == EdgesOf(ids, deps, |ids|)
    ensures a in Blocking(edges) <==> a in DependencyArcs(cells, IdSet(cells))
  {
    ArcMeansDependency(ids, deps, cells, a);
    var e := Edge(a.0, a.1, Blocks);
    EdgesOfAre(ids, deps, |ids|, e);
    assert a in Blocking(edges) <==> e in edges by {
      if a in Blocking(edges) {
        var f :| f in edges && f.kind == Blocks && (f.source, f.target) == a;
        assert f == e;
      }
    }
  }

  /** An arc of the dependency relation is a resolved dependency. */
  lemma {:induction false} ArcMeansDependency(ids: seq<Id>, deps: seq<set<Id>>, cells: seq<Cell>, a: Arc<Id>)
    requires Shape(ids, deps, cells)
    ensures a in DependencyArcs(cells, IdSet(cells)) <==> ResolvedBefore(ids, deps, |ids|, a.1, a.0)
  {
    ShapeIds(ids, deps, cells);
    DependencyArcsAre(cells, IdSet(cells), a);
    if ResolvedBefore(ids, deps, |ids|, a.1, a.0) {
      var i :| 0 <= i < |ids| && ids[i] == a.1 && a.0 in deps[i];
      assert cells[i] in cells && a.0 in cells[i].dependencies;
      assert a.0 in Elems(ids);
    }
    if a in DependencyArcs(cells, IdSet(cells)) {
      var c :| c in cells && c.id == a.1 && a.0 in c.dependencies;
      var i :| 0 <= i < |cells| && cells[i] == c;
      assert ids[i] == a.1 && a.0 in ids && a.0 in deps[i];
    }
  }

  /** Dependencies point to earlier positions, so the id order is a topological order. */
  lemma {:induction false} ShapeAcyclic(ids: seq<Id>, deps: seq<set<Id>>, cells: seq<Cell>)
    requires Shape(ids, deps, cells)
    ensures !HasCycle(DependencyArcs(cells, IdSet(cells)))
  {
    ShapeIds(ids, deps, cells);
    var known := IdSet(cells);
    var arcs := DependencyArcs(cells, known);
    forall a | a in arcs ensures a.0 in known && a.1 in known {
      DependencyArcsAre(cells, known, a);
    }
    forall i, n | 0 <= i < |ids| && (n, ids[i]) in arcs ensures n in ids[..i] {
      ArcFromEarlier(ids, deps, cells, i, n);
    }
    OrderExcludesCycle(known, arcs, ids);
  }

  lemma {:induction false} ArcFromEarlier(ids: seq<Id>, deps: seq<set<Id>>, cells: seq<Cell>, i: nat, n: Id)
    requires Shape(ids, deps, cells) && i < |ids| && (n, ids[i]) in DependencyArcs(cells, IdSet(cells))
    ensures n in ids[..i]
  {
    ArcMeansDependency(ids, deps, cells, (n, ids[i]));
    assert OccursBefore(ids, i, n);
    var j :| 0 <= j < i && ids[j] == n;
    assert ids[..i][j] == n;
  }

  lemma {:induction false} HardenedBudgets(d: Draft, g: Graph, e: GraphError)
    requires ValidDraft(d) && GraphOf(d, g) && BudgetFault(g.cells, Some(d.contract.budget), e)
    ensures e.TokenCapExceeded? || e.CostCapExceeded?
  {
    forall c | c in g.cells
      ensures d.contract.budget.tokenLimit.Some? ==> c.contract.budget.tokenLimit.Some?
      ensures d.contract.budget.costLimit.Some? ==> c.contract.budget.costLimit.Some?
    {
      var i :| 0 <= i < |g.cells| && g.cells[i] == c;
      assert c == CellOf(d, i);
    }
  }

  lemma {:induction false} TokenLimitsAreParts(cells: seq<Cell>, limit: nat, shares: seq<real>)
    requires |cells| == |shares| && forall i :: 0 <= i < |cells| ==> shares[i] >= 0.0
    requires forall i :: 0 <= i < |cells| ==> cells[i].contract.budget.tokenLimit == Some(TokenPart(limit, shares[i]))
    ensures TokenLimits(cells) == TokenParts(limit, shares)
  {
    if cells != [] {
      var n := |cells| - 1;
      TokenLimitsAreParts(cells[..n], limit, shares[..n]);
      assert TokenParts(limit, shares) == TokenParts(limit, shares[..n]) + [TokenPart(limit, shares[n])];
    }
  }

  lemma {:induction false} CostLimitsAreParts(cells: seq<Cell>, limit: Money, shares: seq<real>)
    requires |cells| == |shares| && forall i :: 0 <= i < |cells| ==> shares[i] >= 0.0
    requires forall i :: 0 <= i < |cells| ==> cells[i].contract.budget.costLimit == Some(CostPart(limit, shares[i]))
    ensures CostLimits(cells) == CostParts(limit, shares)
  {
    if cells != [] {
      var n := |cells| - 1;
      CostLimitsAreParts(cells[..n], limit, shares[..n]);
      assert CostParts(limit, shares) == CostParts(limit, shares[..n]) + [CostPart(limit, shares[n])];
    }
  }

  /** The token cap can only stop a hardened graph whose contract already exceeds it. */
  lemma {:induction false} HardenedTokenCap(d: Draft, g: Graph)
    requires ValidDraft(d) && GraphOf(d, g)
    requires BudgetFault(g.cells, Some(d.contract.budget), TokenCapExceeded)
    ensures d.contract.budget.tokenLimit.Some? && d.contract.budget.tokenLimit.value > MAX_TOTAL_TOKEN_BUDGET
  {
    assert g.cells[0] in g.cells && g.cells[0] == CellOf(d, 0);
    TokenLimitsAreParts(g.cells, d.contract.budget.tokenLimit.value, d.shares);
    TokenSplitWithinLimit(d.contract.budget.tokenLimit.value, d.shares);
  }

  /** The cost cap can stop a contract up to half a micro-dollar per cell below it, but no further. */
  lemma {:induction false} HardenedCostCap(d: Draft, g: Graph)
    requires ValidDraft(d) && GraphOf(d, g)
    requires BudgetFault(g.cells, Some(d.contract.budget), CostCapExceeded)
    ensures d.contract.budget.costLimit.Some?
    ensures d.contract.budget.costLimit.value > MAX_TOTAL_COST_USD - |d.ids| as real * 0.0000005
  {
    assert g.cells[0] in g.cells && g.cells[0] == CellOf(d, 0);
    CostLimitsAreParts(g.cells, d.contract.budget.costLimit.value, d.shares);
    CostSplitNearLimit(d.contract.budget.costLimit.value, d.shares);
  }

  lemma {:induction false} HardenedWritersApart(d: Draft, g: Graph, w: nat)
    requires ValidDraft(d) && GraphOf(d, g)
    ensures !CrowdedBefore(g.cells, |g.cells|, w)
  {
    forall i, j | 0 <= i < j < |g.cells| && g.cells[i].mode.Mutating? && g.cells[j].mode.Mutating?
      ensures g.cells[i].wave != g.cells[j].wave
    {
      WritersAreApart(d.proposed, d.levels, d.waves, i, j);
    }
  }

  /** A hardened graph fails validation only by a wave error on a bumped writer or by a total-budget cap. */
  lemma {:induction false} HardenedFaults(d: Draft, g: Graph, e: GraphError)
    requires ValidDraft(d) && GraphOf(d, g) && Fault(g, Some(d.contract.budget), None, e)
    ensures e.TokenCapExceeded? || e.CostCapExceeded? || (e.NotInEarlierWave? && Bumped(d, e.dependency))
  {
    HardenedShape(d, g);
    if HeaderError(e) {
      HardenedHeader(d, g, e);
    } else if CellError(e) {
      HardenedCells(d, g, e);
    } else if EdgeError(e) {
      HardenedEdges(d.ids, d.deps, g, e);
    } else if e.Cycle? {
      ShapeIds(d.ids, d.deps, g.cells);
      ShapeAcyclic(d.ids, d.deps, g.cells);
    } else if BudgetError(e) {
      HardenedBudgets(d, g, e);
    } else if e.CrowdedWave? {
      HardenedWritersApart(d, g, e.wave);
    }
  }

  // The plan: the hardened graph when it is valid, else one cell for the whole contract.

  function FallbackGraph(contract: Contract, runId: string): Graph {
    var indices := seq(|contract.criteria|, i requires 0 <= i < |contract.criteria| => i);
    var cell := Cell(Id("cell-" + runId), Prefix(contract.objective, 50), 0, Mutating, contract, CellStatus.Pending, [],
      indices);
    Graph([cell], [], [cell.id], 0)
  }

  predicate OverCap(b: Budget) {
    || (b.tokenLimit.Some? && b.tokenLimit.value > MAX_TOTAL_TOKEN_BUDGET)
    || (b.costLimit.Some? && b.costLimit.value > MAX_TOTAL_COST_USD)
  }

  /** Everything validation reads of a one-cell graph, computed. */
  lemma {:induction false} SingleCellFacts(cell: Cell)
    ensures var cells := [cell];
      && HighestWave(cells) == cell.wave && IdSet(cells) == {cell.id}
      && TokenLimits(cells) == (match cell.contract.budget.tokenLimit case Some(n) => [n] case None => [])
      && CostLimits(cells) == (match cell.contract.budget.costLimit case Some(r) => [r] case None => [])
      && (cell.dependencies == [] ==> DependencyArcs(cells, IdSet(cells)) == [])
    ensures cell.contract.budget.tokenLimit.Some? ==>
      SumNats(TokenLimits([cell])) == cell.contract.budget.tokenLimit.value
    ensures cell.contract.budget.costLimit.Some? ==>
      SumReals(CostLimits([cell])) == cell.contract.budget.costLimit.value
  {
    var cells := [cell];
    assert cells[..0] == [];
    assert HighestWave(cells[..0]) == 0;
    assert TokenLimits(cells[..0]) == [] && CostLimits(cells[..0]) == [];
    assert DependencyArcs(cells[..0], IdSet(cells)) == [];
    if cell.contract.budget.tokenLimit.Some? {
      assert [cell.contract.budget.tokenLimit.value][..0] == [];
    }
    if cell.contract.budget.costLimit.Some? {
      assert [cell.contract.budget.costLimit.value][..0] == [];
    }
  }

  predicate Solitary(cell: Cell) {
    && cell.dependencies == [] && Distinct(cell.criterionIndices)
    && forall k :: k in cell.criterionIndices ==> InRange(k, cell.contract.criteria)
  }

  lemma {:induction false} SolitaryHeader(cell: Cell, e: GraphError)
    ensures !HeaderFault(Graph([cell], [], [cell.id], cell.wave), e)
  {
    SingleCellFacts(cell);
  }

  lemma {:induction false} SolitaryCell(cell: Cell, e: GraphError)
    requires Solitary(cell)
    ensures !SomeCellFault([cell], e)
  {
    assert !CellFault([cell], cell, e);
  }

  lemma {:induction false} SolitaryEdges(cell: Cell, m: seq<Id>, h: nat, e: GraphError)
    requires Solitary(cell)
    ensures !EdgeFault(Graph([cell], [], m, h), e)
  {
    SingleCellFacts(cell);
    assert Blocking([]) == {} == ArcSet([]);
  }

  lemma {:induction false} SolitaryCycle(cell: Cell)
    requires Solitary(cell)
    ensures !CycleFault([cell])
  {
    SingleCellFacts(cell);
    NoArcsNoCycle();
  }

  lemma {:induction false} SolitaryBudget(cell: Cell, e: GraphError)
    ensures BudgetFault([cell], Some(cell.contract.budget), e) <==>
      || (e.TokenCapExceeded? && cell.contract.budget.tokenLimit.Some? &&
           cell.contract.budget.tokenLimit.value > MAX_TOTAL_TOKEN_BUDGET)
      || (e.CostCapExceeded? && cell.contract.budget.costLimit.Some? &&
           cell.contract.budget.costLimit.value > MAX_TOTAL_COST_USD)
  {
    SingleCellFacts(cell);
  }

  lemma {:induction false} FallbackFaults(contract: Contract, runId: string, e: GraphError)
    ensures Fault(FallbackGraph(contract, runId), Some(contract.budget), None, e) <==>
      || (e.TokenCapExceeded? && contract.budget.tokenLimit.Some? &&
           contract.budget.tokenLimit.value > MAX_TOTAL_TOKEN_BUDGET)
      || (e.CostCapExceeded? && contract.budget.costLimit.Some? && contract.budget.costLimit.value > MAX_TOTAL_COST_USD)
  {
    var g := FallbackGraph(contract, runId);
    var cell := g.cells[0];
    assert g.cells == [cell] && Solitary(cell);
    if HeaderError(e) {
      SolitaryHeader(cell, e);
    } else if CellError(e) {
      SolitaryCell(cell, e);
    } else if EdgeError(e) {
      SolitaryEdges(cell, g.milestones, g.horizon, e);
    } else if BudgetError(e) {
      SolitaryBudget(cell, e);
    } else if e.Cycle? {
      SolitaryCycle(cell);
    } else if e.CrowdedWave? {
      assert !CrowdedBefore([cell], 1, e.wave);
    }
  }

  lemma {:induction false} NoArcsNoCycle()
    ensures !HasCycle<Id>([])
  {
    forall p: seq<Id> | |p| >= 2 ensures !IsWalk<Id>([], p) {
      var none: seq<Arc<Id>> := [];
      assert (p[0], p[1]) !in none;
    }
  }

  ghost predicate IsHardened(cells: seq<ProposedCell>, contract: Contract, runId: string, g: Graph) {
    exists d :: DraftOf(cells, contract, runId, d, g)
  }

  ghost predicate DraftOf(cells: seq<ProposedCell>, contract: Contract, runId: string, d: Draft, g: Graph) {
    Drafts(cells, contract, runId, d) && ValidDraft(d) && GraphOf(d, g)
  }

  lemma {:induction false} GraphIsUnique(d: Draft, g: Graph, h: Graph)
    requires ValidDraft(d) && GraphOf(d, g) && GraphOf(d, h)
    ensures g == h
  {
    forall i | 0 <= i < |g.cells| ensures g.cells[i] == h.cells[i] {
      assert g.cells[i] == CellOf(d, i);
    }
    assert g.cells == h.cells;
  }

  /** A proposal hardens to at most one graph. */
  lemma {:induction false} HardenedIsUnique(cells: seq<ProposedCell>, contract: Contract, runId: string, g: Graph,
                                            h: Graph)
    requires IsHardened(cells, contract, runId, g) && IsHardened(cells, contract, runId, h)
    ensures g == h
  {
    var d :| DraftOf(cells, contract, runId, d, g);
    var e :| DraftOf(cells, contract, runId, e, h);
    DraftIsUnique(cells, contract, runId, d, e);
    GraphIsUnique(d, g, h);
  }

  /** The hardened graph when there is one and it validates, else the fallback. */
  ghost predicate PlannedFrom(hardened: Option<Graph>, contract: Contract, runId: string, g: Graph) {
    g == if hardened.Some? && Accepted(hardened.value, Some(contract.budget), None) then hardened.value
         else FallbackGraph(contract, runId)
  }

  /** A plan is error-free, or it is the fallback of a contract over a cap. */
  lemma {:induction false} PlansAreAccepted(hardened: Option<Graph>, contract: Contract, runId: string, g: Graph)
    requires PlannedFrom(hardened, contract, runId, g)
    ensures Accepted(g, Some(contract.budget), None) ||
      (g == FallbackGraph(contract, runId) && OverCap(contract.budget))
  {
    FallbackAccepted(contract, runId);
  }

  lemma {:induction false} FallbackAccepted(contract: Contract, runId: string)
    ensures Accepted(FallbackGraph(contract, runId), Some(contract.budget), None) <==> !OverCap(contract.budget)
  {
    var g := FallbackGraph(contract, runId);
    forall e | !OverCap(contract.budget) ensures !Fault(g, Some(contract.budget), None, e) {
      FallbackFaults(contract, runId, e);
    }
    FallbackFaults(contract, runId, TokenCapExceeded);
    FallbackFaults(contract, runId, CostCapExceeded);
  }

  // The wave limit of a run, which planning does not look at.

  lemma {:induction false} WaveLimitOnlyCounts(g: Graph, runBudget: Option<Budget>, maxWaves: nat)
    ensures Accepted(g, runBudget, Some(maxWaves)) <==>
            Accepted(g, runBudget, None) && |MutatingCells(g.cells)| <= maxWaves
  {
    if Accepted(g, runBudget, Some(maxWaves)) {
      assert !Fault(g, runBudget, Some(maxWaves), TooManyMutating);
      forall e ensures !Fault(g, runBudget, None, e) {
        assert !Fault(g, runBudget, Some(maxWaves), e);
      }
    }
    if Accepted(g, runBudget, None) && |MutatingCells(g.cells)| <= maxWaves {
      forall e ensures !Fault(g, runBudget, Some(maxWaves), e) {
        assert !Fault(g, runBudget, None, e);
      }
    }
  }

  /**
   * A run accepts a plan exactly when its waves suffice for the writers and the plan is not the fallback over a cap.
   */
  lemma {:induction false} RunAcceptsPlanIff(hardened: Option<Graph>, contract: Contract, runId: string, g: Graph,
                                             maxWaves: nat)
    requires PlannedFrom(hardened, contract, runId, g)
    ensures Accepted(g, Some(contract.budget), Some(maxWaves)) <==>
            |MutatingCells(g.cells)| <= maxWaves && !(g == FallbackGraph(contract, runId) && OverCap(contract.budget))
  {
    WaveLimitOnlyCounts(g, Some(contract.budget), maxWaves);
    PlansAreAccepted(hardened, contract, runId, g);
    FallbackAccepted(contract, runId);
  }

  /** Two writers that depend on nothing, for a contract without limits or criteria. */
  function TwoWriters(): seq<ProposedCell> {
    [ProposedCell("a", "mutating", [], [], 0.5), ProposedCell("b", "mutating", [], [], 0.5)]
  }

  function PlainContract(): Contract { Contract("c", 1, "", UNLIMITED, []) }

  function TwoDraft(runId: string): Draft {
    Draft(PlainContract(), TwoWriters(), CellIds(runId, 2), [{}, {}], [0, 0], [0, 1], [0.5, 0.5])
  }

  lemma {:induction false} BothAreNamed()
    ensures Prefix(Named(TwoWriters()), MAX_PROPOSED_CELLS) == TwoWriters()
  {
    var cells := TwoWriters();
    assert Trimmed("a") && Trimmed("b");
    StripKeepsTrimmed("a");
    StripKeepsTrimmed("b");
    assert cells[..1][..0] == [] && cells[..1] == [cells[0]];
    assert Named(cells[..1]) == [cells[0]];
  }

  lemma {:induction false} HalfShares()
    ensures SumReals(Clipped(TwoWriters())) == 1.0 && NormalizedShares(TwoWriters()) == [0.5, 0.5]
  {
    var s := Clipped(TwoWriters());
    assert s == [0.5, 0.5] && s[..1][..0] == [] && s[..1] == [0.5];
    assert SumReals(s[..1]) == 0.5;
    assert NormalizedShares(TwoWriters()) == [0.5, 0.5];
  }

  lemma {:induction false} NoDependencies(ids: seq<Id>)
    requires |ids| == 2
    ensures Dependencies(TwoWriters(), ids) == [{}, {}]
    ensures Levels(ids, [{}, {}], [0, 0]) && DependsOnEarlier(ids, [{}, {}])
  {
    var deps: seq<set<Id>> := [{}, {}];
    forall i | 0 <= i < 2 ensures LevelAt(ids, deps, [0, 0], i) && Dependencies(TwoWriters(), ids)[i] == {} {
      assert TwoWriters()[i].dependsOn == [];
    }
    assert Dependencies(TwoWriters(), ids) == deps;
  }

  lemma {:induction false} SecondIsBumped()
    ensures Separated(TwoWriters(), [0, 0], [0, 1])
  {
    var waves: seq<nat> := [0, 1];
    assert IsMutating(TwoWriters()[0]) && waves[0] == 0;
    assert TakenEarlier(TwoWriters(), waves, 1, 0);
    assert FirstFree(TwoWriters(), [0, 0], waves, 0) && FirstFree(TwoWriters(), [0, 0], waves, 1);
  }

  lemma {:induction false} TwoDraftIsDraft(runId: string)
    ensures Drafts(TwoWriters(), PlainContract(), runId, TwoDraft(runId)) && ValidDraft(TwoDraft(runId))
  {
    BothAreNamed();
    HalfShares();
    NoDependencies(CellIds(runId, 2));
    SecondIsBumped();
    NormalizedAreShares(Clipped(TwoWriters()));
  }

  /** The graph that the two writers harden to. */
  ghost function TwoGraph(runId: string): Graph {
    var d := TwoDraft(runId);
    var cells := [CellOf(d, 0), CellOf(d, 1)];
    Graph(cells, EdgesOf(d.ids, d.deps, 2), [d.ids[1]], HighestWave(cells))
  }

  lemma {:induction false} TwoGraphIsAccepted(runId: string, e: GraphError)
    requires ValidDraft(TwoDraft(runId)) && GraphOf(TwoDraft(runId), TwoGraph(runId))
    ensures !Fault(TwoGraph(runId), Some(UNLIMITED), None, e)
  {
    var d, g := TwoDraft(runId), TwoGraph(runId);
    if Fault(g, Some(UNLIMITED), None, e) {
      HardenedFaults(d, g, e);
      if e.TokenCapExceeded? {
        HardenedTokenCap(d, g);
      } else if e.CostCapExceeded? {
        HardenedCostCap(d, g);
      } else {
        NobodyIsLate(runId, e);
      }
    }
  }

  lemma {:induction false} NobodyIsLate(runId: string, e: GraphError)
    requires e.NotInEarlierWave?
    ensures !SomeCellFault(TwoGraph(runId).cells, e)
  {
    NoneInOrder(TwoDraft(runId).ids);
    forall c | c in TwoGraph(runId).cells ensures c.dependencies == [] {
    }
  }

  lemma {:induction false} NoneInOrder(ids: seq<Id>)
    ensures InOrder(ids, {}) == []
  {
    if ids != [] {
      NoneInOrder(ids[..|ids| - 1]);
    }
  }

  lemma {:induction false} BothAreWriters(runId: string)
    ensures |MutatingCells(TwoGraph(runId).cells)| == 2
  {
    var cells := TwoGraph(runId).cells;
    assert cells[..1][..0] == [] && cells[..1] == [cells[0]];
    assert MutatingCells(cells[..1]) == [cells[0]];
  }

  /** A plan can be error-free for the planner and still be rejected by a run of one wave. */
  lemma {:induction false} PlannedButRejected(runId: string)
    ensures IsHardened(TwoWriters(), PlainContract(), runId, TwoGraph(runId))
    ensures PlannedFrom(Some(TwoGraph(runId)), PlainContract(), runId, TwoGraph(runId))
    ensures !Accepted(TwoGraph(runId), Some(PlainContract().budget), Some(1))
  {
    var g := TwoGraph(runId);
    TwoDraftIsDraft(runId);
    assert GraphOf(TwoDraft(runId), g);
    assert DraftOf(TwoWriters(), PlainContract(), runId, TwoDraft(runId), g);
    forall e ensures !Fault(g, Some(UNLIMITED), None, e) {
      TwoGraphIsAccepted(runId, e);
    }
    BothAreWriters(runId);
    WaveLimitOnlyCounts(g, Some(UNLIMITED), 1);
  }
}
