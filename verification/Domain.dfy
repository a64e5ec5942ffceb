/** Values shared by every component: budgets, contracts, cells, graphs, outcomes. */
module Domain {

  datatype Option<+T> = None | Some(value: T)

  /** Costs and limits are validated as non-negative when they are parsed. */
  type Money = r: real | r >= 0.0

  /** Limits of a run or of a cell. `None` is unlimited; so are `maxCalls == 0` and `maxRetries == 0`. */
  datatype Budget = Budget(
    tokenLimit: Option<nat>,
    costLimit: Option<Money>,
    maxCalls: nat,
    maxToolRounds: nat,
    maxRetries: nat)

  const UNLIMITED := Budget(None, None, 0, 0, 0)

  /** Resources consumed by one attempt, or accumulated over a whole run. */
  datatype Spend = Spend(inputTokens: nat, outputTokens: nat, cost: Money, calls: nat) {
    function Tokens(): nat { inputTokens + outputTokens }

    function Plus(other: Spend): Spend {
      Spend(inputTokens + other.inputTokens, outputTokens + other.outputTokens,
            cost + other.cost, calls + other.calls)
    }
  }

  const NO_SPEND := Spend(0, 0, 0.0, 0)

  function SumSpend(spends: seq<Spend>): Spend {
    if spends == [] then NO_SPEND else SumSpend(spends[..|spends| - 1]).Plus(spends[|spends| - 1])
  }

  datatype RemainingBudget = RemainingBudget(tokens: Option<nat>, cost: Option<Money>, calls: Option<nat>)

  function RealMax(a: real, b: real): real { if a < b then b else a }

  /** Headroom after `used`, never negative; an axis without a limit stays unlimited. */
  function Remaining(budget: Budget, used: Spend): RemainingBudget {
    RemainingBudget(
      if budget.tokenLimit.Some? then Some(Max(0, budget.tokenLimit.value - used.Tokens())) else None,
      if budget.costLimit.Some? then Some(RealMax(0.0, budget.costLimit.value - used.cost)) else None,
      if budget.maxCalls != 0 then Some(Max(0, budget.maxCalls - used.calls)) else None)
  }

  datatype HardKind = Command | FileDiff | TreeDigest | Schema | Policy

  /** `UnknownKind` is a kind string that the release law does not recognise. */
  datatype CriterionKind = Hard(hard: HardKind) | SoftRubric | UnknownKind(text: string)

  datatype Criterion = Criterion(kind: CriterionKind, description: string)

  datatype Contract = Contract(id: string, version: nat, objective: string, budget: Budget, criteria: seq<Criterion>)

  /** The name of a cell, as it appears in graphs and events. */
  datatype Id = Id(text: string)

  datatype CellMode = ReadOnly | Mutating

  datatype CellStatus = Pending | Ready | Running | Completed | Failed | CellVerified

  datatype Cell = Cell(
    id: Id,
    name: string,
    wave: nat,
    mode: CellMode,
    contract: Contract,
    status: CellStatus,
    dependencies: seq<Id>,
    criterionIndices: seq<int>)

  datatype EdgeKind = Blocks | OtherKind(text: string)

  datatype Edge = Edge(source: Id, target: Id, kind: EdgeKind)

  datatype Graph = Graph(cells: seq<Cell>, edges: seq<Edge>, milestones: seq<Id>, horizon: nat)

  datatype RunOutcome = Verified | Abstained | FailedRun

  /** What a cell can end a run with before verification: never `Verified`. */
  type ShortOutcome = o: RunOutcome | o != Verified witness Abstained

  function Max(a: int, b: int): int { if a < b then b else a }

  function Min(a: int, b: int): int { if a < b then a else b }

  /** The numbers below `n`, in order. */
  function Range(n: nat): (s: seq<nat>)
    ensures |s| == n && forall i :: 0 <= i < n ==> s[i] == i
    ensures forall i :: i in s <==> 0 <= i < n
  {
    if n == 0 then [] else Range(n - 1) + [n - 1]
  }

  /** The ids of a list of cells, in order. */
  function Ids(cells: seq<Cell>): (ids: seq<Id>)
    ensures |ids| == |cells|
    ensures forall i :: 0 <= i < |cells| ==> ids[i] == cells[i].id
  {
    seq(|cells|, i requires 0 <= i < |cells| => cells[i].id)
  }

  function IdSet(cells: seq<Cell>): (ids: set<Id>) {
    set c | c in cells :: c.id
  }

  predicate Distinct<T(==)>(s: seq<T>) {
    forall i, j :: 0 <= i < j < |s| ==> s[i] != s[j]
  }

  predicate UniqueIds(cells: seq<Cell>) {
    forall i, j :: 0 <= i < j < |cells| ==> cells[i].id != cells[j].id
  }

  /** A list has as many distinct values as entries exactly when no value repeats. */
  lemma {:induction false} DistinctIffSetSize<T>(s: seq<T>)
    ensures |set x | x in s| <= |s|
    ensures |set x | x in s| == |s| <==> Distinct(s)
  {
    if s == [] {
      assert (set x | x in s) == {};
    } else {
      var last, front := s[|s| - 1], s[..|s| - 1];
      var all, rest := set x | x in s, set x | x in front;
      DistinctIffSetSize(front);
      assert s == front + [last];
      assert all == rest + {last};
      if last in front {
        assert all == rest;
        var i :| 0 <= i < |front| && front[i] == last;
        assert s[i] == s[|s| - 1];
      } else {
        assert |all| == |rest| + 1;
        assert Distinct(front) ==> Distinct(s);
        assert Distinct(s) ==> Distinct(front);
      }
    }
  }

  /** Sums of real sequences, used for shares and split costs. */
  function SumReals(s: seq<real>): real {
    if s == [] then 0.0 else SumReals(s[..|s| - 1]) + s[|s| - 1]
  }

  function SumNats(s: seq<nat>): nat {
    if s == [] then 0 else SumNats(s[..|s| - 1]) + s[|s| - 1]
  }

  lemma {:induction false} PlusAssociates(a: Spend, b: Spend, c: Spend)
    ensures a.Plus(b).Plus(c) == a.Plus(b.Plus(c))
    ensures a.Plus(NO_SPEND) == a
  {
  }

  lemma {:induction false} SumSpendSnoc(s: seq<Spend>, x: Spend)
    ensures SumSpend(s + [x]) == SumSpend(s).Plus(x)
  {
    assert (s + [x])[..|s + [x]| - 1] == s;
  }

  lemma {:induction false} SumSpendAppend(a: seq<Spend>, b: seq<Spend>)
    ensures SumSpend(a + b) == SumSpend(a).Plus(SumSpend(b))
  {
    if b == [] {
      assert a + b == a;
      PlusAssociates(SumSpend(a), NO_SPEND, NO_SPEND);
    } else {
      var front, last := b[..|b| - 1], b[|b| - 1];
      SumSpendAppend(a, front);
      SumSpendSnoc(a + front, last);
      SumSpendSnoc(front, last);
      assert a + b == (a + front) + [last];
      assert b == front + [last];
      PlusAssociates(SumSpend(a), SumSpend(front), last);
    }
  }
}
