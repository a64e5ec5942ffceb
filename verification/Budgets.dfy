/** The single owner of spend: reservations against one budget, and how its view agrees with usage totals. */
module Budgets {
  import opened Domain

  const EPSILON: real := 0.000000001

  // What the authority does, on values.

  /** An active reservation: its number and the estimate it holds. */
  datatype Held = Held(id: nat, estimate: Spend)

  datatype Account = Account(committed: Totals, held: seq<Held>)

  datatype Totals = Totals(tokens: nat, cost: Money, calls: nat) {
    function Plus(s: Spend): Totals { Totals(tokens + s.Tokens(), cost + s.cost, calls + s.calls) }
  }

  const NOTHING := Totals(0, 0.0, 0)

  const OPENED := Account(NOTHING, [])

  /** Everything that the active reservations hold. */
  function Reserved(held: seq<Held>): Totals {
    if held == [] then NOTHING else Reserved(held[..|held| - 1]).Plus(held[|held| - 1].estimate)
  }

  function Total(a: Account): Totals {
    var r := Reserved(a.held);
    Totals(a.committed.tokens + r.tokens, a.committed.cost + r.cost, a.committed.calls + r.calls)
  }

  /** Adding `s` would pass a limit; only the cost axis has a tolerance. */
  predicate PassesLimit(b: Budget, t: Totals, s: Spend) {
    || (b.tokenLimit.Some? && t.tokens + s.Tokens() > b.tokenLimit.value)
    || (b.costLimit.Some? && t.cost + s.cost > b.costLimit.value + EPSILON)
    || (b.maxCalls != 0 && t.calls + s.calls > b.maxCalls)
  }

  predicate Overspends(actual: Spend, estimate: Spend) {
    actual.Tokens() > estimate.Tokens() || actual.cost > estimate.cost + EPSILON || actual.calls > estimate.calls
  }

  function Without<T>(held: seq<T>, i: nat): seq<T>
    requires i < |held|
  {
    held[..i] + held[i + 1..]
  }

  datatype Op = Reserve(id: nat, estimate: Spend) | Commit(id: nat, actual: Spend) | Release(id: nat)

  /** The position of a reservation; none if it is foreign or already settled. */
  function Find(held: seq<Held>, id: nat): (i: Option<nat>)
    ensures i.Some? ==> i.value < |held| && held[i.value].id == id
    ensures i.None? ==> forall k :: 0 <= k < |held| ==> held[k].id != id
  {
    if held == [] then None
    else if held[|held| - 1].id == id then Some(|held| - 1)
    else Find(held[..|held| - 1], id)
  }

  predicate Refused(b: Budget, a: Account, op: Op) {
    match op
    case Reserve(id, estimate) => PassesLimit(b, Total(a), estimate)
    case Commit(id, actual) => var i := Find(a.held, id); i.None? || Overspends(actual, a.held[i.value].estimate)
    case Release(id) => Find(a.held, id).None?
  }

  /** One operation of any caller; a refused one changes nothing. */
  function Apply(b: Budget, a: Account, op: Op): Account {
    if Refused(b, a, op) then a
    else
      match op
      case Reserve(id, estimate) => a.(held := a.held + [Held(id, estimate)])
      case Commit(id, actual) => Account(a.committed.Plus(actual), Without(a.held, Find(a.held, id).value))
      case Release(id) => a.(held := Without(a.held, Find(a.held, id).value))
  }

  function ApplyAll(b: Budget, ops: seq<Op>): Account {
    if ops == [] then OPENED else Apply(b, ApplyAll(b, ops[..|ops| - 1]), ops[|ops| - 1])
  }

  /** How many of the operations were commits that went through. */
  function Commits(b: Budget, ops: seq<Op>): nat {
    if ops == [] then 0
    else
      var last := ops[|ops| - 1];
      Commits(b, ops[..|ops| - 1]) +
      if last.Commit? && !Refused(b, ApplyAll(b, ops[..|ops| - 1]), last) then 1 else 0
  }

  // Reservations may be settled in any order.

  lemma {:induction false} TotalsPlusCommutes(t: Totals, x: Spend, y: Spend)
    ensures t.Plus(x).Plus(y) == t.Plus(y).Plus(x)
  {
    assert t.cost + x.cost + y.cost == t.cost + y.cost + x.cost;
  }

  lemma {:induction false} ReservedWithout(held: seq<Held>, i: nat)
    requires i < |held|
    ensures Reserved(held) == Reserved(Without(held, i)).Plus(held[i].estimate)
  {
    var front, last := held[..|held| - 1], held[|held| - 1];
    if i == |front| {
      assert Without(held, i) == front;
    } else {
      ReservedWithout(front, i);
      assert Without(held, i)[..|held| - 2] == Without(front, i);
      TotalsPlusCommutes(Reserved(Without(front, i)), front[i].estimate, last.estimate);
    }
  }

  lemma {:induction false} ReservedSnoc(held: seq<Held>, h: Held)
    ensures Reserved(held + [h]) == Reserved(held).Plus(h.estimate)
  {
    assert (held + [h])[..|held|] == held;
  }

  // Over every sequence of operations the limits hold, the cost limit up to accumulated tolerance.

  predicate WithinLimits(b: Budget, t: Totals, slack: real) {
    && (b.tokenLimit.Some? ==> t.tokens <= b.tokenLimit.value)
    && (b.costLimit.Some? ==> t.cost <= b.costLimit.value + slack)
    && (b.maxCalls != 0 ==> t.calls <= b.maxCalls)
  }

  function Slack(commits: nat): real { (1 + commits) as real * EPSILON }

  lemma {:induction false} SlackGrows(commits: nat)
    ensures Slack(commits + 1) == Slack(commits) + EPSILON && Slack(commits) >= EPSILON
  {
    var k := (1 + commits) as real;
    assert (2 + commits) as real * EPSILON == k * EPSILON + EPSILON;
    assert commits as real * EPSILON >= 0.0;
  }

  lemma {:induction false} ApplyKeepsLimits(b: Budget, a: Account, op: Op, commits: nat)
    requires WithinLimits(b, Total(a), Slack(commits))
    ensures op.Commit? && !Refused(b, a, op) ==> WithinLimits(b, Total(Apply(b, a, op)), Slack(commits + 1))
    ensures !(op.Commit? && !Refused(b, a, op)) ==> WithinLimits(b, Total(Apply(b, a, op)), Slack(commits))
  {
    SlackGrows(commits);
    if !Refused(b, a, op) {
      match op
      case Reserve(id, estimate) =>
        ReservedSnoc(a.held, Held(id, estimate));
      case Commit(id, actual) =>
        ReservedWithout(a.held, Find(a.held, id).value);
      case Release(id) =>
        ReservedWithout(a.held, Find(a.held, id).value);
    }
  }

  /** Committed and reserved spend together stay within the limits, for every sequence of operations. */
  lemma {:induction false} LimitsHold(b: Budget, ops: seq<Op>)
    ensures WithinLimits(b, Total(ApplyAll(b, ops)), Slack(Commits(b, ops)))
  {
    if ops == [] {
      SlackGrows(0);
    } else {
      var front, last := ops[..|ops| - 1], ops[|ops| - 1];
      LimitsHold(b, front);
      ApplyKeepsLimits(b, ApplyAll(b, front), last, Commits(b, front));
    }
  }

  /** Callers that leave the tolerance unused: estimates that fit exactly, and actual costs within the estimates. */
  ghost predicate Exact(b: Budget, a: Account, op: Op) {
    match op
    case Reserve(id, estimate) => b.costLimit.Some? ==> Total(a).cost + estimate.cost <= b.costLimit.value
    case Commit(id, actual) => Find(a.held, id).Some? ==> actual.cost <= a.held[Find(a.held, id).value].estimate.cost
    case Release(id) => true
  }

  /**
   * For a single accepted operation from within the limit, leaving the tolerance unused is what keeps reservations
   * within it.
   */
  lemma {:induction false} ExactReserveIff(b: Budget, a: Account, id: nat, estimate: Spend)
    requires !Refused(b, a, Reserve(id, estimate))
    ensures WithinLimits(b, Total(Apply(b, a, Reserve(id, estimate))), 0.0) <==> Exact(b, a, Reserve(id, estimate))
  {
    ReservedSnoc(a.held, Held(id, estimate));
  }

  /** What an operation makes of committed and reserved cost together fits the limit, without its tolerance. */
  ghost predicate Fits(b: Budget, a: Account, op: Op) {
    b.costLimit.Some? ==>
      match op
      case Reserve(id, estimate) => Total(a).cost + estimate.cost <= b.costLimit.value
      case Commit(id, actual) =>
        var i := Find(a.held, id);
        i.Some? ==> Total(a).cost - a.held[i.value].estimate.cost + actual.cost <= b.costLimit.value
      case Release(id) => true
  }

  /** From within the limits, an operation stays within them exactly when it is refused or fits. */
  lemma {:induction false} StaysWithinIff(b: Budget, a: Account, op: Op)
    requires WithinLimits(b, Total(a), 0.0)
    ensures WithinLimits(b, Total(Apply(b, a, op)), 0.0) <==> Refused(b, a, op) || Fits(b, a, op)
  {
    if !Refused(b, a, op) {
      match op
      case Reserve(id, estimate) =>
        ReservedSnoc(a.held, Held(id, estimate));
      case Commit(id, actual) =>
        ReservedWithout(a.held, Find(a.held, id).value);
      case Release(id) =>
        ReservedWithout(a.held, Find(a.held, id).value);
    }
  }

  lemma {:induction false} ExactCommitKeeps(b: Budget, a: Account, op: Op)
    requires WithinLimits(b, Total(a), 0.0) && Exact(b, a, op)
    ensures WithinLimits(b, Total(Apply(b, a, op)), 0.0)
  {
    StaysWithinIff(b, a, op);
  }

  /** An accepted commit leaves the limits kept exactly when what it changes fits the cost limit. */
  lemma {:induction false} ExactCommitIff(b: Budget, a: Account, id: nat, actual: Spend, slack: real)
    requires WithinLimits(b, Total(a), slack) && !Refused(b, a, Commit(id, actual))
    ensures WithinLimits(b, Total(Apply(b, a, Commit(id, actual))), 0.0) <==> Fits(b, a, Commit(id, actual))
  {
    ReservedWithout(a.held, Find(a.held, id).value);
  }

  ghost predicate WithinAt(b: Budget, ops: seq<Op>, n: nat)
    requires n <= |ops|
  {
    WithinLimits(b, Total(ApplyAll(b, ops[..n])), 0.0)
  }

  ghost predicate FitsAt(b: Budget, ops: seq<Op>, n: nat)
    requires n < |ops|
  {
    Refused(b, ApplyAll(b, ops[..n]), ops[n]) || Fits(b, ApplyAll(b, ops[..n]), ops[n])
  }

  /**
   * Over a whole sequence, committed and reserved cost together never pass the limit itself exactly when every
   * operation that goes through fits.
   */
  lemma {:induction false} NeverExceedsIff(b: Budget, ops: seq<Op>, n: nat)
    requires n <= |ops|
    ensures (forall k :: 0 <= k <= n ==> WithinAt(b, ops, k)) <==> (forall k :: 0 <= k < n ==> FitsAt(b, ops, k))
    decreases n
  {
    if n == 0 {
      OpenedIsWithin(b, ops);
    } else {
      NeverExceedsIff(b, ops, n - 1);
      WithinStep(b, ops, n - 1);
    }
  }

  lemma {:induction false} OpenedIsWithin(b: Budget, ops: seq<Op>)
    ensures WithinAt(b, ops, 0)
  {
    assert ops[..0] == [];
  }

  lemma {:induction false} WithinStep(b: Budget, ops: seq<Op>, n: nat)
    requires n < |ops|
    ensures WithinAt(b, ops, n) ==> (WithinAt(b, ops, n + 1) <==> FitsAt(b, ops, n))
  {
    assert ops[..n + 1][..n] == ops[..n];
    if WithinAt(b, ops, n) {
      StaysWithinIff(b, ApplyAll(b, ops[..n]), ops[n]);
    }
  }

  // Committed spend alone.

  /** A commit that goes through adds no more cost than the limit leaves beside what is committed. */
  predicate CommitFits(b: Budget, a: Account, op: Op) {
    op.Commit? && !Refused(b, a, op) && b.costLimit.Some? ==> a.committed.cost + op.actual.cost <= b.costLimit.value
  }

  /** Committed spend is within every limit, without any tolerance. */
  ghost predicate CommittedAt(b: Budget, ops: seq<Op>, n: nat)
    requires n <= |ops|
  {
    WithinLimits(b, ApplyAll(b, ops[..n]).committed, 0.0)
  }

  ghost predicate CommitFitsAt(b: Budget, ops: seq<Op>, n: nat)
    requires n < |ops|
  {
    CommitFits(b, ApplyAll(b, ops[..n]), ops[n])
  }

  /** Over a whole sequence, committed spend never exceeds a limit exactly when every accepted commit fits. */
  lemma {:induction false} CommittedNeverExceedsIff(b: Budget, ops: seq<Op>, n: nat)
    requires n <= |ops|
    ensures (forall k :: 0 <= k <= n ==> CommittedAt(b, ops, k)) <==>
            (forall k :: 0 <= k < n ==> CommitFitsAt(b, ops, k))
    decreases n
  {
    if n == 0 {
      assert ops[..0] == [];
    } else {
      CommittedNeverExceedsIff(b, ops, n - 1);
      CommittedStep(b, ops, n - 1);
    }
  }

  lemma {:induction false} CommittedStep(b: Budget, ops: seq<Op>, n: nat)
    requires n < |ops|
    ensures CommittedAt(b, ops, n) ==> (CommittedAt(b, ops, n + 1) <==> CommitFitsAt(b, ops, n))
  {
    assert ops[..n + 1][..n] == ops[..n];
    LimitsHold(b, ops[..n + 1]);
  }

  /** Callers that leave the tolerance unused never take committed spend over a limit. */
  lemma {:induction false} ExactCallersStayWithin(b: Budget, ops: seq<Op>, n: nat)
    requires n <= |ops| && forall k :: 0 <= k < n ==> Exact(b, ApplyAll(b, ops[..k]), ops[k])
    ensures WithinAt(b, ops, n) && CommittedAt(b, ops, n)
  {
    if n == 0 {
      OpenedIsWithin(b, ops);
    } else {
      ExactCallersStayWithin(b, ops, n - 1);
      assert ops[..n][..n - 1] == ops[..n - 1];
      ExactCommitKeeps(b, ApplyAll(b, ops[..n - 1]), ops[n - 1]);
    }
  }

  /** The documentation says that committed spend never exceeds the limit; with the tolerance, it can. */
  lemma {:induction false} CommittedCanExceedLimit()
    ensures exists b: Budget, ops: seq<Op> :: b.costLimit.Some? && ApplyAll(b, ops).committed.cost > b.costLimit.value
  {
    var b := UNLIMITED.(costLimit := Some(1.0));
    var estimate, actual := Spend(0, 0, 1.0 + EPSILON, 0), Spend(0, 0, 1.0 + 2.0 * EPSILON, 0);
    var reserve, commit := Reserve(1, estimate), Commit(1, actual);
    var ops := [reserve, commit];
    assert ops[..1] == [reserve] && [reserve][..0] == [];
    assert ApplyAll(b, []) == OPENED && !Refused(b, OPENED, reserve);
    var after := ApplyAll(b, [reserve]);
    assert after.held == [Held(1, estimate)];
    assert Find(after.held, 1) == Some(0) && !Refused(b, after, commit);
    assert ApplyAll(b, ops) == Apply(b, after, commit);
    assert ApplyAll(b, ops).committed.cost > b.costLimit.value;
  }

  // A reservation is settled once.

  predicate Active(a: Account, id: nat) { Find(a.held, id).Some? }

  /** Numbers are handed out once, as the shared counter does. */
  ghost predicate FreshNumbers(ops: seq<Op>) {
    forall i, j :: 0 <= i < j < |ops| && ops[i].Reserve? && ops[j].Reserve? ==> ops[i].id != ops[j].id
  }

  ghost predicate ReservedBy(ops: seq<Op>, id: nat) {
    exists i :: 0 <= i < |ops| && ops[i].Reserve? && ops[i].id == id
  }

  predicate OneEach(held: seq<Held>) { forall i, j :: 0 <= i < j < |held| ==> held[i].id != held[j].id }

  lemma {:induction false} ActiveAfter(b: Budget, a: Account, op: Op, id: nat)
    ensures Active(Apply(b, a, op), id) ==> Active(a, id) || (op.Reserve? && op.id == id)
    ensures OneEach(a.held) && (op.Reserve? ==> !Active(a, op.id)) ==> OneEach(Apply(b, a, op).held)
    ensures OneEach(a.held) && !Refused(b, a, op) && !op.Reserve? ==> !Active(Apply(b, a, op), op.id)
  {
    if !Refused(b, a, op) && !op.Reserve? {
      WithoutMembers(a.held, Find(a.held, op.id).value);
    }
  }

  lemma {:induction false} WithoutMembers(held: seq<Held>, i: nat)
    requires i < |held|
    ensures forall k :: 0 <= k < |held| - 1 ==> Without(held, i)[k] == held[if k < i then k else k + 1]
  {
  }

  /** What is active was reserved: a foreign reservation is always refused. */
  lemma {:induction false} ActiveWasReserved(b: Budget, ops: seq<Op>, id: nat)
    ensures Active(ApplyAll(b, ops), id) ==> ReservedBy(ops, id)
  {
    if ops != [] {
      var front, last := ops[..|ops| - 1], ops[|ops| - 1];
      ActiveWasReserved(b, front, id);
      ActiveAfter(b, ApplyAll(b, front), last, id);
      if ReservedBy(front, id) {
        var i :| 0 <= i < |front| && front[i].Reserve? && front[i].id == id;
        assert ops[i] == front[i];
      }
    }
  }

  lemma {:induction false} NewIsInactive(b: Budget, ops: seq<Op>, n: nat)
    requires FreshNumbers(ops) && n < |ops| && ops[n].Reserve?
    ensures !Active(ApplyAll(b, ops[..n]), ops[n].id)
  {
    ActiveWasReserved(b, ops[..n], ops[n].id);
    assert forall i :: 0 <= i < n ==> ops[..n][i] == ops[i];
  }

  lemma {:induction false} HeldOnce(b: Budget, ops: seq<Op>, n: nat)
    requires FreshNumbers(ops) && n <= |ops|
    ensures OneEach(ApplyAll(b, ops[..n]).held)
  {
    if n > 0 {
      HeldOnce(b, ops, n - 1);
      assert ops[..n][..n - 1] == ops[..n - 1];
      if ops[n - 1].Reserve? {
        NewIsInactive(b, ops, n - 1);
      }
      ActiveAfter(b, ApplyAll(b, ops[..n - 1]), ops[n - 1], 0);
    }
  }

  /** From its commit or release on, whatever else happens, a reservation is refused. */
  lemma {:induction false} SettledStaysRefused(b: Budget, ops: seq<Op>, k: nat, n: nat, actual: Spend)
    requires FreshNumbers(ops) && k < n <= |ops| && !ops[k].Reserve? && !Refused(b, ApplyAll(b, ops[..k]), ops[k])
    ensures Refused(b, ApplyAll(b, ops[..n]), Commit(ops[k].id, actual))
    ensures Refused(b, ApplyAll(b, ops[..n]), Release(ops[k].id))
  {
    SettledIsInactive(b, ops, k, n);
  }

  lemma {:induction false} SettledIsInactive(b: Budget, ops: seq<Op>, k: nat, n: nat)
    requires FreshNumbers(ops) && k < n <= |ops| && !ops[k].Reserve? && !Refused(b, ApplyAll(b, ops[..k]), ops[k])
    ensures !Active(ApplyAll(b, ops[..n]), ops[k].id)
    decreases n
  {
    if n == k + 1 {
      BecomesInactive(b, ops, k);
    } else {
      SettledIsInactive(b, ops, k, n - 1);
      SettledIsOld(b, ops, k, n - 1);
      StaysInactive(b, ops, n - 1, ops[k].id);
    }
  }

  lemma {:induction false} BecomesInactive(b: Budget, ops: seq<Op>, k: nat)
    requires FreshNumbers(ops) && k < |ops| && !ops[k].Reserve? && !Refused(b, ApplyAll(b, ops[..k]), ops[k])
    ensures !Active(ApplyAll(b, ops[..k + 1]), ops[k].id)
  {
    HeldOnce(b, ops, k);
    AppliedNext(b, ops, k);
    ActiveAfter(b, ApplyAll(b, ops[..k]), ops[k], ops[k].id);
  }

  lemma {:induction false} StaysInactive(b: Budget, ops: seq<Op>, n: nat, id: nat)
    requires n < |ops| && !Active(ApplyAll(b, ops[..n]), id) && (ops[n].Reserve? ==> ops[n].id != id)
    ensures !Active(ApplyAll(b, ops[..n + 1]), id)
  {
    AppliedNext(b, ops, n);
    ActiveAfter(b, ApplyAll(b, ops[..n]), ops[n], id);
  }

  lemma {:induction false} AppliedNext(b: Budget, ops: seq<Op>, n: nat)
    requires n < |ops|
    ensures ApplyAll(b, ops[..n + 1]) == Apply(b, ApplyAll(b, ops[..n]), ops[n])
  {
    assert ops[..n + 1][..n] == ops[..n];
  }

  lemma {:induction false} SettledIsOld(b: Budget, ops: seq<Op>, k: nat, n: nat)
    requires FreshNumbers(ops) && k < n < |ops| && !ops[k].Reserve? && !Refused(b, ApplyAll(b, ops[..k]), ops[k])
    ensures ops[n].Reserve? ==> ops[n].id != ops[k].id
  {
    ActiveWasReserved(b, ops[..k], ops[k].id);
    var i :| 0 <= i < k && ops[..k][i].Reserve? && ops[..k][i].id == ops[k].id;
    assert ops[i].Reserve? && ops[i].id == ops[k].id;
  }

  // Usage totals and the authority count the same spend.

  function Recorded(a: Account, s: Spend): Account { a.(committed := a.committed.Plus(s)) }

  function AsTotals(u: Spend): Totals { Totals(u.Tokens(), u.cost, u.calls) }

  /** Headroom as the authority reports it. */
  function AuthorityRemaining(b: Budget, a: Account): RemainingBudget {
    var r := Reserved(a.held);
    RemainingBudget(
      if b.tokenLimit.Some? then Some(Max(0, b.tokenLimit.value - a.committed.tokens - r.tokens)) else None,
      if b.costLimit.Some? then Some(RealMax(0.0, b.costLimit.value - a.committed.cost - r.cost)) else None,
      if b.maxCalls != 0 then Some(Max(0, b.maxCalls - a.committed.calls - r.calls)) else None)
  }

  function RecordAll(spends: seq<Spend>): Account {
    if spends == [] then OPENED else Recorded(RecordAll(spends[..|spends| - 1]), spends[|spends| - 1])
  }

  lemma {:induction false} RecordedTotals(spends: seq<Spend>)
    ensures RecordAll(spends) == Account(AsTotals(SumSpend(spends)), [])
  {
    if spends != [] {
      var front, last := spends[..|spends| - 1], spends[|spends| - 1];
      RecordedTotals(front);
      assert AsTotals(SumSpend(front)).Plus(last) == AsTotals(SumSpend(front).Plus(last));
    }
  }

  lemma {:induction false} SameHeadroom(b: Budget, used: Spend)
    ensures AuthorityRemaining(b, Account(AsTotals(used), [])) == Remaining(b, used)
  {
    var a := Account(AsTotals(used), []);
    assert Reserved(a.held) == NOTHING;
    if b.costLimit.Some? {
      assert b.costLimit.value - a.committed.cost - 0.0 == b.costLimit.value - used.cost;
    }
  }

  /**
   * Every cell records each attempt in both places at once, so whatever order the attempts of
   * concurrent cells come in, both report the same headroom.
   */
  lemma {:induction false} ViewsAgree(b: Budget, spends: seq<Spend>)
    ensures AuthorityRemaining(b, RecordAll(spends)) == Remaining(b, SumSpend(spends))
  {
    RecordedTotals(spends);
    SameHeadroom(b, SumSpend(spends));
  }

  /** The order in which concurrent attempts are recorded does not matter. */
  lemma {:induction false} RecordingCommutes(a: Account, x: Spend, y: Spend)
    ensures Recorded(Recorded(a, x), y) == Recorded(Recorded(a, y), x)
  {
    TotalsPlusCommutes(a.committed, x, y);
  }

  /** How a resumed run seeds its authority from the usage of its source. */
  function Seeded(usage: Spend): Account {
    if usage.inputTokens != 0 || usage.outputTokens != 0 || usage.calls != 0 then Recorded(OPENED, usage) else OPENED
  }

  /** Seeding skips a usage that only has cost; any other it takes over. */
  lemma {:induction false} SeedAgreesIff(usage: Spend)
    ensures Seeded(usage).committed == AsTotals(usage) <==>
            usage.cost == 0.0 || usage.inputTokens != 0 || usage.outputTokens != 0 || usage.calls != 0
  {
  }

  /** Cost comes from calls. */
  predicate PaidByCall(s: Spend) { s.cost > 0.0 ==> s.calls > 0 }

  lemma {:induction false} SumIsPaidByCall(spends: seq<Spend>)
    requires forall s :: s in spends ==> PaidByCall(s)
    ensures PaidByCall(SumSpend(spends))
  {
    if spends != [] {
      SumIsPaidByCall(spends[..|spends| - 1]);
      assert spends[|spends| - 1] in spends;
    }
  }

  /** Where every spend comes from calls, a seeded authority and the totals report the same headroom. */
  lemma {:induction false} SeedAgrees(b: Budget, spends: seq<Spend>)
    requires forall s :: s in spends ==> PaidByCall(s)
    ensures Seeded(SumSpend(spends)) == RecordAll(spends)
    ensures AuthorityRemaining(b, Seeded(SumSpend(spends))) == Remaining(b, SumSpend(spends))
  {
    SumIsPaidByCall(spends);
    RecordedTotals(spends);
    SeedIsRecord(SumSpend(spends));
    SameHeadroom(b, SumSpend(spends));
  }

  lemma {:induction false} SeedIsRecord(usage: Spend)
    requires PaidByCall(usage)
    ensures Seeded(usage) == Account(AsTotals(usage), [])
  {
    SeedAgreesIff(usage);
  }

  // The authority as an object. Reservations are objects too: a copy with the same number is not the reservation.

  class Reservation {
    const id: nat
    const cell: Id
    const estimate: Spend

    constructor (id: nat, cell: Id, estimate: Spend)
      ensures this.id == id && this.cell == cell && this.estimate == estimate
    {
      this.id, this.cell, this.estimate := id, cell, estimate;
    }
  }

  /** Reservation numbers are unique in the process, across all authorities. */
  class Numbers {
    var next: nat

    constructor ()
      ensures next == 1
    {
      next := 1;
    }

    method Take() returns (n: nat)
      modifies this
      ensures n == old(next) && next == n + 1
    {
      n := next;
      next := next + 1;
    }
  }

  /** No axis is past its limit. */
  predicate NotOver(b: Budget, t: Totals) {
    && (b.tokenLimit.Some? ==> t.tokens <= b.tokenLimit.value)
    && (b.costLimit.Some? ==> t.cost <= b.costLimit.value)
    && (b.maxCalls != 0 ==> t.calls <= b.maxCalls)
  }

  /** A reservation goes through exactly if it asks for no more than what remains, cost up to the tolerance. */
  lemma {:induction false} FitsIffRemains(b: Budget, a: Account, s: Spend)
    requires NotOver(b, Total(a))
    ensures var left := AuthorityRemaining(b, a);
            !PassesLimit(b, Total(a), s) <==>
              && (left.tokens.Some? ==> s.inputTokens + s.outputTokens <= left.tokens.value)
              && (left.cost.Some? ==> s.cost <= left.cost.value + 0.000000001)
              && (left.calls.Some? ==> s.calls <= left.calls.value)
  {
  }

  datatype BudgetError = Exhausted | InvalidReservation

  /** Gives back what a settled reservation held; `rest` is what the other reservations hold. */
  function Refunded(reserved: Totals, ghost rest: Totals, estimate: Spend): (r: Totals)
    requires reserved == rest.Plus(estimate)
    ensures r == rest
  {
    Totals(reserved.tokens - estimate.Tokens(), reserved.cost - estimate.cost, reserved.calls - estimate.calls)
  }

  /** What a list of reservation objects holds. */
  ghost function HeldOf(order: seq<Reservation>): (held: seq<Held>)
    ensures |held| == |order|
    ensures forall i :: 0 <= i < |order| ==> held[i] == Held(order[i].id, order[i].estimate)
  {
    seq(|order|, i requires 0 <= i < |order| => Held(order[i].id, order[i].estimate))
  }

  /** The table holds exactly the active reservations, each under its own number, below the next number. */
  ghost predicate Listed(order: seq<Reservation>, active: map<nat, Reservation>, next: nat) {
    && (forall i, j :: 0 <= i < j < |order| ==> order[i].id != order[j].id)
    && (forall r :: r in order ==> r.id in active && active[r.id] == r)
    && (forall n :: n in active ==> n < next && active[n].id == n && active[n] in order)
  }

  lemma {:induction false} ListedAdd(order: seq<Reservation>, active: map<nat, Reservation>, next: nat, r: Reservation)
    requires Listed(order, active, next) && r.id == next
    ensures Listed(order + [r], active[r.id := r], next + 1)
    ensures HeldOf(order + [r]) == HeldOf(order) + [Held(r.id, r.estimate)]
  {
    forall i | 0 <= i < |order| ensures order[i].id != r.id {
      assert order[i] in order;
    }
  }

  lemma {:induction false} DropMembers(order: seq<Reservation>, i: nat)
    requires i < |order| && forall j, k :: 0 <= j < k < |order| ==> order[j].id != order[k].id
    ensures var after := Without(order, i);
            && (forall j, k :: 0 <= j < k < |after| ==> after[j].id != after[k].id)
            && (forall r :: r in after ==> r in order && r.id != order[i].id)
            && (forall r :: r in order && r != order[i] ==> r in after)
  {
    var after := Without(order, i);
    forall r | r in after ensures r in order && r.id != order[i].id {
      var k :| 0 <= k < |after| && after[k] == r;
      assert after[k] == if k < i then order[k] else order[k + 1];
    }
    forall r | r in order && r != order[i] ensures r in after {
      var k :| 0 <= k < |order| && order[k] == r;
      assert if k < i then after[k] == r else after[k - 1] == r;
    }
  }

  lemma {:induction false} HeldDrop(order: seq<Reservation>, i: nat)
    requires i < |order|
    ensures HeldOf(Without(order, i)) == Without(HeldOf(order), i)
  {
  }

  lemma {:induction false} ListedDrop(order: seq<Reservation>, active: map<nat, Reservation>, next: nat, i: nat)
    requires Listed(order, active, next) && i < |order|
    ensures var after := Without(order, i);
            Listed(after, active - {order[i].id}, next) && order[i] !in after
  {
    DropMembers(order, i);
  }

  lemma {:induction false} FindsPosition(order: seq<Reservation>, active: map<nat, Reservation>, next: nat,
                                         r: Reservation)
    returns (i: nat)
    requires Listed(order, active, next) && r in order
    ensures i < |order| && order[i] == r && Find(HeldOf(order), r.id) == Some(i)
  {
    i :| 0 <= i < |order| && order[i] == r;
    assert HeldOf(order)[i].id == r.id;
  }

  class BudgetAuthority {
    const budget: Budget
    const numbers: Numbers
    var committed: Totals
    var reserved: Totals
    var active: map<nat, Reservation>
    /** The active reservations in the order they were made. */
    ghost var order: seq<Reservation>

    ghost function View(): Account
      reads this
    {
      Account(committed, HeldOf(order))
    }

    /** The counters are the sums of what is active. */
    ghost predicate Valid()
      reads this, numbers
    {
      reserved == Reserved(HeldOf(order)) && Listed(order, active, numbers.next)
    }

    constructor (budget: Budget, numbers: Numbers)
      ensures Valid() && View() == OPENED
      ensures this.budget == budget && this.numbers == numbers
    {
      this.budget, this.numbers := budget, numbers;
      committed, reserved, active, order := NOTHING, NOTHING, map[], [];
    }

    method ReserveFor(cell: Id, estimate: Spend) returns (r: Option<Reservation>)
      requires Valid()
      modifies this, numbers
      ensures Valid()
      ensures r.None? <==> PassesLimit(budget, Total(old(View())), estimate)
      ensures r.None? ==> View() == old(View()) && numbers.next == old(numbers.next)
      ensures r.Some? ==> fresh(r.value) && r.value.cell == cell && r.value.id == old(numbers.next)
      ensures r.Some? ==>
        order == old(order) + [r.value] && View() == Apply(budget, old(View()), Reserve(r.value.id, estimate))
    {
      var total := Totals(committed.tokens + reserved.tokens, committed.cost + reserved.cost,
        committed.calls + reserved.calls);
      assert total == Total(View());
      if PassesLimit(budget, total, estimate) {
        return None;
      }
      var reservation := Hold(cell, estimate);
      r := Some(reservation);
    }

    /** A new reservation, under the next number, in the table and the counters. */
    method Hold(cell: Id, estimate: Spend) returns (r: Reservation)
      requires Valid()
      modifies this, numbers
      ensures Valid() && committed == old(committed)
      ensures fresh(r) && r.cell == cell && r.id == old(numbers.next) && r.estimate == estimate
      ensures order == old(order) + [r] && HeldOf(order) == HeldOf(old(order)) + [Held(r.id, estimate)]
    {
      var n := numbers.Take();
      r := new Reservation(n, cell, estimate);
      ListedAdd(order, active, n, r);
      ReservedSnoc(HeldOf(order), Held(n, estimate));
      reserved := reserved.Plus(estimate);
      active := active[n := r];
      order := order + [r];
    }

    /** Takes an active reservation out of the table and the counters. */
    method Drop(r: Reservation, ghost i: nat)
      requires Valid() && i < |order| && order[i] == r
      modifies this
      ensures Valid() && committed == old(committed)
      ensures r !in order && HeldOf(order) == Without(HeldOf(old(order)), i)
    {
      ListedDrop(order, active, numbers.next, i);
      HeldDrop(order, i);
      ReservedWithout(HeldOf(order), i);
      reserved := Refunded(reserved, Reserved(Without(HeldOf(order), i)), r.estimate);
      active := active - {r.id};
      order := Without(order, i);
    }

    method CommitSpend(r: Reservation, actual: Spend) returns (error: Option<BudgetError>)
      requires Valid()
      modifies this
      ensures Valid()
      ensures error == Some(InvalidReservation) <==> r !in old(order)
      ensures error == Some(Exhausted) <==> r in old(order) && Overspends(actual, r.estimate)
      ensures error.Some? ==> View() == old(View())
      ensures r in old(order) ==> View() == Apply(budget, old(View()), Commit(r.id, actual))
      ensures error.None? ==> r !in order
    {
      if !(r.id in active && active[r.id] == r) {
        return Some(InvalidReservation);
      }
      ghost var i := FindsPosition(order, active, numbers.next, r);
      if Overspends(actual, r.estimate) {
        return Some(Exhausted);
      }
      Drop(r, i);
      committed := committed.Plus(actual);
      error := None;
    }

    method ReleaseHeld(r: Reservation) returns (error: Option<BudgetError>)
      requires Valid()
      modifies this
      ensures Valid()
      ensures error.Some? <==> r !in old(order)
      ensures error.Some? ==> error == Some(InvalidReservation) && View() == old(View())
      ensures error.None? ==> View() == Apply(budget, old(View()), Release(r.id)) && r !in order
    {
      if !(r.id in active && active[r.id] == r) {
        return Some(InvalidReservation);
      }
      ghost var i := FindsPosition(order, active, numbers.next, r);
      Drop(r, i);
      error := None;
    }

    method Record(actual: Spend)
      requires Valid()
      modifies this
      ensures Valid() && View() == Recorded(old(View()), actual)
    {
      committed := committed.Plus(actual);
    }

    method RemainingNow() returns (remaining: RemainingBudget)
      requires Valid()
      ensures remaining == AuthorityRemaining(budget, View())
    {
      remaining := RemainingBudget(
        if budget.tokenLimit.Some? then Some(Max(0, budget.tokenLimit.value - committed.tokens - reserved.tokens))
        else None,
        if budget.costLimit.Some? then Some(RealMax(0.0, budget.costLimit.value - committed.cost - reserved.cost))
        else None,
        if budget.maxCalls != 0 then Some(Max(0, budget.maxCalls - committed.calls - reserved.calls)) else None);
    }
  }
}
