/** One run from request to outcome: the statuses and the outcome it writes, whatever raises on the way. */
module Companies {
  import opened Domain
  import opened Events
  import E = Execution
  import R = Release
  import Completion
  import RoundBound
  import Success
  import V = Validation

  // What a run has written.

  function StatusesOf(log: seq<Payload>): seq<Status> {
    if log == [] then []
    else StatusesOf(log[..|log| - 1]) + (if log[|log| - 1].StatusChanged? then [log[|log| - 1].status] else [])
  }

  function OutcomesOf(log: seq<Payload>): seq<RunOutcome> {
    if log == [] then []
    else OutcomesOf(log[..|log| - 1]) + (if log[|log| - 1].OutcomeEmitted? then [log[|log| - 1].outcome] else [])
  }

  function OutcomeStatus(o: RunOutcome): Status {
    match o
    case Verified => VerifiedStatus
    case Abstained => AbstainedStatus
    case FailedRun => FailedStatus
  }

  predicate Neutral(p: Payload) { !p.StatusChanged? && !p.OutcomeEmitted? }

  lemma {:induction false} LogSnoc(log: seq<Payload>, p: Payload)
    ensures StatusesOf(log + [p]) == if p.StatusChanged? then StatusesOf(log) + [p.status] else StatusesOf(log)
    ensures OutcomesOf(log + [p]) == if p.OutcomeEmitted? then OutcomesOf(log) + [p.outcome] else OutcomesOf(log)
  {
    assert (log + [p])[..|log|] == log;
    assert StatusesOf(log) + [] == StatusesOf(log) && OutcomesOf(log) + [] == OutcomesOf(log);
  }

  lemma {:induction false} StatusAppended(log: seq<Payload>, to: Status)
    requires LegalPath(Intake, StatusesOf(log)) && CanTransition(Last(Intake, StatusesOf(log)), to)
    ensures LegalPath(Intake, StatusesOf(log + [StatusChanged(to)]))
    ensures Last(Intake, StatusesOf(log + [StatusChanged(to)])) == to &&
      OutcomesOf(log + [StatusChanged(to)]) == OutcomesOf(log)
  {
    LogSnoc(log, StatusChanged(to));
    PathAppend(Intake, StatusesOf(log), [to]);
    assert [to][1..] == [];
  }

  lemma {:induction false} NeutralAppend(log: seq<Payload>, more: seq<Payload>)
    requires forall p :: p in more ==> Neutral(p)
    ensures StatusesOf(log + more) == StatusesOf(log) && OutcomesOf(log + more) == OutcomesOf(log)
  {
    if more == [] {
      assert log + more == log;
    } else {
      var front, last := more[..|more| - 1], more[|more| - 1];
      NeutralAppend(log, front);
      assert last in more && log + more == (log + front) + [last];
      LogSnoc(log + front, last);
    }
  }

  // What a later run may be resumed from.

  /** Accepted graphs and completed cells. */
  ghost function Sources(log: seq<Payload>): set<Payload> {
    set p | p in log && (p.GraphAccepted? || p.CellCompleted?)
  }

  lemma {:induction false} SourcesAppend(log: seq<Payload>, more: seq<Payload>)
    ensures Sources(log + more) == Sources(log) + Sources(more)
  {
  }

  lemma {:induction false} SourcesSnoc(log: seq<Payload>, p: Payload)
    ensures Sources(log + [p]) == Sources(log) + if p.GraphAccepted? || p.CellCompleted? then {p} else {}
  {
    SourcesAppend(log, [p]);
    assert Sources([p]) == if p.GraphAccepted? || p.CellCompleted? then {p} else {};
  }

  /** Events of cells: they accept no graph, and what they complete are cells of the graph. */
  predicate OnGraph(events: seq<Payload>, cells: seq<Cell>) {
    forall p :: p in events ==> !p.GraphAccepted? && (p.CellCompleted? ==> p.completed in IdSet(cells))
  }

  /** Accepted graphs have unique ids, and whatever completed is a cell of every one of them. */
  ghost predicate Tame(sources: set<Payload>) {
    && (forall p :: p in sources && p.GraphAccepted? ==> UniqueIds(p.graph.cells))
    && (forall p, q :: p in sources && q in sources && p.GraphAccepted? && q.CellCompleted? ==>
          q.completed in IdSet(p.graph.cells))
  }

  // What the world may do to a run. Every stage may raise; every append may fail.

  datatype VerifyWorld = VerifyWorld(
    check: nat -> R.Check,
    hardRaises: bool,
    contents: Option<map<nat, string>>,
    reviewers: seq<R.Reviewer>,
    records: seq<R.Calibration>,
    reviewRaises: bool)

  datatype TailWorld = TailWorld(factoryRaises: bool, exec: E.World, cellEvents: seq<Payload>, verify: VerifyWorld)

  /** `None` for a stage that raises. `compileEvents` are the events that compiling wrote. */
  datatype RunWorld = RunWorld(compileEvents: seq<Payload>, compile: Option<Contract>, plan: Option<Graph>,
    tail: TailWorld)

  /** How the body of a run ends: with an outcome, or by raising with the locals that the handler sees. */
  datatype Ending =
    | Finished(outcome: RunOutcome)
    | Raising(current: Status, terminal: Option<RunOutcome>)
    | Cancelling(current: Status)

  /** Where execution starts: the graph, the budgets, and for a resumed run what the source had done. */
  datatype Start = Start(contract: Contract, cells: seq<Cell>, maxWaves: nat, limits: Budget,
                         usage: Spend, committed: Spend, init: set<Id>)

  /** What the cells of a run come to. */
  function CellsOf(start: Start, w: TailWorld): E.Finish {
    E.Call(start.cells, start.limits, start.committed, start.maxWaves, start.init, w.exec)
  }

  /** The usage of the whole run once its cells are over. */
  function UsageOf(start: Start, w: TailWorld): Spend { TotalUsage(start, CellsOf(start, w).spent) }

  /** Why a run may end verified: told from what it starts with and from the world. */
  ghost predicate Earned(start: Start, w: TailWorld) {
    && !w.factoryRaises
    && Success.Smooth(start.cells, start.limits, start.committed, start.maxWaves, start.init, w.exec)
    && R.HardPassed(start.contract.criteria, w.verify.check)
    && w.verify.contents.Some?
    && R.SoftAccepted(start.contract.criteria, w.verify.reviewers, w.verify.records, w.verify.contents.value)
    && !R.Exceeds(UsageOf(start, w), start.contract.budget)
  }

  /** The round loop returned no outcome, and verification passed. */
  ghost predicate Passed(start: Start, w: TailWorld) {
    && CellsOf(start, w).result == E.Returned(None)
    && R.HardPassed(start.contract.criteria, w.verify.check)
    && w.verify.contents.Some?
    && R.SoftAccepted(start.contract.criteria, w.verify.reviewers, w.verify.records, w.verify.contents.value)
    && !R.Exceeds(UsageOf(start, w), start.contract.budget)
  }

  lemma {:induction false} VerifiedIsEarned(start: Start, w: TailWorld)
    requires UniqueIds(start.cells) && start.init <= IdSet(start.cells) && !w.factoryRaises && Passed(start, w)
    ensures Earned(start, w)
  {
    Success.SuccessIff(start.cells, start.limits, start.committed, start.maxWaves, start.init, w.exec);
  }

  /** No step of verification raises. */
  predicate Undisturbed(w: VerifyWorld) { !w.hardRaises && !w.reviewRaises && w.contents.Some? }

  /** What verification decides when nothing raises. */
  ghost function VerdictOn(start: Start, w: VerifyWorld, usage: Spend): RunOutcome
    requires w.contents.Some?
  {
    if !R.HardPassed(start.contract.criteria, w.check) then FailedRun
    else if !R.Exceeds(usage, start.contract.budget) &&
            R.SoftAccepted(start.contract.criteria, w.reviewers, w.records, w.contents.value) then Verified
    else Abstained
  }

  /** The outcome of a run whose appends all succeed, once it executes: a stage that raises fails it. */
  ghost function Expected(start: Start, w: TailWorld): RunOutcome {
    if w.factoryRaises then FailedRun
    else
      match CellsOf(start, w).result
      case Crashed => FailedRun
      case Reraised => FailedRun
      case Returned(Some(o)) => o
      case Returned(None) => if Undisturbed(w.verify) then VerdictOn(start, w.verify, UsageOf(start, w)) else FailedRun
  }

  /** The same for a run that is still to be planned: planning may raise, or its graph may be rejected. */
  ghost function ExpectedOf(start: Start, maxWaves: nat, w: RunWorld): RunOutcome {
    if w.compile.None? || w.plan.None? then FailedRun
    else if !V.Accepted(w.plan.value, Some(w.compile.value.budget), Some(maxWaves)) then Abstained
    else Expected(start, w.tail)
  }

  /** A writer is cancelled, and with it the run: it fails, and then the cancellation goes on to the caller. */
  predicate Cancels(start: Start, w: TailWorld) { !w.factoryRaises && CellsOf(start, w).result.Reraised? }

  ghost predicate CancelsRun(start: Start, maxWaves: nat, w: RunWorld) {
    && w.compile.Some? && w.plan.Some?
    && V.Accepted(w.plan.value, Some(w.compile.value.budget), Some(maxWaves))
    && Cancels(start, w.tail)
  }

  // Where execution starts.

  /** A fresh run has nothing behind it and is limited by its request. */
  ghost predicate StartsFresh(start: Start, contract: Contract, graph: Graph, maxWaves: nat, request: Option<Budget>) {
    && start.contract == contract && start.cells == graph.cells && start.maxWaves == maxWaves
    && start.usage == start.committed == NO_SPEND && start.init == {}
    && (request.Some? ==> start.limits == request.value)
    && (request.None? ==> forall spent :: !E.BudgetExhausted(Remaining(start.limits, spent)))
  }

  /** What a run records of its request: the limits on tokens and cost, and none of the others. */
  function Announced(request: Option<Budget>): Option<Budget> {
    if request.Some? then Some(Budget(request.value.tokenLimit, request.value.costLimit, 0, 0, 0)) else None
  }

  /** The cell was completed in the source of a resumed run. */
  ghost predicate DoneBefore(c: Cell, source: seq<Payload>) {
    c.status.Completed? || exists p :: p in source && p.CellCompleted? && p.completed == c.id
  }

  /** A resumed run goes on with the contract, the graph, the limits and the usage that a replay of its source holds. */
  ghost predicate GoesOnFrom<H>(start: Start, state: RunState<H>, source: seq<Payload>)
    requires state.contract.Some? && state.graph.Some?
  {
    && start.contract == state.contract.value && start.cells == state.graph.value.cells && start.maxWaves == 3
    && start.usage == state.usage
    && (state.runBudget.Some? ==> start.limits == state.runBudget.value)
    && (state.runBudget.None? ==> forall spent :: !E.BudgetExhausted(Remaining(start.limits, spent)))
    && start.committed == (if state.usage.Tokens() == 0 && state.usage.calls == 0 then NO_SPEND else state.usage)
    && forall c :: c in start.cells ==> (c.id in start.init <==> DoneBefore(c, source))
  }

  /** A run resumed from what a first one recorded has its limits on tokens and cost, but none on calls. */
  lemma {:induction false} ResumedLimits<H>(first: Start, contract: Contract, graph: Graph, maxWaves: nat,
                                            request: Option<Budget>, resumed: Start, state: RunState<H>,
                                            source: seq<Payload>)
    requires StartsFresh(first, contract, graph, maxWaves, request)
    requires state.contract.Some? && state.graph.Some? && GoesOnFrom(resumed, state, source)
    requires state.runBudget == Announced(request)
    ensures forall spent :: E.BudgetExhausted(Remaining(resumed.limits, spent)) <==>
                            E.BudgetExhausted(Remaining(first.limits, spent))
    ensures request.Some? ==> forall spent :: Remaining(resumed.limits, spent).calls == None
  {
  }

  /** Whatever has been spent: by the source, as far as its replay holds it, and by the cells of this run. */
  function SpentByAll(start: Start, w: TailWorld): Spend {
    start.usage.Plus(E.TotalSpend(CellsOf(start, w).ran, w.exec.run))
  }

  lemma {:induction false} UsageCountsAll(start: Start, w: TailWorld)
    requires start.committed == start.usage || start.committed == NO_SPEND
    requires CellsOf(start, w).spent == start.committed.Plus(E.TotalSpend(CellsOf(start, w).ran, w.exec.run))
    ensures UsageOf(start, w) == SpentByAll(start, w)
  {
    NothingBefore(E.TotalSpend(CellsOf(start, w).ran, w.exec.run));
  }

  lemma {:induction false} NothingBefore(s: Spend)
    ensures NO_SPEND.Plus(s) == s
  {
  }

  lemma {:induction false} RanIffNew(cells: seq<Cell>, ran: seq<Cell>, init: set<Id>)
    requires UniqueIds(cells) && (forall c :: c in ran ==> c in cells && c.id !in init)
    requires IdSet(ran) == IdSet(cells) - init
    ensures forall c :: c in cells ==> (c in ran <==> c.id !in init)
  {
    forall c | c in cells && c.id !in init ensures c in ran {
      assert c.id in IdSet(ran);
      var d :| d in ran && d.id == c.id;
      RoundBound.DifferentIds(cells, c, d);
    }
  }

  /** A verified run spent, together with its source, at most what its contract allows. */
  lemma {:induction false} VerifiedCountsAll(start: Start, w: TailWorld)
    requires UniqueIds(start.cells) && start.init <= IdSet(start.cells)
    requires start.committed == start.usage || start.committed == NO_SPEND
    requires Earned(start, w)
    ensures !R.Exceeds(SpentByAll(start, w), start.contract.budget)
    ensures forall c :: c in start.cells ==> (c in CellsOf(start, w).ran <==> c.id !in start.init)
  {
    Success.SuccessIff(start.cells, start.limits, start.committed, start.maxWaves, start.init, w.exec);
    Completion.CallKeepsPromise(start.cells, start.limits, start.committed, start.maxWaves, start.init, w.exec);
    UsageCountsAll(start, w);
    RanIffNew(start.cells, CellsOf(start, w).ran, start.init);
  }

  /** What a resumed run runs is what its source had not completed. */
  lemma {:induction false} RunsTheRest<H>(start: Start, state: RunState<H>, source: seq<Payload>, w: TailWorld)
    requires state.contract.Some? && state.graph.Some? && GoesOnFrom(start, state, source)
    requires UniqueIds(start.cells) && start.init <= IdSet(start.cells)
    ensures forall c :: c in CellsOf(start, w).ran ==> c in start.cells && !DoneBefore(c, source)
    ensures Earned(start, w) ==> forall c :: c in start.cells ==>
      (c in CellsOf(start, w).ran <==> !DoneBefore(c, source))
    ensures Earned(start, w) ==> !R.Exceeds(SpentByAll(start, w), start.contract.budget)
  {
    Completion.CallKeepsPromise(start.cells, start.limits, start.committed, start.maxWaves, start.init, w.exec);
    if Earned(start, w) {
      VerifiedCountsAll(start, w);
    }
  }

  /** Before execution. */
  predicate IsEarly(s: Status) { s.Intake? || s.Contracted? || s.Planned? }

  lemma {:induction false} EarlyIsNotExecuting(from: Status, path: seq<Status>)
    requires LegalPath(from, path) && IsEarly(Last(from, path))
    ensures IsEarly(from) && Executing !in path
    decreases |path|
  {
    if path != [] {
      assert path == [path[0]] + path[1..];
      EarlyIsNotExecuting(path[0], path[1..]);
    }
  }

  class Company {
    const appendOk: nat -> bool
    var appends: nat
    var log: seq<Payload>

    constructor (appendOk: nat -> bool)
      ensures Valid() && log == [] && appends == 0 && this.appendOk == appendOk
    {
      this.appendOk, appends, log := appendOk, 0, [];
    }

    /** The last status that the log reached. */
    ghost function Reached(): Status
      reads this
    {
      Last(Intake, StatusesOf(log))
    }

    ghost function Outcomes(): seq<RunOutcome>
      reads this
    {
      OutcomesOf(log)
    }

    /** The log replays: its statuses follow the transition table. */
    ghost predicate Valid()
      reads this
    {
      LegalPath(Intake, StatusesOf(log))
    }

    ghost predicate AllAppended()
      reads this
    {
      forall k :: 0 <= k < appends ==> appendOk(k)
    }

    /** An append to the ledger, which may fail. */
    method Append(p: Payload) returns (ok: bool)
      modifies this
      ensures AllAppended() <==> old(AllAppended()) && ok
      ensures log == if ok then old(log) + [p] else old(log)
    {
      ok := appendOk(appends);
      appends := appends + 1;
      if ok {
        log := log + [p];
      }
    }

    /** An event that is neither a status nor an outcome. */
    method Emit(p: Payload) returns (ok: bool)
      requires Valid() && Neutral(p)
      modifies this
      ensures Valid() && Reached() == old(Reached()) && Outcomes() == old(Outcomes())
      ensures AllAppended() <==> old(AllAppended()) && ok
      ensures Sources(log) == old(Sources(log)) + if ok && (p.GraphAccepted? || p.CellCompleted?) then {p} else {}
      ensures log == if ok then old(log) + [p] else old(log)
    {
      LogSnoc(log, p);
      SourcesSnoc(log, p);
      ok := Append(p);
    }

    /** Events that a stage writes by itself. */
    method Note(events: seq<Payload>)
      requires Valid() && forall p :: p in events ==> Neutral(p)
      modifies this`log
      ensures Valid() && Reached() == old(Reached()) && Outcomes() == old(Outcomes())
      ensures Sources(log) == old(Sources(log)) + Sources(events)
      ensures log == old(log) + events
    {
      NeutralAppend(log, events);
      SourcesAppend(log, events);
      log := log + events;
    }

    method EmitOutcome(o: RunOutcome) returns (ok: bool)
      requires Valid()
      modifies this
      ensures Sources(log) == old(Sources(log))
      ensures Valid() && Reached() == old(Reached())
      ensures Outcomes() == if ok then old(Outcomes()) + [o] else old(Outcomes())
      ensures StatusesOf(log) == old(StatusesOf(log)) && old(log) <= log
      ensures AllAppended() <==> old(AllAppended()) && ok
    {
      LogSnoc(log, OutcomeEmitted(o));
      SourcesSnoc(log, OutcomeEmitted(o));
      ok := Append(OutcomeEmitted(o));
    }

    /** A status change, checked against the status that the caller believes to be current. */
    method EmitStatus(to: Status, current: Status) returns (ok: bool)
      requires Valid()
      requires CanTransition(current, to) ==> CanTransition(Reached(), to)
      modifies this
      ensures Sources(log) == old(Sources(log))
      ensures Valid() && Outcomes() == old(Outcomes())
      ensures Reached() == if ok then to else old(Reached())
      ensures ok ==> CanTransition(current, to)
      ensures StatusesOf(log) == if ok then old(StatusesOf(log)) + [to] else old(StatusesOf(log))
      ensures old(log) <= log
      ensures AllAppended() <==> old(AllAppended()) && (ok || !CanTransition(current, to))
    {
      if !CanTransition(current, to) {
        return false;
      }
      StatusAppended(log, to);
      LogSnoc(log, StatusChanged(to));
      SourcesSnoc(log, StatusChanged(to));
      ok := Append(StatusChanged(to));
    }

    /** What the body of a run leaves to its handler. */
    ghost predicate Ended(e: Ending)
      reads this
    {
      match e
      case Finished(o) => Outcomes() == [o] && Reached() == OutcomeStatus(o)
      case Raising(current, None) => Outcomes() == [] && !Terminal(Reached()) && !Terminal(current)
      case Cancelling(current) => Outcomes() == [] && !Terminal(Reached()) && !Terminal(current)
      case Raising(current, Some(o)) =>
        && Outcomes() == [o] && !Terminal(Reached()) && !AllAppended()
        && (CanTransition(current, OutcomeStatus(o)) ==> CanTransition(Reached(), OutcomeStatus(o)))
    }

    /** The handler: an outcome if none was written, then the terminal status; its own errors are only logged. */
    method EmitFailure(current: Status, terminal: Option<RunOutcome>)
      requires Valid() && Ended(Raising(current, terminal))
      modifies this
      ensures Sources(log) == old(Sources(log)) && old(log) <= log
      ensures Executing in StatusesOf(log) <==> Executing in old(StatusesOf(log))
      ensures Valid() && (AllAppended() ==> old(AllAppended()))
      ensures var o := if terminal.Some? then terminal.value else FailedRun;
              && (Outcomes() == [o] || (Outcomes() == [] && !Terminal(Reached())))
              && (Terminal(Reached()) ==> Reached() == OutcomeStatus(o))
              && (AllAppended() ==> Outcomes() == [o] && Reached() == OutcomeStatus(o))
    {
      var o := if terminal.Some? then terminal.value else FailedRun;
      if terminal.None? {
        var ok := EmitOutcome(o);
        if !ok {
          return;
        }
      }
      var _ := EmitStatus(OutcomeStatus(o), current);
    }

    /** The statuses that lead to an outcome that was written. */
    method FollowPath(o: RunOutcome, path: seq<Status>, current: Status) returns (e: Ending)
      requires Valid() && Outcomes() == [o] && Reached() == current && !Terminal(current)
      requires path != [] && LegalPath(current, path) && path[|path| - 1] == OutcomeStatus(o)
      modifies this
      ensures Sources(log) == old(Sources(log)) && old(log) <= log
      ensures Valid() && Ended(e)
      ensures e == Finished(o) || (e.Raising? && e.terminal == Some(o))
      ensures AllAppended() ==> old(AllAppended()) && e == Finished(o)
    {
      var now, rest := current, path;
      while rest != []
        invariant Valid() && Outcomes() == [o] && Reached() == now
        invariant rest == [] ==> now == OutcomeStatus(o)
        invariant rest != [] ==> !Terminal(now) && LegalPath(now, rest) && rest[|rest| - 1] == OutcomeStatus(o)
        invariant AllAppended() ==> old(AllAppended())
        invariant Sources(log) == old(Sources(log)) && old(log) <= log
      {
        var ok := EmitStatus(rest[0], now);
        if !ok {
          return Raising(now, Some(o));
        }
        now, rest := rest[0], rest[1..];
      }
      e := Finished(o);
    }

    /** An outcome and then the statuses that lead to it. */
    method Conclude(o: RunOutcome, path: seq<Status>, current: Status) returns (e: Ending)
      requires Valid() && Outcomes() == [] && Reached() == current && !Terminal(current)
      requires path != [] && LegalPath(current, path) && path[|path| - 1] == OutcomeStatus(o)
      modifies this
      ensures Sources(log) == old(Sources(log)) && old(log) <= log
      ensures Valid() && Ended(e)
      ensures e == Finished(o) || (e.Raising? && (e.terminal == None || e.terminal == Some(o)))
      ensures AllAppended() ==> old(AllAppended()) && e == Finished(o)
    {
      var ok := EmitOutcome(o);
      if !ok {
        return Raising(current, None);
      }
      e := FollowPath(o, path, current);
    }

    method StartVerifying(usage: Spend) returns (ok: bool)
      requires Valid() && Reached() == Executing
      modifies this
      ensures Sources(log) == old(Sources(log)) && old(log) <= log
      ensures Valid() && Outcomes() == old(Outcomes())
      ensures Reached() == if ok then Verifying else Executing
      ensures AllAppended() <==> old(AllAppended()) && ok
    {
      ok := Emit(BudgetUpdated(usage, false));
      if ok {
        ok := EmitStatus(Verifying, Executing);
      }
    }

    /** Hard gates, soft rubric and the law, up to the recorded evidence; none if a step raises. */
    method Verify(start: Start, w: VerifyWorld, usage: Spend) returns (verdict: Option<RunOutcome>)
      requires Valid() && Reached() == Executing
      modifies this
      ensures Sources(log) == old(Sources(log)) && old(log) <= log
      ensures Valid() && Outcomes() == old(Outcomes())
      ensures verdict.None? ==> Reached() == Executing || Reached() == Verifying
      ensures verdict.Some? ==> Reached() == Verifying && w.contents.Some?
      ensures verdict.Some? ==>
        (verdict.value == FailedRun <==> !R.HardPassed(start.contract.criteria, w.check)) &&
        (verdict.value == Verified <==>
          (R.HardPassed(start.contract.criteria, w.check) && !R.Exceeds(usage, start.contract.budget) &&
           R.SoftAccepted(start.contract.criteria, w.reviewers, w.records, w.contents.value)))
      ensures verdict.Some? ==> Undisturbed(w)
      ensures AllAppended() ==> old(AllAppended()) && (Undisturbed(w) ==> verdict.Some?)
    {
      var ok := StartVerifying(usage);
      if !ok || w.hardRaises {
        return None;
      }
      var hard := R.VerifyHard(start.contract.criteria, w.check);
      if w.contents.None? || w.reviewRaises {
        return None;
      }
      var review := R.CheckSoft(start.contract.criteria, w.reviewers, w.records, w.contents.value);
      var outcome := R.Decide(start.contract, hard, Some(review), usage);
      R.OutcomeMeans(start.contract, w.check, w.reviewers, w.records, w.contents.value, usage, hard, review);
      ok := Emit(EvidenceRecorded(outcome));
      verdict := if ok then Some(outcome) else None;
    }

    /** Writes the verdict. The caller still believes the run to be executing, which its handler sees. */
    method WriteVerdict(o: RunOutcome) returns (e: Ending)
      requires Valid() && Outcomes() == [] && Reached() == Verifying
      modifies this
      ensures Sources(log) == old(Sources(log)) && old(log) <= log
      ensures Valid() && Ended(e)
      ensures e == Finished(o) || e == Raising(Executing, None) || e == Raising(Executing, Some(o))
      ensures AllAppended() ==> old(AllAppended()) && e == Finished(o)
    {
      var ok := EmitOutcome(o);
      if !ok {
        return Raising(Executing, None);
      }
      assert CanTransition(Verifying, OutcomeStatus(o));
      ok := EmitStatus(OutcomeStatus(o), Verifying);
      e := if ok then Finished(o) else Raising(Executing, Some(o));
    }

    /** Everything from the start of execution: shared by fresh and resumed runs. */
    method ExecuteAndFinish(start: Start, w: TailWorld) returns (e: Ending)
      requires Valid() && Outcomes() == [] && Reached() == Executing
      requires UniqueIds(start.cells) && start.init <= IdSet(start.cells)
      requires forall p :: p in w.cellEvents ==> Neutral(p)
      modifies this
      ensures Sources(log) <= old(Sources(log)) + Sources(w.cellEvents) && old(log) <= log
      ensures Valid() && Ended(e) && (e.Cancelling? <==> Cancels(start, w))
      ensures Ends(e, Verified) ==> Earned(start, w)
      ensures AllAppended() ==> old(AllAppended()) && Ends(e, Expected(start, w))
    {
      if w.factoryRaises {
        return Raising(Executing, None);
      }
      var finish := E.ExecuteCells(start.cells, start.limits, start.committed, start.maxWaves, start.init, w.exec);
      Note(w.cellEvents);
      e := Finish(start, w, finish);
      if Ends(e, Verified) {
        VerifiedIsEarned(start, w);
      }
    }

    /** What follows from the result of the round loop. */
    method Finish(start: Start, w: TailWorld, finish: E.Finish) returns (e: Ending)
      requires Valid() && Outcomes() == [] && Reached() == Executing
      requires finish == CellsOf(start, w) && !w.factoryRaises
      modifies this
      ensures Sources(log) == old(Sources(log)) && old(log) <= log
      ensures Valid() && Ended(e) && (e.Cancelling? <==> Cancels(start, w))
      ensures Ends(e, Verified) ==> Passed(start, w)
      ensures AllAppended() ==> old(AllAppended()) && Ends(e, Expected(start, w))
    {
      match finish.result
      case Crashed =>
        e := Raising(Executing, None);
      case Reraised =>
        e := Cancelling(Executing);
      case Returned(Some(o)) =>
        e := EndShort(o);
      case Returned(None) =>
        e := VerifyAndFinish(start, w.verify, TotalUsage(start, finish.spent));
    }

    /** A cell, a stall or the budget has ended the run before verification. */
    method EndShort(o: ShortOutcome) returns (e: Ending)
      requires Valid() && Outcomes() == [] && Reached() == Executing
      modifies this
      ensures Sources(log) == old(Sources(log)) && old(log) <= log
      ensures Valid() && Ended(e) && !Ends(e, Verified) && !e.Cancelling?
      ensures AllAppended() ==> old(AllAppended()) && e == Finished(o)
    {
      var ok := Emit(EvidenceRecorded(o));
      if !ok {
        return Raising(Executing, None);
      }
      RouteIsLegal(Executing, OutcomeStatus(o));
      e := Conclude(o, Route(Executing, OutcomeStatus(o)).value, Executing);
    }

    method VerifyAndFinish(start: Start, w: VerifyWorld, usage: Spend) returns (e: Ending)
      requires Valid() && Outcomes() == [] && Reached() == Executing
      modifies this
      ensures Sources(log) == old(Sources(log)) && old(log) <= log
      ensures Valid() && Ended(e) && !e.Cancelling?
      ensures Ends(e, Verified) ==> w.contents.Some? && R.HardPassed(start.contract.criteria, w.check)
      ensures Ends(e, Verified) ==> !R.Exceeds(usage, start.contract.budget)
      ensures Ends(e, Verified) ==> R.SoftAccepted(start.contract.criteria, w.reviewers, w.records, w.contents.value)
      ensures AllAppended() ==>
        old(AllAppended()) && e == if Undisturbed(w) then Finished(VerdictOn(start, w, usage))
          else Raising(Executing, None)
    {
      var verdict := Verify(start, w, usage);
      if verdict.None? {
        return Raising(Executing, None);
      }
      e := WriteVerdict(verdict.value);
    }

    /** The log of a finished run against the outcome it returns. */
    ghost predicate Consistent(outcome: RunOutcome)
      reads this
    {
      // Whatever failed: the log replays, has at most one outcome and one terminal status, and they are those returned.
      && Valid()
      && (Outcomes() == [outcome] || (Outcomes() == [] && !Terminal(Reached())))
      && (Terminal(Reached()) ==> Reached() == OutcomeStatus(outcome))
      // When no append failed both were written.
      && (AllAppended() ==> Outcomes() == [outcome] && Reached() == OutcomeStatus(outcome))
    }

    /** The `except` clauses around a run: after a cancellation is handled it is raised again. */
    method Handle(e: Ending) returns (outcome: RunOutcome, reraised: bool)
      requires Valid() && Ended(e)
      modifies this
      ensures Sources(log) == old(Sources(log)) && old(log) <= log
      ensures Executing in StatusesOf(log) <==> Executing in old(StatusesOf(log))
      ensures Ends(e, outcome) && Consistent(outcome)
      ensures reraised <==> e.Cancelling?
      ensures AllAppended() ==> old(AllAppended())
    {
      reraised := e.Cancelling?;
      match e
      case Finished(o) =>
        outcome := o;
      case Raising(current, terminal) =>
        EmitFailure(current, terminal);
        outcome := if terminal.Some? then terminal.value else FailedRun;
      case Cancelling(current) =>
        EmitFailure(current, None);
        outcome := FailedRun;
    }

    /** From the request to the contract; an ending if a stage raises. */
    method Prepare(request: Option<Budget>, w: RunWorld) returns (e: Option<Ending>)
      requires Valid() && log == []
      requires forall p :: p in w.compileEvents ==> Neutral(p)
      modifies this
      ensures Sources(log) <= Sources(w.compileEvents)
      ensures AllAppended() ==> [RequestAccepted(Announced(request))] <= log
      ensures Valid()
      ensures e.Some? ==> Ended(e.value) && !Ends(e.value, Verified) && !e.value.Cancelling?
      ensures e.None? ==> Outcomes() == [] && Reached() == Contracted && w.compile.Some?
      ensures AllAppended() ==> old(AllAppended()) && e == if w.compile.Some? then None else Some(Raising(Intake, None))
    {
      var ok := Emit(RequestAccepted(Announced(request)));
      if !ok {
        return Some(Raising(Intake, None));
      }
      Note(w.compileEvents);
      if w.compile.None? {
        return Some(Raising(Intake, None));
      }
      ok := EmitStatus(Contracted, Intake);
      e := if ok then None else Some(Raising(Intake, None));
    }

    method RejectPlan() returns (e: Ending)
      requires Valid() && Outcomes() == [] && Reached() == Contracted
      modifies this
      ensures Sources(log) == old(Sources(log)) && old(log) <= log
      ensures Valid() && Ended(e) && !Ends(e, Verified) && !e.Cancelling?
      ensures AllAppended() ==> old(AllAppended()) && e == Finished(Abstained)
    {
      var ok := Emit(GraphProposed);
      if !ok {
        return Raising(Contracted, None);
      }
      assert [AbstainedStatus][1..] == [];
      e := Conclude(Abstained, [AbstainedStatus], Contracted);
    }

    method StartExecution(plan: Graph) returns (e: Option<Ending>)
      requires Valid() && Outcomes() == [] && Reached() == Contracted
      modifies this
      ensures Sources(log) <= old(Sources(log)) + {GraphAccepted(plan)} && old(log) <= log
      ensures Valid()
      ensures e.Some? ==> Ended(e.value) && !Ends(e.value, Verified) && !e.value.Cancelling?
      ensures e.None? ==> Outcomes() == [] && Reached() == Executing
      ensures AllAppended() ==> old(AllAppended()) && e.None?
    {
      var ok := Emit(GraphAccepted(plan));
      if !ok {
        return Some(Raising(Contracted, None));
      }
      e := Enter();
    }

    /** From the contract over the plan into execution. */
    method Enter() returns (e: Option<Ending>)
      requires Valid() && Outcomes() == [] && Reached() == Contracted
      modifies this
      ensures Sources(log) == old(Sources(log)) && old(log) <= log
      ensures Valid()
      ensures e.Some? ==> Ended(e.value) && !Ends(e.value, Verified) && !e.value.Cancelling? && IsEarly(Reached())
      ensures e.None? ==> Outcomes() == [] && Reached() == Executing
      ensures AllAppended() ==> old(AllAppended()) && e.None?
    {
      var ok := EmitStatus(Planned, Contracted);
      if !ok {
        return Some(Raising(Contracted, None));
      }
      ok := EmitStatus(Executing, Planned);
      e := if ok then None else Some(Raising(Planned, None));
    }

    /** From the contract to the accepted graph; a rejected graph ends the run. */
    method AcceptPlan(contract: Contract, maxWaves: nat, plan: Option<Graph>) returns (e: Option<Ending>)
      requires Valid() && Outcomes() == [] && Reached() == Contracted
      modifies this
      ensures Sources(log) <= old(Sources(log)) +
        if plan.Some? && V.Accepted(plan.value, Some(contract.budget), Some(maxWaves)) then {GraphAccepted(plan.value)}
        else {}
      ensures old(log) <= log
      ensures Valid()
      ensures e.Some? ==> Ended(e.value) && !Ends(e.value, Verified) && !e.value.Cancelling?
      ensures e.None? ==> Outcomes() == [] && Reached() == Executing
      ensures e.None? ==> plan.Some? && V.Accepted(plan.value, Some(contract.budget), Some(maxWaves))
      ensures AllAppended() ==> old(AllAppended())
      ensures AllAppended() && plan.Some? ==>
        e == if V.Accepted(plan.value, Some(contract.budget), Some(maxWaves)) then None else Some(Finished(Abstained))
      ensures AllAppended() && plan.None? ==> e == Some(Raising(Contracted, None))
    {
      if plan.None? {
        return Some(Raising(Contracted, None));
      }
      var errors := V.Validate(plan.value, Some(contract.budget), Some(maxWaves));
      if errors != [] {
        assert errors[0] in errors;
        var ending := RejectPlan();
        return Some(ending);
      }
      e := StartExecution(plan.value);
    }

    /** Everything inside the `try` of a fresh run. */
    method RunBody(request: Option<Budget>, maxWaves: nat, w: RunWorld, ghost start: Start) returns (e: Ending)
      requires Valid() && log == [] && appends == 0
      requires forall p :: p in w.compileEvents ==> Neutral(p)
      requires forall p :: p in w.tail.cellEvents ==> Neutral(p)
      requires w.compile.Some? && w.plan.Some? ==>
        start == FreshStart(w.compile.value, w.plan.value, maxWaves, request)
      modifies this
      ensures Sources(log) <= FreshSources(maxWaves, w)
      ensures Valid() && Ended(e)
      ensures Ends(e, Verified) ==>
        && w.compile.Some? && w.plan.Some?
        && V.Accepted(w.plan.value, Some(w.compile.value.budget), Some(maxWaves)) && Earned(start, w.tail)
      ensures e.Cancelling? ==> CancelsRun(start, maxWaves, w)
      ensures AllAppended() ==>
        Ends(e, ExpectedOf(start, maxWaves, w)) && (e.Cancelling? <==> CancelsRun(start, maxWaves, w))
      ensures AllAppended() ==> [RequestAccepted(Announced(request))] <= log
    {
      var early := Prepare(request, w);
      if early.None? {
        early := AcceptPlan(w.compile.value, maxWaves, w.plan);
      }
      if early.Some? {
        return early.value;
      }
      AcceptedIsUnique(w.plan.value, Some(w.compile.value.budget), Some(maxWaves));
      e := ExecuteAndFinish(FreshStart(w.compile.value, w.plan.value, maxWaves, request), w.tail);
    }

    /** A fresh run, under its own id. */
    method Run(request: Option<Budget>, maxWaves: nat, w: RunWorld)
      returns (outcome: RunOutcome, reraised: bool, ghost start: Start)
      requires Valid() && log == [] && appends == 0
      requires forall p :: p in w.compileEvents ==> Neutral(p)
      requires forall p :: p in w.tail.cellEvents ==> Neutral(p)
      modifies this
      ensures Consistent(outcome)
      ensures outcome == Verified ==>
        && w.compile.Some? && w.plan.Some?
        && V.Accepted(w.plan.value, Some(w.compile.value.budget), Some(maxWaves))
        && Earned(start, w.tail)
        && !R.Exceeds(SpentByAll(start, w.tail), w.compile.value.budget)
      ensures w.compile.Some? && w.plan.Some? ==>
        StartsFresh(start, w.compile.value, w.plan.value, maxWaves, request)
      ensures AllAppended() ==> outcome == ExpectedOf(start, maxWaves, w)
      ensures reraised ==> CancelsRun(start, maxWaves, w) && outcome == FailedRun
      ensures AllAppended() ==> (reraised <==> CancelsRun(start, maxWaves, w))
      ensures AllAppended() ==> [RequestAccepted(Announced(request))] <= log
      // Where its events are of its own cells, the log is fit to be resumed from.
      ensures OnGraph(w.compileEvents, []) && (w.plan.Some? ==> OnGraph(w.tail.cellEvents, w.plan.value.cells)) ==>
        Tame(Sources(log))
    {
      start := if w.compile.Some? && w.plan.Some? then FreshStart(w.compile.value, w.plan.value, maxWaves, request)
        else NOWHERE;
      var e := RunBody(request, maxWaves, w, start);
      outcome, reraised := Handle(e);
      if outcome == Verified {
        AcceptedIsUnique(w.plan.value, Some(w.compile.value.budget), Some(maxWaves));
        VerifiedCountsAll(start, w.tail);
      }
      FreshSourcesAreTame(maxWaves, w, log);
    }

    /** Events that a resumed run copies from its source. */
    method Copy(events: seq<Payload>) returns (ok: bool)
      requires Valid() && forall p :: p in events ==> Neutral(p)
      modifies this
      ensures Sources(log) <= old(Sources(log)) + Sources(events)
      ensures Valid() && Reached() == old(Reached()) && Outcomes() == old(Outcomes())
      ensures ok ==> log == old(log) + events
      ensures AllAppended() <==> old(AllAppended()) && ok
    {
      ghost var before := log;
      for i := 0 to |events|
        invariant AllAppended() == old(AllAppended())
        invariant Valid() && Reached() == old(Reached()) && Outcomes() == old(Outcomes())
        invariant log == before + events[..i]
        invariant Sources(log) <= Sources(before) + Sources(events)
      {
        assert events[..i + 1] == events[..i] + [events[i]] && events[i] in events;
        ok := Emit(events[i]);
        if !ok {
          return false;
        }
      }
      ok := true;
    }

    /** The events of the source under the new id: intake, contract, graph and completions. */
    method Reissue(request: Option<Budget>, source: seq<Payload>, completed: set<Id>) returns (ok: bool)
      requires Valid() && log == []
      modifies this
      ensures Sources(log) <= Sources(Opened(request, source, completed))
      ensures Valid() && Outcomes() == [] && Reached() == Intake
      ensures ok ==> log == Opened(request, source, completed)
      ensures AllAppended() <==> old(AllAppended()) && ok
    {
      OpenedParts(request, source, completed);
      ok := Emit(RequestAccepted(request));
      if !ok {
        return;
      }
      CopiesAreNeutral(source, completed);
      ok := Copy(Reissued(source, completed));
      if !ok {
        return;
      }
      ok := Copy(CompletionsOf(source));
    }

    /** The start of a resumed run, up to execution. */
    method Reopen(request: Option<Budget>, source: seq<Payload>, completed: set<Id>) returns (e: Option<Ending>)
      requires Valid() && log == []
      modifies this
      ensures Sources(log) <= Sources(Opened(request, source, completed))
      ensures Valid()
      ensures e.Some? ==> Ended(e.value) && !Ends(e.value, Verified) && !e.value.Cancelling?
      ensures e.None? ==> Outcomes() == [] && Reached() == Executing
      ensures e.None? ==> Opened(request, source, completed) <= log
      ensures e.Some? ==> IsEarly(Reached())
      ensures AllAppended() ==> old(AllAppended()) && e.None?
    {
      var ok := Reissue(request, source, completed);
      if !ok {
        return Some(Raising(Intake, None));
      }
      ok := EmitStatus(Contracted, Intake);
      if !ok {
        return Some(Raising(Intake, None));
      }
      e := Enter();
    }

    /** Everything inside the `try` of a resumed run. */
    method ResumeBody(request: Option<Budget>, source: seq<Payload>, start: Start, w: TailWorld) returns (e: Ending)
      requires Valid() && log == [] && UniqueIds(start.cells) && start.init <= IdSet(start.cells)
      requires forall p :: p in w.cellEvents ==> Neutral(p)
      modifies this
      ensures Sources(log) <= Sources(Opened(request, source, start.init)) + Sources(w.cellEvents)
      ensures Valid() && Ended(e)
      ensures AllAppended() || Executing in StatusesOf(log) ==> Opened(request, source, start.init) <= log
      ensures Ends(e, Verified) ==> Earned(start, w)
      ensures e.Cancelling? ==> Cancels(start, w)
      ensures AllAppended() ==>
        old(AllAppended()) && Ends(e, Expected(start, w)) && (e.Cancelling? <==> Cancels(start, w))
    {
      var early := Reopen(request, source, start.init);
      if early.Some? {
        EarlyIsNotExecuting(Intake, StatusesOf(log));
        return early.value;
      }
      e := ExecuteAndFinish(start, w);
    }

    /** Continues a stopped run as a new one; none when there is nothing to resume from, and then nothing is written. */
    method Resume<H>(state: RunState<H>, source: seq<Payload>, w: TailWorld)
      returns (outcome: Option<RunOutcome>, reraised: bool, ghost start: Start)
      requires Valid() && log == [] && appends == 0
      requires forall p :: p in w.cellEvents ==> Neutral(p)
      requires state.graph.Some? ==> UniqueIds(state.graph.value.cells)
      requires state.graph.Some? ==> CompletedIds(state.graph.value, source) <= IdSet(state.graph.value.cells)
      modifies this
      ensures outcome.None? <==> state.contract.None? || state.graph.None? || state.status == VerifiedStatus
      ensures outcome.None? ==> log == []
      ensures outcome.Some? ==> Consistent(outcome.value)
      ensures outcome.Some? ==> GoesOnFrom(start, state, source)
      // It runs no cell that its source had completed, and all the others if it is verified.
      ensures outcome.Some? ==> forall c :: c in CellsOf(start, w).ran ==> c in start.cells && !DoneBefore(c, source)
      ensures outcome == Some(Verified) ==>
        && Earned(start, w) && !R.Exceeds(SpentByAll(start, w), start.contract.budget)
        && forall c :: c in start.cells ==> (c in CellsOf(start, w).ran <==> !DoneBefore(c, source))
      // Once it executes, the log opens with what it takes over from its source.
      ensures outcome.Some? && (AllAppended() || Executing in StatusesOf(log)) ==>
        Opened(state.runBudget, source, CompletedIds(state.graph.value, source)) <= log
      ensures outcome.Some? && AllAppended() ==> outcome == Some(Expected(start, w))
      ensures reraised ==> outcome == Some(FailedRun) && Cancels(start, w)
      ensures outcome.Some? && AllAppended() ==> (reraised <==> Cancels(start, w))
      // A log resumed from a fit source, by events of its cells, is fit to be resumed from again.
      ensures Tame(Sources(source)) && OnGraphs(w.cellEvents, source) ==> Tame(Sources(log))
    {
      if state.contract.None? || state.graph.None? || state.status == VerifiedStatus {
        return None, false, NOWHERE;
      }
      var from := ResumedStart(state, source);
      start := from;
      ResumedGoesOn(state, source);
      RunsTheRest(from, state, source, w);
      var e := ResumeBody(state.runBudget, source, from, w);
      var o;
      o, reraised := Handle(e);
      outcome := Some(o);
      ResumedSourcesAreTame(state.runBudget, source, from.init, w.cellEvents, log);
    }
  }

  const DEFAULT_MAX_WAVES: nat := 3

  /** In place of a start, for a run that has none. */
  const NOWHERE := Start(Contract("", 0, "", UNLIMITED, []), [], 0, UNLIMITED, NO_SPEND, NO_SPEND, {})

  /** What the source of a resumed run had completed: by its graph or by its completion events. */
  function CompletedIds(g: Graph, source: seq<Payload>): set<Id> {
    (set c | c in g.cells && c.status.Completed? :: c.id) + (set p | p in source && p.CellCompleted? :: p.completed)
  }

  /** A resumed run takes usage from its source; its authority only hears of it if tokens or calls were used. */
  function ResumedStart<H>(state: RunState<H>, source: seq<Payload>): Start
    requires state.contract.Some? && state.graph.Some?
  {
    var told := state.usage.inputTokens != 0 || state.usage.outputTokens != 0 || state.usage.calls != 0;
    Start(state.contract.value, state.graph.value.cells, DEFAULT_MAX_WAVES,
          if state.runBudget.Some? then state.runBudget.value else UNLIMITED,
          state.usage, if told then state.usage else NO_SPEND, CompletedIds(state.graph.value, source))
  }

  lemma {:induction false} ResumedGoesOn<H>(state: RunState<H>, source: seq<Payload>)
    requires state.contract.Some? && state.graph.Some? && UniqueIds(state.graph.value.cells)
    ensures GoesOnFrom(ResumedStart(state, source), state, source)
  {
    var cells := state.graph.value.cells;
    forall c | c in cells ensures c.id in CompletedIds(state.graph.value, source) <==> DoneBefore(c, source) {
      if d :| d in cells && d.status.Completed? && d.id == c.id {
        RoundBound.DifferentIds(cells, c, d);
      }
    }
  }

  /** The events of the source that a resumed run writes again. */
  predicate Reissues(p: Payload) {
    p.AnalysisRequested? || p.AnalysisCompleted? || p.ContractProposed? || p.ContractValidated? || p.GraphAccepted?
  }

  /** A graph is written again with the completed cells marked. */
  function Again(p: Payload, completed: set<Id>): Payload {
    if p.GraphAccepted? then
      var cells := p.graph.cells;
      GraphAccepted(p.graph.(cells := seq(|cells|, i requires 0 <= i < |cells| =>
        if cells[i].id in completed then cells[i].(status := Completed) else cells[i])))
    else p
  }

  function Reissued(source: seq<Payload>, completed: set<Id>): seq<Payload> {
    if source == [] then []
    else
      var last := source[|source| - 1];
      Reissued(source[..|source| - 1], completed) + (if Reissues(last) then [Again(last, completed)] else [])
  }

  function CompletionsOf(source: seq<Payload>): seq<Payload> {
    if source == [] then []
    else
      CompletionsOf(source[..|source| - 1]) +
      (if source[|source| - 1].CellCompleted? then [source[|source| - 1]] else [])
  }

  /** What a resumed run writes before its first status. */
  function Opened(request: Option<Budget>, source: seq<Payload>, completed: set<Id>): seq<Payload> {
    [RequestAccepted(request)] + Reissued(source, completed) + CompletionsOf(source)
  }

  lemma {:induction false} OpenedParts(request: Option<Budget>, source: seq<Payload>, completed: set<Id>)
    ensures Sources(Opened(request, source, completed)) ==
            Sources(Reissued(source, completed)) + Sources(CompletionsOf(source))
  {
    var first := [RequestAccepted(request)];
    SourcesAppend(first + Reissued(source, completed), CompletionsOf(source));
    SourcesAppend(first, Reissued(source, completed));
    SourcesSnoc([], RequestAccepted(request));
    assert [] + first == first && Sources([]) == {};
  }

  lemma {:induction false} CopiesAreNeutral(source: seq<Payload>, completed: set<Id>)
    ensures forall p :: p in Reissued(source, completed) ==> Neutral(p)
    ensures forall p :: p in CompletionsOf(source) ==> Neutral(p) && p.CellCompleted?
  {
    if source != [] {
      CopiesAreNeutral(source[..|source| - 1], completed);
    }
  }

  /** A graph with the completed cells marked, and nothing else changed. */
  ghost predicate Marks(g: Graph, completed: set<Id>, marked: Graph) {
    && marked == g.(cells := marked.cells) && |marked.cells| == |g.cells|
    && forall i :: 0 <= i < |g.cells| ==>
         marked.cells[i] == g.cells[i].(status := if g.cells[i].id in completed then Completed else g.cells[i].status)
  }

  /** Events of the analysis and the contract as they are, accepted graphs with marks, and completions. */
  ghost predicate TakesOver(source: seq<Payload>, completed: set<Id>, p: Payload) {
    || (p in source && (p.AnalysisRequested? || p.AnalysisCompleted? || p.ContractProposed? || p.ContractValidated? ||
                        p.CellCompleted?))
    || (p.GraphAccepted? && exists q :: q in source && q.GraphAccepted? && Marks(q.graph, completed, p.graph))
  }

  /** Besides the request, a resumed run opens with exactly what it takes over. */
  lemma {:induction false} OpensWithExactly(request: Option<Budget>, source: seq<Payload>, completed: set<Id>,
                                            p: Payload)
    ensures p in Opened(request, source, completed) <==>
            p == RequestAccepted(request) || TakesOver(source, completed, p)
  {
    ReissuedExactly(source, completed, p);
    CompletionsExactly(source, p);
    if TakesOver(source, completed, p) && p.GraphAccepted? {
      var q :| q in source && q.GraphAccepted? && Marks(q.graph, completed, p.graph);
      MarksIsAgain(q, completed, p);
    }
  }

  lemma {:induction false} MarksIsAgain(q: Payload, completed: set<Id>, p: Payload)
    requires q.GraphAccepted? && p.GraphAccepted?
    ensures Marks(q.graph, completed, p.graph) <==> p == Again(q, completed)
  {
    var again := Again(q, completed);
    assert Marks(q.graph, completed, again.graph);
    if Marks(q.graph, completed, p.graph) {
      assert p.graph.cells == again.graph.cells;
    }
  }

  lemma {:induction false} ReissuedExactly(source: seq<Payload>, completed: set<Id>, p: Payload)
    ensures p in Reissued(source, completed) <==> exists q :: q in source && Reissues(q) && p == Again(q, completed)
    ensures p in Reissued(source, completed) ==>
      (!p.GraphAccepted? && p in source && Reissues(p)) ||
      (p.GraphAccepted? && exists q :: q in source && q.GraphAccepted? && Marks(q.graph, completed, p.graph))
    ensures !p.GraphAccepted? && p in source && Reissues(p) ==> p in Reissued(source, completed)
  {
    if source != [] {
      var front, last := source[..|source| - 1], source[|source| - 1];
      assert source == front + [last];
      ReissuedExactly(front, completed, p);
      if last.GraphAccepted? && p.GraphAccepted? {
        MarksIsAgain(last, completed, p);
      }
    }
  }

  lemma {:induction false} CompletionsExactly(source: seq<Payload>, p: Payload)
    ensures p in CompletionsOf(source) <==> p in source && p.CellCompleted?
  {
    if source != [] {
      assert source == source[..|source| - 1] + [source[|source| - 1]];
      CompletionsExactly(source[..|source| - 1], p);
    }
  }

  // What a replay of the new log sees.

  /** The contract that a replay of a log ends with. */
  function ContractOf(log: seq<Payload>): Option<Contract> {
    if log == [] then None
    else if log[|log| - 1].ContractProposed? then Some(log[|log| - 1].contract)
    else ContractOf(log[..|log| - 1])
  }

  lemma {:induction false} ContractOfAppend(a: seq<Payload>, b: seq<Payload>)
    ensures ContractOf(a + b) == if ContractOf(b).Some? then ContractOf(b) else ContractOf(a)
  {
    if b == [] {
      assert a + b == a;
    } else {
      assert (a + b)[..|a + b| - 1] == a + b[..|b| - 1];
      ContractOfAppend(a, b[..|b| - 1]);
    }
  }

  lemma {:induction false} ReissuedContract(source: seq<Payload>, completed: set<Id>)
    ensures ContractOf(Reissued(source, completed)) == ContractOf(source)
    ensures ContractOf(CompletionsOf(source)).None?
  {
    if source != [] {
      var front, last := source[..|source| - 1], source[|source| - 1];
      ReissuedContract(front, completed);
      ContractOfAppend(Reissued(front, completed), if Reissues(last) then [Again(last, completed)] else []);
      ContractOfAppend(CompletionsOf(front), if last.CellCompleted? then [last] else []);
      assert forall p :: [p][..0] == [] && ContractOf([p]) == if p.ContractProposed? then Some(p.contract) else None;
    }
  }

  /** A replay of what a resumed run opens with rebuilds the contract of its source. */
  lemma {:induction false} ResumeKeepsContract(request: Option<Budget>, source: seq<Payload>, completed: set<Id>)
    ensures ContractOf(Opened(request, source, completed)) == ContractOf(source)
  {
    ReissuedContract(source, completed);
    ContractOfAppend([RequestAccepted(request)], Reissued(source, completed));
    ContractOfAppend([RequestAccepted(request)] + Reissued(source, completed), CompletionsOf(source));
    assert [RequestAccepted(request)][..0] == [];
  }

  function PayloadsOf<H>(events: seq<Envelope<H>>): seq<Payload> {
    if events == [] then [] else PayloadsOf(events[..|events| - 1]) + [events[|events| - 1].payload]
  }

  lemma {:induction false} StatusesAgree<H>(events: seq<Envelope<H>>)
    ensures Statuses(events) == StatusesOf(PayloadsOf(events))
  {
    if events != [] {
      StatusesAgree(events[..|events| - 1]);
      LogSnoc(PayloadsOf(events[..|events| - 1]), events[|events| - 1].payload);
    }
  }

  lemma {:induction false} StepContract<H>(folded: Folded<H>, e: Envelope<H>)
    requires Step(folded, e).Ok?
    ensures folded.Ok?
    ensures Step(folded, e).state.contract == if e.payload.ContractProposed? then Some(e.payload.contract)
      else folded.state.contract
  {
  }

  lemma {:induction false} FoldContract<H>(events: seq<Envelope<H>>)
    requires FoldAll(NewRun(), events).Ok?
    ensures FoldAll(NewRun(), events).state.contract == ContractOf(PayloadsOf(events))
    decreases |events|
  {
    if events != [] {
      var front, last := events[..|events| - 1], events[|events| - 1];
      StepContract(FoldAll(NewRun(), front), last);
      FoldContract(front);
      assert PayloadsOf(events)[..|PayloadsOf(events)| - 1] == PayloadsOf(front);
    }
  }

  /** The events of a run, read back from the ledger, always replay, to the status its log reached. */
  lemma {:induction false} LogReplays<H>(log: seq<Payload>, events: seq<Envelope<H>>)
    requires PayloadsOf(events) == log && LegalPath(Intake, StatusesOf(log))
    ensures FoldAll(NewRun(), events).Ok?
    ensures FoldAll(NewRun(), events).state.status == Last(Intake, StatusesOf(log))
    ensures FoldAll(NewRun(), events).state.contract == ContractOf(log)
  {
    StatusesAgree(events);
    ReplayIffLegal(NewRun<H>(), events);
    FoldContract(events);
  }

  /** A log that replays has at most one terminal status, and it is the last one. */
  lemma {:induction false} TerminalStatusIsLast(log: seq<Payload>, i: nat)
    requires LegalPath(Intake, StatusesOf(log)) && i < |StatusesOf(log)| && Terminal(StatusesOf(log)[i])
    ensures i == |StatusesOf(log)| - 1
  {
    TerminalIsLast(Intake, StatusesOf(log), i);
  }

  /** A fresh run starts with nothing spent; without a request budget nothing is limited. */
  function FreshStart(contract: Contract, graph: Graph, maxWaves: nat, request: Option<Budget>): Start {
    Start(contract, graph.cells, maxWaves, if request.Some? then request.value else UNLIMITED, NO_SPEND, NO_SPEND, {})
  }

  lemma {:induction false} AcceptedIsUnique(g: Graph, runBudget: Option<Budget>, maxWaves: Option<nat>)
    requires V.Accepted(g, runBudget, maxWaves)
    ensures UniqueIds(g.cells)
  {
    assert !V.Fault(g, runBudget, maxWaves, V.DuplicateIds);
  }

  lemma {:induction false} FewerAreTame(few: set<Payload>, all: set<Payload>)
    requires few <= all && Tame(all)
    ensures Tame(few)
  {
  }

  /** At most these graphs and completions are in the log of a fresh run. */
  ghost function FreshSources(maxWaves: nat, w: RunWorld): set<Payload> {
    Sources(w.compileEvents) +
    if w.compile.Some? && w.plan.Some? && V.Accepted(w.plan.value, Some(w.compile.value.budget), Some(maxWaves))
    then {GraphAccepted(w.plan.value)} + Sources(w.tail.cellEvents) else {}
  }

  lemma {:induction false} FreshSourcesAreTame(maxWaves: nat, w: RunWorld, log: seq<Payload>)
    requires Sources(log) <= FreshSources(maxWaves, w)
    ensures OnGraph(w.compileEvents, []) && (w.plan.Some? ==> OnGraph(w.tail.cellEvents, w.plan.value.cells)) ==>
      Tame(Sources(log))
  {
    if w.compile.Some? && w.plan.Some? && V.Accepted(w.plan.value, Some(w.compile.value.budget), Some(maxWaves)) {
      AcceptedIsUnique(w.plan.value, Some(w.compile.value.budget), Some(maxWaves));
    }
  }

  /** Events of cells, on every graph that a source accepted. */
  ghost predicate OnGraphs(events: seq<Payload>, source: seq<Payload>) {
    && (forall p :: p in events ==> !p.GraphAccepted?)
    && (forall p :: p in source && p.GraphAccepted? ==> OnGraph(events, p.graph.cells))
  }

  lemma {:induction false} ReissuedFrom(source: seq<Payload>, completed: set<Id>, p: Payload)
    requires p in Reissued(source, completed)
    ensures exists q :: q in source && Reissues(q) && p == Again(q, completed)
  {
    var front := source[..|source| - 1];
    if p in Reissued(front, completed) {
      ReissuedFrom(front, completed, p);
    }
  }

  lemma {:induction false} CompletionsFrom(source: seq<Payload>, p: Payload)
    requires p in CompletionsOf(source)
    ensures p in source && p.CellCompleted?
  {
    var front := source[..|source| - 1];
    if p in CompletionsOf(front) {
      CompletionsFrom(front, p);
    }
  }

  lemma {:induction false} AgainKeepsIds(g: Graph, completed: set<Id>)
    ensures var again := Again(GraphAccepted(g), completed).graph;
            IdSet(again.cells) == IdSet(g.cells) && (UniqueIds(g.cells) ==> UniqueIds(again.cells))
  {
    var cells, again := g.cells, Again(GraphAccepted(g), completed).graph.cells;
    assert |again| == |cells| && forall i :: 0 <= i < |cells| ==> again[i].id == cells[i].id;
    forall id ensures id in IdSet(again) <==> id in IdSet(cells) {
      if id in IdSet(again) {
        var i :| 0 <= i < |again| && again[i].id == id;
        assert cells[i] in cells;
      }
      if id in IdSet(cells) {
        var i :| 0 <= i < |cells| && cells[i].id == id;
        assert again[i] in again;
      }
    }
  }

  /** What a resumed run opens with has the graphs of its source, with the same ids, and its completions. */
  lemma {:induction false} OpenedSources(request: Option<Budget>, source: seq<Payload>, completed: set<Id>, p: Payload)
    requires p in Sources(Opened(request, source, completed))
    ensures p.CellCompleted? ==> p in source
    ensures p.GraphAccepted? ==> exists q :: q in source && q.GraphAccepted? && p == Again(q, completed)
  {
    if p in Reissued(source, completed) {
      ReissuedFrom(source, completed, p);
    } else if p in CompletionsOf(source) {
      CompletionsFrom(source, p);
    }
  }

  lemma {:induction false} ResumedSourcesAreTame(request: Option<Budget>, source: seq<Payload>, completed: set<Id>,
                                                 cellEvents: seq<Payload>, log: seq<Payload>)
    requires Sources(log) <= Sources(Opened(request, source, completed)) + Sources(cellEvents)
    ensures Tame(Sources(source)) && OnGraphs(cellEvents, source) ==> Tame(Sources(log))
  {
    if Tame(Sources(source)) && OnGraphs(cellEvents, source) {
      forall p | p in Sources(log) && p.GraphAccepted?
        ensures UniqueIds(p.graph.cells)
        ensures forall q :: q in Sources(log) && q.CellCompleted? ==> q.completed in IdSet(p.graph.cells)
      {
        OpenedSources(request, source, completed, p);
        var g :| g in source && g.GraphAccepted? && p == Again(g, completed);
        AgainKeepsIds(g.graph, completed);
        assert g in Sources(source);
        forall q | q in Sources(log) && q.CellCompleted? ensures q.completed in IdSet(p.graph.cells) {
          if q in Sources(Opened(request, source, completed)) {
            OpenedSources(request, source, completed, q);
          }
        }
      }
    }
  }

  /** The outcome that a run returns for an ending. */
  predicate Ends(e: Ending, o: RunOutcome) {
    match e
    case Finished(f) => f == o
    case Raising(_, Some(f)) => f == o
    case Raising(_, None) => o == FailedRun
    case Cancelling(_) => o == FailedRun
  }

  /**
   * Usage of the whole run: a resumed run adds to that of its source, which its authority may not have been told of.
   */
  function TotalUsage(start: Start, spent: Spend): Spend {
    if start.committed == start.usage then spent else start.usage.Plus(spent)
  }
}
