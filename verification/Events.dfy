/** Run statuses, typed events, and their fold into the projected state of a run. */
module Events {
  import opened Domain
  import Retry
  import Routing

  datatype Status =
    Intake | Contracted | Planned | Executing | Verifying | VerifiedStatus | AbstainedStatus | FailedStatus

  predicate Terminal(s: Status) { s.VerifiedStatus? || s.AbstainedStatus? || s.FailedStatus? }

  /**
   * What may follow a status: the next phase, failure, and abstention -- but not abstention
   * directly from `Executing`, and nothing after the end of a run.
   */
  predicate CanTransition(from: Status, to: Status) {
    !Terminal(from) &&
    (Successor(from) == to || to == FailedStatus || (to == AbstainedStatus && from != Executing))
  }

  function Successor(s: Status): Status {
    match s
    case Intake => Contracted
    case Contracted => Planned
    case Planned => Executing
    case Executing => Verifying
    case _ => VerifiedStatus
  }

  const ALL: set<Status> :=
    {Intake, Contracted, Planned, Executing, Verifying, VerifiedStatus, AbstainedStatus, FailedStatus}

  /** The transition table, built phase by phase. */
  method BuildTransitions() returns (table: map<Status, set<Status>>)
    ensures table.Keys == ALL
    ensures forall s, t :: s in table ==> (t in table[s] <==> CanTransition(s, t))
  {
    var phases := [Intake, Contracted, Planned, Executing, Verifying, VerifiedStatus];
    table := map[];
    for i := 0 to |phases| - 1
      invariant table.Keys == set p | p in phases[..i]
      invariant forall s, t :: s in table ==> (t in table[s] <==> CanTransition(s, t))
    {
      assert phases[..i + 1] == phases[..i] + [phases[i]];
      var escapes := if phases[i] == Executing then {FailedStatus} else {AbstainedStatus, FailedStatus};
      table := table[phases[i] := escapes + {phases[i + 1]}];
    }
    var terminals := [VerifiedStatus, AbstainedStatus, FailedStatus];
    assert phases[..5] == [Intake, Contracted, Planned, Executing, Verifying];
    table := table[VerifiedStatus := {}][AbstainedStatus := {}][FailedStatus := {}];
  }

  /** The statuses to emit one by one to get from one status to another; none if there is no way. */
  function Route(from: Status, to: Status): Option<seq<Status>> {
    if from == Executing && to == AbstainedStatus then Some([Verifying, AbstainedStatus])
    else if CanTransition(from, to) then Some([to])
    else None
  }

  /** A list of statuses each of which may follow the one before it. */
  predicate LegalPath(from: Status, path: seq<Status>)
    decreases |path|
  {
    path == [] || (CanTransition(from, path[0]) && LegalPath(path[0], path[1..]))
  }

  function Last(from: Status, path: seq<Status>): Status {
    if path == [] then from else path[|path| - 1]
  }

  lemma {:induction false} PathAppend(from: Status, a: seq<Status>, b: seq<Status>)
    ensures LegalPath(from, a + b) <==> LegalPath(from, a) && LegalPath(Last(from, a), b)
    decreases |a|
  {
    if a == [] {
      assert a + b == b;
    } else {
      assert (a + b)[1..] == a[1..] + b;
      PathAppend(a[0], a[1..], b);
    }
  }

  /** A route is a legal way to its target, and abstention and failure can be reached from every phase. */
  lemma {:induction false} RouteIsLegal(from: Status, to: Status)
    ensures Route(from, to).Some? ==> LegalPath(from, Route(from, to).value) && Last(from, Route(from, to).value) == to
    ensures !Terminal(from) && (to == AbstainedStatus || to == FailedStatus) ==> Route(from, to).Some?
    ensures Terminal(from) ==> Route(from, to).None?
  {
    if from == Executing && to == AbstainedStatus {
      assert [Verifying, AbstainedStatus][1..] == [AbstainedStatus];
      assert [AbstainedStatus][1..] == [];
    } else {
      assert [to][1..] == [];
    }
  }

  /** Nothing follows a terminal status, so a legal path has at most one, at its end. */
  lemma {:induction false} TerminalIsLast(from: Status, path: seq<Status>, i: nat)
    requires LegalPath(from, path) && i < |path| && Terminal(path[i])
    ensures i == |path| - 1
    decreases |path|
  {
    if i > 0 {
      assert path[1..][i - 1] == path[i];
      TerminalIsLast(path[0], path[1..], i - 1);
    } else {
      assert LegalPath(path[0], path[1..]);
    }
  }

  // Typed events.

  datatype Payload =
    | StatusChanged(status: Status)
    | RequestAccepted(runBudget: Option<Budget>)
    | ContractProposed(contract: Contract)
    | ContractAmended(version: nat)
    | GraphAccepted(graph: Graph)
    | CellCreated(cell: Cell)
    | RouteSelected(routed: Id, profile: Routing.ProfileName)
    | CellStarted(started: Id)
    | CellCompleted(completed: Id, artifact: string, spend: Spend)
    | CellFailed(failed: Id)
    | CellAdvanced(advanced: Id, cellStatus: CellStatus)
    | BudgetUpdated(usage: Spend, exhausted: bool)
    | EvidenceRecorded(evidenceFor: RunOutcome)
    | OutcomeEmitted(outcome: RunOutcome)
    | RecoveryTransition(recovered: Id, failure: Retry.FailureType, action: Retry.Action)
    | StallDetected
    | ContractValidated
    | AnalysisRequested
    | AnalysisCompleted
    | GraphProposed
    | OtherEvent(kind: string)

  /** An event as it is read back from the ledger. */
  datatype Envelope<H> = Envelope(seqNo: nat, payload: Payload, hash: H)

  /** The projection of a run. */
  datatype RunState<H> = RunState(
    status: Status,
    cells: seq<Cell>,
    eventsReplayed: nat,
    lastHash: Option<H>,
    runBudget: Option<Budget>,
    contractVersion: nat,
    contract: Option<Contract>,
    graph: Option<Graph>,
    routes: map<Id, Routing.ProfileName>,
    evidence: Option<RunOutcome>,
    usage: Spend,
    outcome: Option<RunOutcome>,
    failure: Option<Retry.FailureType>,
    recoveries: seq<(Id, Retry.Action)>)

  function NewRun<H>(): RunState<H> {
    RunState(Intake, [], 0, None, None, 0, None, None, map[], None, NO_SPEND, None, None, [])
  }

  datatype Folded<H> = Ok(state: RunState<H>) | IllegalTransition(from: Status, to: Status, at: nat)

  function WithStatus(cells: seq<Cell>, id: Id, status: CellStatus): (r: seq<Cell>)
    ensures |r| == |cells|
    ensures forall i :: 0 <= i < |cells| ==> r[i] == if cells[i].id == id then cells[i].(status := status) else cells[i]
  {
    seq(|cells|, i requires 0 <= i < |cells| => if cells[i].id == id then cells[i].(status := status) else cells[i])
  }

  function SetCellStatus<H>(s: RunState<H>, id: Id, status: CellStatus): RunState<H> {
    s.(cells := WithStatus(s.cells, id, status),
       graph := if s.graph.Some? then Some(s.graph.value.(cells := WithStatus(s.graph.value.cells, id, status)))
         else None)
  }

  /** A verified run marks its completed cells as verified. */
  function AllVerified(cells: seq<Cell>): seq<Cell> {
    seq(|cells|, i requires 0 <= i < |cells| =>
      if cells[i].status.Completed? then cells[i].(status := CellVerified) else cells[i])
  }

  /** One event; only a status change can be refused. An accepted graph is kept without its horizon. */
  function Fold<H>(s: RunState<H>, e: Envelope<H>): Folded<H> {
    match e.payload
    case StatusChanged(status) =>
      if CanTransition(s.status, status) then Ok(s.(status := status)) else IllegalTransition(s.status, status, e.seqNo)
    case RequestAccepted(budget) => Ok(s.(runBudget := budget))
    case ContractProposed(contract) => Ok(s.(contractVersion := contract.version, contract := Some(contract)))
    case ContractAmended(version) => Ok(s.(contractVersion := version))
    case GraphAccepted(graph) => Ok(s.(graph := Some(graph.(horizon := 0))))
    case CellCreated(cell) => Ok(s.(cells := s.cells + [cell]))
    case RouteSelected(id, profile) => Ok(s.(routes := s.routes[id := profile]))
    case CellStarted(id) => Ok(SetCellStatus(s, id, Running))
    case CellCompleted(id, _, _) => Ok(SetCellStatus(s, id, Completed))
    case CellFailed(id) => Ok(SetCellStatus(s, id, Failed))
    case CellAdvanced(id, status) => Ok(SetCellStatus(s, id, status))
    case BudgetUpdated(usage, _) => Ok(s.(usage := usage))
    case EvidenceRecorded(outcome) =>
      Ok(s.(evidence := Some(outcome), cells := if outcome.Verified? then AllVerified(s.cells) else s.cells))
    case OutcomeEmitted(outcome) => Ok(s.(outcome := Some(outcome)))
    case RecoveryTransition(id, failure, action) =>
      Ok(s.(failure := Some(failure), recoveries := s.recoveries + [(id, action)]))
    case StallDetected => Ok(s.(outcome := Some(Abstained)))
    case _ => Ok(s)
  }

  /** One event of a replay: a refusal ends it, anything else is counted. */
  function Step<H>(folded: Folded<H>, e: Envelope<H>): Folded<H> {
    if folded.IllegalTransition? then folded
    else
      match Fold(folded.state, e)
      case Ok(after) => Ok(after.(eventsReplayed := folded.state.eventsReplayed + 1, lastHash := Some(e.hash)))
      case illegal => illegal
  }

  /** Folding a list of events, one by one. */
  function FoldAll<H>(s: RunState<H>, events: seq<Envelope<H>>): Folded<H>
    decreases |events|
  {
    if events == [] then Ok(s) else Step(FoldAll(s, events[..|events| - 1]), events[|events| - 1])
  }

  method FoldEvents<H>(start: RunState<H>, events: seq<Envelope<H>>) returns (folded: Folded<H>)
    ensures folded == FoldAll(start, events)
  {
    folded := Ok(start);
    for i := 0 to |events|
      invariant folded == FoldAll(start, events[..i]) && folded.Ok?
    {
      assert events[..i + 1][..i] == events[..i];
      var before := folded.state;
      folded := Fold(before, events[i]);
      if folded.IllegalTransition? {
        RefusalStays(start, events, i + 1);
        return;
      }
      folded := Ok(folded.state.(eventsReplayed := before.eventsReplayed + 1, lastHash := Some(events[i].hash)));
    }
    assert events[..|events|] == events;
  }

  /** Once refused, a replay stays refused. */
  lemma {:induction false} RefusalStays<H>(s: RunState<H>, events: seq<Envelope<H>>, n: nat)
    requires n <= |events| && FoldAll(s, events[..n]).IllegalTransition?
    ensures FoldAll(s, events) == FoldAll(s, events[..n])
    decreases |events|
  {
    if n == |events| {
      assert events[..n] == events;
    } else {
      assert events[..|events| - 1][..n] == events[..n];
      RefusalStays(s, events[..|events| - 1], n);
    }
  }

  /** Folding can be cut anywhere: a later poll continues from the state of an earlier one. */
  lemma {:induction false} FoldAppend<H>(s: RunState<H>, a: seq<Envelope<H>>, b: seq<Envelope<H>>)
    requires FoldAll(s, a).Ok?
    ensures FoldAll(s, a + b) == FoldAll(FoldAll(s, a).state, b)
    decreases |b|
  {
    if b == [] {
      assert a + b == a;
    } else {
      assert (a + b)[..|a + b| - 1] == a + b[..|b| - 1];
      FoldAppend(s, a, b[..|b| - 1]);
    }
  }

  lemma {:induction false} FoldCounts<H>(s: RunState<H>, events: seq<Envelope<H>>)
    requires FoldAll(s, events).Ok?
    ensures FoldAll(s, events).state.eventsReplayed == s.eventsReplayed + |events|
    ensures events != [] ==> FoldAll(s, events).state.lastHash == Some(events[|events| - 1].hash)
    decreases |events|
  {
    if events != [] {
      FoldCounts(s, events[..|events| - 1]);
    }
  }

  /** The statuses that a list of events sets. */
  function Statuses<H>(events: seq<Envelope<H>>): seq<Status> {
    if events == [] then []
    else Statuses(events[..|events| - 1]) +
         (if events[|events| - 1].payload.StatusChanged? then [events[|events| - 1].payload.status] else [])
  }

  /** A replay succeeds exactly when the status events follow the transition table, and ends in the last of them. */
  lemma {:induction false} ReplayIffLegal<H>(s: RunState<H>, events: seq<Envelope<H>>)
    ensures FoldAll(s, events).Ok? <==> LegalPath(s.status, Statuses(events))
    ensures FoldAll(s, events).Ok? ==> FoldAll(s, events).state.status == Last(s.status, Statuses(events))
    decreases |events|
  {
    if events != [] {
      var front, last := events[..|events| - 1], events[|events| - 1];
      ReplayIffLegal(s, front);
      if last.payload.StatusChanged? {
        PathAppend(s.status, Statuses(front), [last.payload.status]);
        assert [last.payload.status][1..] == [];
      } else {
        assert Statuses(events) == Statuses(front);
      }
    }
  }
}
