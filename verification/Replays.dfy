/** What a replay of a run's events holds, field by field, told from the events themselves. */
module Replays {
  import opened Domain
  import opened Events
  import Retry
  import Routing

  /** The last event of a kind. */
  ghost predicate LastWith<H>(events: seq<Envelope<H>>, at: nat, kind: Payload -> bool) {
    at < |events| && kind(events[at].payload) && forall j :: at < j < |events| ==> !kind(events[j].payload)
  }

  ghost predicate NoneWith<H>(events: seq<Envelope<H>>, kind: Payload -> bool) {
    forall e :: e in events ==> !kind(e.payload)
  }

  predicate IsRequest(p: Payload) { p.RequestAccepted? }

  predicate IsUsage(p: Payload) { p.BudgetUpdated? }

  predicate IsContract(p: Payload) { p.ContractProposed? }

  predicate SetsVersion(p: Payload) { p.ContractProposed? || p.ContractAmended? }

  function VersionIn(p: Payload): nat
    requires SetsVersion(p)
  {
    if p.ContractAmended? then p.version else p.contract.version
  }

  predicate SetsOutcome(p: Payload) { p.OutcomeEmitted? || p.StallDetected? }

  function OutcomeIn(p: Payload): RunOutcome
    requires SetsOutcome(p)
  {
    if p.StallDetected? then Abstained else p.outcome
  }

  predicate IsEvidence(p: Payload) { p.EvidenceRecorded? }

  predicate IsRecovery(p: Payload) { p.RecoveryTransition? }

  predicate IsCell(p: Payload) { p.CellCreated? }

  function RoutesOf(id: Id): Payload -> bool { (p: Payload) => p.RouteSelected? && p.routed == id }

  /** All events of a kind, in order. */
  ghost predicate AllWith<H>(events: seq<Envelope<H>>, at: seq<nat>, kind: Payload -> bool) {
    && (forall i, j :: 0 <= i < j < |at| ==> at[i] < at[j])
    && (forall i :: 0 <= i < |at| ==> at[i] < |events| && kind(events[at[i]].payload))
    && forall k: nat :: k < |events| && kind(events[k].payload) ==> k in at
  }

  /** The last payload of a kind. */
  function LastOf<H>(events: seq<Envelope<H>>, kind: Payload -> bool): (r: Option<Payload>)
    ensures r.Some? ==> kind(r.value)
  {
    if events == [] then None
    else if kind(events[|events| - 1].payload) then Some(events[|events| - 1].payload)
    else LastOf(events[..|events| - 1], kind)
  }

  /** It is the one after which no other comes. */
  lemma {:induction false} LastOfMeans<H>(events: seq<Envelope<H>>, kind: Payload -> bool)
    ensures LastOf(events, kind) == None <==> NoneWith(events, kind)
    ensures forall at: nat :: LastWith(events, at, kind) ==> LastOf(events, kind) == Some(events[at].payload)
  {
    if events != [] {
      var front, last := events[..|events| - 1], events[|events| - 1];
      LastOfMeans(front, kind);
      assert events == front + [last];
      forall at: nat | LastWith(events, at, kind) ensures LastOf(events, kind) == Some(events[at].payload) {
        if at < |front| {
          assert front[at] == events[at] && LastWith(front, at, kind);
        }
      }
    }
  }

  /** One more event, and what the replay was before it. */
  lemma {:induction false} OneMore<H>(events: seq<Envelope<H>>) returns (before: RunState<H>)
    requires events != [] && FoldAll(NewRun(), events).Ok?
    ensures FoldAll(NewRun(), events[..|events| - 1]) == Ok(before)
    ensures Fold(before, events[|events| - 1]).Ok?
    ensures var after := Fold(before, events[|events| - 1]).state;
            FoldAll(NewRun(), events).state ==
              after.(eventsReplayed := before.eventsReplayed + 1, lastHash := Some(events[|events| - 1].hash))
  {
    before := FoldAll(NewRun(), events[..|events| - 1]).state;
  }

  lemma {:induction false} RequestStep<H>(s: RunState<H>, e: Envelope<H>)
    requires Fold(s, e).Ok?
    ensures var p := e.payload; Fold(s, e).state.runBudget == if IsRequest(p) then p.runBudget else s.runBudget
  {
  }

  /** The budget of the request. */
  lemma {:induction false} HoldsRequest<H>(events: seq<Envelope<H>>)
    requires FoldAll(NewRun(), events).Ok?
    ensures FoldAll(NewRun(), events).state.runBudget ==
            match LastOf(events, IsRequest) case Some(p) => p.runBudget case None => None
    decreases |events|
  {
    if events != [] {
      HoldsRequest(events[..|events| - 1]);
      var before := OneMore(events);
      RequestStep(before, events[|events| - 1]);
    }
  }

  lemma {:induction false} UsageStep<H>(s: RunState<H>, e: Envelope<H>)
    requires Fold(s, e).Ok?
    ensures var p := e.payload; Fold(s, e).state.usage == if IsUsage(p) then p.usage else s.usage
  {
  }

  /** The usage that was reported last. */
  lemma {:induction false} HoldsUsage<H>(events: seq<Envelope<H>>)
    requires FoldAll(NewRun(), events).Ok?
    ensures FoldAll(NewRun(), events).state.usage ==
            match LastOf(events, IsUsage) case Some(p) => p.usage case None => NO_SPEND
    decreases |events|
  {
    if events != [] {
      HoldsUsage(events[..|events| - 1]);
      var before := OneMore(events);
      UsageStep(before, events[|events| - 1]);
    }
  }

  lemma {:induction false} ContractStep<H>(s: RunState<H>, e: Envelope<H>)
    requires Fold(s, e).Ok?
    ensures var p := e.payload; Fold(s, e).state.contract == if IsContract(p) then Some(p.contract) else s.contract
  {
  }

  /** The contract that was proposed last. */
  lemma {:induction false} HoldsContract<H>(events: seq<Envelope<H>>)
    requires FoldAll(NewRun(), events).Ok?
    ensures FoldAll(NewRun(), events).state.contract ==
            match LastOf(events, IsContract) case Some(p) => Some(p.contract) case None => None
    decreases |events|
  {
    if events != [] {
      HoldsContract(events[..|events| - 1]);
      var before := OneMore(events);
      ContractStep(before, events[|events| - 1]);
    }
  }

  lemma {:induction false} VersionStep<H>(s: RunState<H>, e: Envelope<H>)
    requires Fold(s, e).Ok?
    ensures var p := e.payload;
            Fold(s, e).state.contractVersion == if SetsVersion(p) then VersionIn(p) else s.contractVersion
  {
  }

  /** Its version, which an amendment changes without changing the contract. */
  lemma {:induction false} HoldsVersion<H>(events: seq<Envelope<H>>)
    requires FoldAll(NewRun(), events).Ok?
    ensures FoldAll(NewRun(), events).state.contractVersion ==
            match LastOf(events, SetsVersion) case Some(p) => VersionIn(p) case None => 0
    decreases |events|
  {
    if events != [] {
      HoldsVersion(events[..|events| - 1]);
      var before := OneMore(events);
      VersionStep(before, events[|events| - 1]);
    }
  }

  lemma {:induction false} OutcomeStep<H>(s: RunState<H>, e: Envelope<H>)
    requires Fold(s, e).Ok?
    ensures var p := e.payload; Fold(s, e).state.outcome == if SetsOutcome(p) then Some(OutcomeIn(p)) else s.outcome
  {
  }

  /** The outcome, which a stall sets to abstention. */
  lemma {:induction false} HoldsOutcome<H>(events: seq<Envelope<H>>)
    requires FoldAll(NewRun(), events).Ok?
    ensures FoldAll(NewRun(), events).state.outcome ==
            match LastOf(events, SetsOutcome) case Some(p) => Some(OutcomeIn(p)) case None => None
    decreases |events|
  {
    if events != [] {
      HoldsOutcome(events[..|events| - 1]);
      var before := OneMore(events);
      OutcomeStep(before, events[|events| - 1]);
    }
  }

  lemma {:induction false} EvidenceStep<H>(s: RunState<H>, e: Envelope<H>)
    requires Fold(s, e).Ok?
    ensures var p := e.payload; Fold(s, e).state.evidence == if IsEvidence(p) then Some(p.evidenceFor) else s.evidence
  {
  }

  /** The verdict that evidence was recorded for last. */
  lemma {:induction false} HoldsEvidence<H>(events: seq<Envelope<H>>)
    requires FoldAll(NewRun(), events).Ok?
    ensures FoldAll(NewRun(), events).state.evidence ==
            match LastOf(events, IsEvidence) case Some(p) => Some(p.evidenceFor) case None => None
    decreases |events|
  {
    if events != [] {
      HoldsEvidence(events[..|events| - 1]);
      var before := OneMore(events);
      EvidenceStep(before, events[|events| - 1]);
    }
  }

  lemma {:induction false} FailureStep<H>(s: RunState<H>, e: Envelope<H>)
    requires Fold(s, e).Ok?
    ensures var p := e.payload; Fold(s, e).state.failure == if IsRecovery(p) then Some(p.failure) else s.failure
  {
  }

  /** The failure that was recovered from last. */
  lemma {:induction false} HoldsFailure<H>(events: seq<Envelope<H>>)
    requires FoldAll(NewRun(), events).Ok?
    ensures FoldAll(NewRun(), events).state.failure ==
            match LastOf(events, IsRecovery) case Some(p) => Some(p.failure) case None => None
    decreases |events|
  {
    if events != [] {
      HoldsFailure(events[..|events| - 1]);
      var before := OneMore(events);
      FailureStep(before, events[|events| - 1]);
    }
  }

  /** The profile that a cell is routed to, if it is. */
  function RouteIn<H>(s: RunState<H>, id: Id): Option<Routing.ProfileName> {
    if id in s.routes then Some(s.routes[id]) else None
  }

  lemma {:induction false} RouteStep<H>(s: RunState<H>, e: Envelope<H>, id: Id)
    requires Fold(s, e).Ok?
    ensures RouteIn(Fold(s, e).state, id) == if RoutesOf(id)(e.payload) then Some(e.payload.profile) else RouteIn(s, id)
  {
  }

  /** The profile that a cell was routed to last. */
  lemma {:induction false} HoldsRoute<H>(events: seq<Envelope<H>>, id: Id)
    requires FoldAll(NewRun(), events).Ok?
    ensures RouteIn(FoldAll(NewRun(), events).state, id) ==
            match LastOf(events, RoutesOf(id)) case Some(p) => Some(p.profile) case None => None
    decreases |events|
  {
    if events != [] {
      HoldsRoute(events[..|events| - 1], id);
      var before := OneMore(events);
      RouteStep(before, events[|events| - 1], id);
    }
  }

  /** All payloads of a kind, in order. */
  function AllOf<H>(events: seq<Envelope<H>>, kind: Payload -> bool): (r: seq<Payload>)
    ensures forall i :: 0 <= i < |r| ==> kind(r[i])
  {
    if events == [] then []
    else
      var front := AllOf(events[..|events| - 1], kind);
      if kind(events[|events| - 1].payload) then front + [events[|events| - 1].payload] else front
  }

  /** They are those at the ascending positions of the kind. */
  lemma {:induction false} AllOfMeans<H>(events: seq<Envelope<H>>, kind: Payload -> bool) returns (at: seq<nat>)
    ensures AllWith(events, at, kind) && |at| == |AllOf(events, kind)|
    ensures forall i :: 0 <= i < |at| ==> AllOf(events, kind)[i] == events[at[i]].payload
  {
    at := [];
    if events != [] {
      var n := |events| - 1;
      var before := AllOfMeans(events[..n], kind);
      at := before + if kind(events[n].payload) then [n] else [];
      forall k: nat | k < |events| && kind(events[k].payload) ensures k in at {
        if k < n {
          assert events[..n][k] == events[k] && k in before;
        } else {
          assert at[|before|] == n;
        }
      }
    }
  }

  lemma {:induction false} RecoveryStep<H>(s: RunState<H>, e: Envelope<H>)
    requires Fold(s, e).Ok?
    ensures var p := e.payload;
            Fold(s, e).state.recoveries == s.recoveries + if IsRecovery(p) then [(p.recovered, p.action)] else []
  {
  }

  /** Every recovery, in order. */
  lemma {:induction false} HoldsRecoveries<H>(events: seq<Envelope<H>>)
    requires FoldAll(NewRun(), events).Ok?
    ensures var held, all := FoldAll(NewRun(), events).state.recoveries, AllOf(events, IsRecovery);
            |held| == |all| && forall i :: 0 <= i < |all| ==> held[i] == (all[i].recovered, all[i].action)
    decreases |events|
  {
    if events != [] {
      HoldsRecoveries(events[..|events| - 1]);
      var before := OneMore(events);
      RecoveryStep(before, events[|events| - 1]);
    }
  }

  /** The cells that were created, in order: later events only change their statuses. */
  lemma {:induction false} HoldsCells<H>(events: seq<Envelope<H>>)
    requires FoldAll(NewRun(), events).Ok?
    ensures var held, all := FoldAll(NewRun(), events).state.cells, AllOf(events, IsCell);
            |held| == |all| && forall i :: 0 <= i < |all| ==> held[i] == all[i].cell.(status := held[i].status)
    decreases |events|
  {
    if events != [] {
      HoldsCells(events[..|events| - 1]);
      var before := OneMore(events);
      KeepsCells(before, events[|events| - 1]);
    }
  }

  /** The status that an event gives a cell of which it tells. */
  ghost predicate GivesStatus(p: Payload, id: Id, was: CellStatus, now: CellStatus) {
    match p
    case CellStarted(other) => now == if other == id then Running else was
    case CellCompleted(other, _, _) => now == if other == id then Completed else was
    case CellFailed(other) => now == if other == id then CellStatus.Failed else was
    case CellAdvanced(other, status) => now == if other == id then status else was
    case EvidenceRecorded(Verified) => now == if was == Completed then CellVerified else was
    case _ => now == was
  }

  lemma {:induction false} CellsAfter<H>(s: RunState<H>, e: Envelope<H>)
    requires Fold(s, e).Ok?
    ensures var cells := Fold(s, e).state.cells;
            && |cells| == |s.cells| + (if IsCell(e.payload) then 1 else 0)
            && (IsCell(e.payload) ==> cells[|s.cells|] == e.payload.cell)
  {
  }

  lemma {:induction false} CellAfter<H>(s: RunState<H>, e: Envelope<H>, i: nat)
    requires Fold(s, e).Ok? && i < |s.cells| && |Fold(s, e).state.cells| >= |s.cells|
    ensures var was, now := s.cells[i], Fold(s, e).state.cells[i];
            now == was.(status := now.status) && GivesStatus(e.payload, was.id, was.status, now.status)
  {
  }

  /** What one event does to the cells that are there: it changes statuses, and only of the cells it tells of. */
  lemma {:induction false} KeepsCells<H>(s: RunState<H>, e: Envelope<H>)
    requires Fold(s, e).Ok?
    ensures var cells := Fold(s, e).state.cells;
            && |cells| == |s.cells| + (if IsCell(e.payload) then 1 else 0)
            && (IsCell(e.payload) ==> cells[|s.cells|] == e.payload.cell)
            && forall i :: 0 <= i < |s.cells| ==>
                 && cells[i] == s.cells[i].(status := cells[i].status)
                 && GivesStatus(e.payload, s.cells[i].id, s.cells[i].status, cells[i].status)
  {
    CellsAfter(s, e);
    forall i | 0 <= i < |s.cells|
      ensures var was, now := s.cells[i], Fold(s, e).state.cells[i];
              now == was.(status := now.status) && GivesStatus(e.payload, was.id, was.status, now.status)
    {
      CellAfter(s, e, i);
    }
  }
}
