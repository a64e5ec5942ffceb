/** What follows each kind of error in a run of a cell: how often it is retried, where, and how the cell then ends. */
module Recoveries {
  import opened Domain
  import opened Routing
  import opened Retry
  import opened CellRuns

  /** Before the cell, no failure of its own was counted. */
  ghost predicate Unused<H>(s: Setting<H>) {
    forall profile :: Seen(s.seen, SignatureOf(s.job, profile)) == 0
  }

  /** Attempt `k` failed with an error of this kind, and calls were left. */
  ghost predicate FailsWith<H>(s: Setting<H>, k: nat, kind: ErrorKind) {
    var run := s.world.worker(k);
    && run.Result? && !run.ok && run.kind == kind
    && (s.job.budget.maxCalls == 0 || UsedAt(s.world, s.before, k).calls < s.job.budget.maxCalls)
  }

  /** The worker of attempt `k` raised. */
  ghost predicate Raises<H>(s: Setting<H>, k: nat) { s.world.worker(k).RaisedError? }

  /** The worker failed and the calls are used up, whatever it reported. */
  ghost predicate OutOfCalls<H>(s: Setting<H>, k: nat) {
    var run := s.world.worker(k);
    && run.Result? && !run.ok
    && s.job.budget.maxCalls != 0 && UsedAt(s.world, s.before, k).calls >= s.job.budget.maxCalls
  }

  /** Retries are left for attempt `k` to be followed by another. */
  predicate MayRetry(b: Budget, k: nat) { b.maxRetries == 0 || k < b.maxRetries }

  /** How many of the first `n` attempts were made with a profile. */
  function MadeBy<H>(attempts: seq<Attempt<H>>, n: nat, profile: ProfileName): nat
    requires n <= |attempts|
  {
    if n == 0 then 0 else MadeBy(attempts, n - 1, profile) + if attempts[n - 1].profile == profile then 1 else 0
  }

  /** How many attempts with the same profile came before attempt `k`. */
  function Earlier<H>(attempts: seq<Attempt<H>>, k: nat): nat
    requires k < |attempts|
  {
    MadeBy(attempts, k, attempts[k].profile)
  }

  /** Attempt `k` is the last one, and its recorded action ends the cell. */
  ghost predicate LastBy<H>(attempts: seq<Attempt<H>>, k: nat, events: seq<CellEvent>, outcome: CellOutcome,
                            failure: FailureType, action: Action, ending: ShortOutcome)
  {
    && |attempts| == k + 1 && RecoveryTransition(failure, action, k) in events && outcome == EndedWith(ending)
    && events != [] && events[|events| - 1].CellFailed?
  }

  /** After attempt `k` the same profile tries again. */
  ghost predicate AgainBy<H>(attempts: seq<Attempt<H>>, k: nat, events: seq<CellEvent>, failure: FailureType,
                             action: Action)
  {
    && k + 1 < |attempts| && RecoveryTransition(failure, action, k) in events
    && attempts[k + 1].profile == attempts[k].profile
  }

  /** After attempt `k` the best other profile that is eligible takes the cell over. */
  ghost predicate TakenOver<H>(s: Setting<H>, attempts: seq<Attempt<H>>, k: nat, events: seq<CellEvent>,
                               failure: FailureType)
  {
    && k + 1 < |attempts| && RecoveryTransition(failure, RerouteEscalate, k) in events
    && attempts[k + 1].profile != attempts[k].profile
    && BestOther(s.config, s.job, attempts[k].profile, UsedAfter(s.world, s.before, k + 1), attempts[k + 1].profile)
  }

  /** No other profile could take the cell over after attempt `k`. */
  ghost predicate Alone<H>(s: Setting<H>, attempts: seq<Attempt<H>>, k: nat)
    requires k < |attempts|
  {
    NoOther(s.config, s.job, attempts[k].profile, UsedAfter(s.world, s.before, k + 1))
  }

  // Every failure of a run has a recorded action, and only its own counters decide it.

  lemma {:induction false} IsRecovered<H>(s: Setting<H>, outcome: CellOutcome, events: seq<CellEvent>,
                                          attempts: seq<Attempt<H>>, k: nat)
    requires CellPromise(s, outcome, events, attempts) && k < |attempts| && !Succeeds(s.world.worker(k))
    ensures RecoveredAt(s, attempts, k, NextOf(attempts, k), events)
    ensures k + 1 == |attempts| ==>
      outcome == EndedWith(if Abstains(ActionOf(s, attempts, k)) then Abstained else FailedRun)
    ensures events != [] && (k + 1 == |attempts| ==> events[|events| - 1].CellFailed?)
  {
  }

  /** An attempt that was followed by another has climbed the ladder of its strategy. */
  lemma {:induction false} FollowedClimbs<H>(s: Setting<H>, outcome: CellOutcome, events: seq<CellEvent>,
                                             attempts: seq<Attempt<H>>, k: nat)
    requires CellPromise(s, outcome, events, attempts) && k + 1 < |attempts|
    ensures Climbs(s.job.budget, FailureAt(s, k), k)
  {
    EarlierAttemptsFailed(s.world, s.checkpoint, attempts, k);
    IsRecovered(s, outcome, events, attempts, k);
  }

  lemma {:induction false} ClimbedAll<H>(s: Setting<H>, outcome: CellOutcome, events: seq<CellEvent>,
                                         attempts: seq<Attempt<H>>, n: nat, profile: ProfileName)
    requires CellPromise(s, outcome, events, attempts) && n < |attempts|
    ensures Climbed(s, attempts, n, profile) == MadeBy(attempts, n, profile)
  {
    if n > 0 {
      ClimbedAll(s, outcome, events, attempts, n - 1, profile);
      FollowedClimbs(s, outcome, events, attempts, n - 1);
    }
  }

  lemma {:induction false} RungIsEarlier<H>(s: Setting<H>, outcome: CellOutcome, events: seq<CellEvent>,
                                            attempts: seq<Attempt<H>>, k: nat)
    requires CellPromise(s, outcome, events, attempts) && k < |attempts| && Unused(s)
    ensures RungAt(s, attempts, k) == Earlier(attempts, k)
  {
    ClimbedAll(s, outcome, events, attempts, k, attempts[k].profile);
  }

  /** What is recorded of a failure that climbs a ladder, and what follows it. */
  lemma {:induction false} TakesRung<H>(s: Setting<H>, outcome: CellOutcome, events: seq<CellEvent>,
                                        attempts: seq<Attempt<H>>, k: nat, failure: FailureType)
    requires CellPromise(s, outcome, events, attempts) && k < |attempts| && MayRetry(s.job.budget, k) && Unused(s)
    requires !Succeeds(s.world.worker(k)) && failure == FailureAt(s, k) && Climbs(s.job.budget, failure, k)
    ensures var action := ActionAt(failure, Earlier(attempts, k));
            && RecoveryTransition(failure, action, k) in events
            && Follows(s.config, s.job, attempts[k].profile, failure, action, UsedAfter(s.world, s.before, k + 1),
                       NextOf(attempts, k))
            && (k + 1 == |attempts| ==>
                  && outcome == EndedWith(if Abstains(action) then Abstained else FailedRun)
                  && events != [] && events[|events| - 1].CellFailed?)
  {
    IsRecovered(s, outcome, events, attempts, k);
    RungIsEarlier(s, outcome, events, attempts, k);
  }

  // Error kind by error kind.

  /** A rejected key or a wrong configuration ends the cell at once: it abstains. */
  lemma {:induction false} RejectionAbstains<H>(s: Setting<H>, outcome: CellOutcome, events: seq<CellEvent>,
                                                attempts: seq<Attempt<H>>, k: nat)
    requires CellPromise(s, outcome, events, attempts) && k < |attempts| && MayRetry(s.job.budget, k) && Unused(s)
    requires FailsWith(s, k, AuthenticationError) || FailsWith(s, k, ConfigurationError)
    ensures LastBy(attempts, k, events, outcome, Specification,
                   if Earlier(attempts, k) == 0 then ContractAmendment else Abstain, Abstained)
  {
    TakesRung(s, outcome, events, attempts, k, Specification);
  }

  /** So does a safety error, and the run fails. */
  lemma {:induction false} SafetyFails<H>(s: Setting<H>, outcome: CellOutcome, events: seq<CellEvent>,
                                          attempts: seq<Attempt<H>>, k: nat)
    requires CellPromise(s, outcome, events, attempts) && k < |attempts| && FailsWith(s, k, SafetyError)
    ensures LastBy(attempts, k, events, outcome, Safety, Terminate, FailedRun)
  {
    IsRecovered(s, outcome, events, attempts, k);
  }

  /**
   * A provider error, a worker that raises and an error of no known kind are tried again where they were, then by
   * another profile if there is one, and the third time with one profile fails the run.
   */
  lemma {:induction false} ProviderIsRetried<H>(s: Setting<H>, outcome: CellOutcome, events: seq<CellEvent>,
                                                attempts: seq<Attempt<H>>, k: nat, text: string)
    requires CellPromise(s, outcome, events, attempts) && k < |attempts| && MayRetry(s.job.budget, k) && Unused(s)
    requires FailsWith(s, k, ProviderError) || FailsWith(s, k, UnknownError(text)) || Raises(s, k)
    ensures Earlier(attempts, k) == 0 ==> AgainBy(attempts, k, events, Transient, BackoffRetry)
    ensures Earlier(attempts, k) == 1 ==>
      if Alone(s, attempts, k) then AgainBy(attempts, k, events, Transient, RerouteEscalate)
      else TakenOver(s, attempts, k, events, Transient)
    ensures Earlier(attempts, k) >= 2 ==> LastBy(attempts, k, events, outcome, Transient, Terminate, FailedRun)
  {
    TakesRung(s, outcome, events, attempts, k, Transient);
  }

  /** An answer that does not match its schema is tried again twice by the same profile; then the cell abstains. */
  lemma {:induction false} SchemaIsRetried<H>(s: Setting<H>, outcome: CellOutcome, events: seq<CellEvent>,
                                              attempts: seq<Attempt<H>>, k: nat)
    requires CellPromise(s, outcome, events, attempts) && k < |attempts| && MayRetry(s.job.budget, k) && Unused(s)
    requires FailsWith(s, k, SchemaError)
    ensures Earlier(attempts, k) == 0 ==> AgainBy(attempts, k, events, Sampling, ChangedStrategyRetry)
    ensures Earlier(attempts, k) == 1 ==> AgainBy(attempts, k, events, Sampling, BackoffRetry)
    ensures Earlier(attempts, k) >= 2 ==> LastBy(attempts, k, events, outcome, Sampling, Abstain, Abstained)
  {
    TakesRung(s, outcome, events, attempts, k, Sampling);
  }

  /**
   * A tool that fails or a capability that is missing goes to another profile first; with none the run fails, and a
   * profile that had its turn abstains.
   */
  lemma {:induction false} CapabilityIsRerouted<H>(s: Setting<H>, outcome: CellOutcome, events: seq<CellEvent>,
                                                   attempts: seq<Attempt<H>>, k: nat)
    requires CellPromise(s, outcome, events, attempts) && k < |attempts| && MayRetry(s.job.budget, k) && Unused(s)
    requires FailsWith(s, k, ToolError) || FailsWith(s, k, CapabilityError)
    ensures Earlier(attempts, k) == 0 ==>
      if Alone(s, attempts, k) then
        LastBy(attempts, k, events, outcome, CapabilityGap, RerouteEscalate, FailedRun)
      else TakenOver(s, attempts, k, events, CapabilityGap)
    ensures Earlier(attempts, k) > 0 ==>
      LastBy(attempts, k, events, outcome, CapabilityGap,
             if Earlier(attempts, k) == 1 then SplitReplan
             else if Earlier(attempts, k) == 2 then ContractAmendment else Abstain, Abstained)
  {
    TakesRung(s, outcome, events, attempts, k, CapabilityGap);
  }

  /** Less than half of a limited axis is used, or the axis is not limited. */
  predicate HalfLeft(b: Budget, used: Spend) {
    || (b.costLimit.Some? ==> 2.0 * used.cost < b.costLimit.value)
    || (b.tokenLimit.Some? ==> 2 * used.Tokens() < b.tokenLimit.value)
  }

  /** A failure by budget is never retried: the cell abstains while half of some axis is left, else the run fails. */
  lemma {:induction false} BudgetEnds<H>(s: Setting<H>, outcome: CellOutcome, events: seq<CellEvent>,
                                         attempts: seq<Attempt<H>>, k: nat)
    requires CellPromise(s, outcome, events, attempts) && k < |attempts| && MayRetry(s.job.budget, k)
    requires FailsWith(s, k, BudgetError) || OutOfCalls(s, k)
    ensures if HalfLeft(s.job.budget, UsedAt(s.world, s.before, k))
      then LastBy(attempts, k, events, outcome, BudgetFailure, ScopeReduction, Abstained)
      else LastBy(attempts, k, events, outcome, BudgetFailure, Action.Fail, FailedRun)
  {
    IsRecovered(s, outcome, events, attempts, k);
    assert FailureAt(s, k) == BudgetFailure;
  }

  /** Without retries left the run fails, whatever the error. */
  lemma {:induction false} NoRetriesLeft<H>(s: Setting<H>, outcome: CellOutcome, events: seq<CellEvent>,
                                            attempts: seq<Attempt<H>>, k: nat)
    requires CellPromise(s, outcome, events, attempts) && k < |attempts| && !MayRetry(s.job.budget, k)
    requires !Succeeds(s.world.worker(k))
    ensures LastBy(attempts, k, events, outcome, FailureAt(s, k), Terminate, FailedRun)
  {
    IsRecovered(s, outcome, events, attempts, k);
  }

  // A whole run.

  /** With a rejected key a cell makes one attempt and abstains. */
  lemma {:induction false} RejectedKeyIsTriedOnce<H>(s: Setting<H>, outcome: CellOutcome, events: seq<CellEvent>,
                                                     attempts: seq<Attempt<H>>)
    requires CellPromise(s, outcome, events, attempts) && attempts != [] && MayRetry(s.job.budget, 0) && Unused(s)
    requires FailsWith(s, 0, AuthenticationError)
    ensures |attempts| == 1 && outcome == EndedWith(Abstained)
    ensures RecoveryTransition(Specification, ContractAmendment, 0) in events
  {
    RejectionAbstains(s, outcome, events, attempts, 0);
  }

  /** A provider that never answers is asked three times where there is nobody else, and then the run fails. */
  lemma {:induction false} SilentProviderIsAskedThrice<H>(s: Setting<H>, outcome: CellOutcome, events: seq<CellEvent>,
                                                          attempts: seq<Attempt<H>>)
    requires CellPromise(s, outcome, events, attempts) && attempts != [] && MayRetry(s.job.budget, 2) && Unused(s)
    requires forall k: nat :: k < 3 ==> FailsWith(s, k, ProviderError)
    requires forall k: nat :: k < |attempts| ==> Alone(s, attempts, k)
    ensures |attempts| == 3 && outcome == EndedWith(FailedRun)
  {
    ProviderIsRetried(s, outcome, events, attempts, 0, "");
    ProviderIsRetried(s, outcome, events, attempts, 1, "");
    assert Earlier(attempts, 1) == 1 by {
      assert MadeBy(attempts, 0, attempts[1].profile) == 0;
    }
    assert MadeBy(attempts, 1, attempts[2].profile) == 1;
    ProviderIsRetried(s, outcome, events, attempts, 2, "");
  }
}
