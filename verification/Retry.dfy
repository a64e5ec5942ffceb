/** The single owner of attempt counting: which recovery action follows a failed attempt. */
module Retry {
  import opened Domain
  import opened Routing

  datatype FailureType =
    Transient | Sampling | CapabilityGap | Decomposition | Specification | Integration | Safety | BudgetFailure

  /** The error kinds a worker reports; `UnknownError` is any other string. */
  datatype ErrorKind =
    | ProviderError | BudgetError | SchemaError | ToolError | SafetyError
    | AuthenticationError | CapabilityError | ConfigurationError
    | UnknownError(text: string)

  datatype Action =
    | BackoffRetry | ChangedStrategyRetry | RerouteEscalate | SplitReplan | ContractAmendment
    | Abstain | Terminate | ScopeReduction | Fail

  /** Kinds that are not known, the legacy ones included, count as provider errors. */
  function Classify(kind: ErrorKind): FailureType {
    match kind
    case ProviderError => Transient
    case BudgetError => BudgetFailure
    case SchemaError => Sampling
    case ToolError => CapabilityGap
    case SafetyError => Safety
    case AuthenticationError => Specification
    case CapabilityError => CapabilityGap
    case ConfigurationError => Specification
    case UnknownError(_) => Transient
  }

  function Ladder(failure: FailureType): (ladder: seq<Action>)
    ensures |ladder| >= 1
  {
    match failure
    case Transient => [BackoffRetry, RerouteEscalate, Terminate]
    case Sampling => [ChangedStrategyRetry, BackoffRetry, Abstain]
    case CapabilityGap => [RerouteEscalate, SplitReplan, ContractAmendment, Abstain]
    case Decomposition => [SplitReplan, ContractAmendment, Abstain]
    case Specification => [ContractAmendment, Abstain]
    case Integration => [SplitReplan, Terminate]
    case Safety => [Terminate]
    case BudgetFailure => [ScopeReduction, Fail]
  }

  /** Actions after which the attempt loop may go on. */
  predicate Continues(action: Action) {
    action.BackoffRetry? || action.ChangedStrategyRetry? || action.RerouteEscalate?
  }

  predicate Abstains(action: Action) {
    action.Abstain? || action.ContractAmendment? || action.SplitReplan? || action.ScopeReduction?
  }

  /** The strategy of an attempt; repeating it escalates. */
  datatype Signature = Signature(contractVersion: nat, cell: Id, profile: ProfileName, mode: CellMode)

  function Seen(seen: map<Signature, nat>, sig: Signature): nat {
    if sig in seen then seen[sig] else 0
  }

  function ActionAt(failure: FailureType, rung: nat): Action {
    var ladder := Ladder(failure);
    ladder[Min(rung, |ladder| - 1)]
  }

  class RetryPolicy {
    var seen: map<Signature, nat>

    constructor ()
      ensures seen == map[]
    {
      seen := map[];
    }

    method NextAction(failure: FailureType, sig: Signature) returns (action: Action)
      modifies this
      ensures action == ActionAt(failure, Seen(old(seen), sig))
      ensures Seen(seen, sig) == Seen(old(seen), sig) + 1
      ensures forall other :: other != sig ==> Seen(seen, other) == Seen(old(seen), other)
    {
      var ladder := Ladder(failure);
      var rung := Seen(seen, sig);
      seen := seen[sig := rung + 1];
      action := ladder[Min(rung, |ladder| - 1)];
    }
  }

  /** The ladder goes on only on its first two rungs, whatever the failure. */
  lemma {:induction false} ContinuesOnlyEarly(failure: FailureType, rung: nat)
    ensures Continues(ActionAt(failure, rung)) ==> rung < 2
    ensures exists f :: Continues(ActionAt(f, 1))
  {
    assert Continues(ActionAt(Transient, 1));
  }

  // How many more failures a cell can survive.

  function Left(count: nat): nat { if count < 2 then 2 - count else 0 }

  /** Over all profiles, the early rungs that the strategies of one cell have left. */
  function RungsLeft(names: seq<ProfileName>, seen: map<Signature, nat>, version: nat, cell: Id, mode: CellMode): nat {
    if names == [] then 0
    else
      var name := names[|names| - 1];
      RungsLeft(names[..|names| - 1], seen, version, cell, mode) +
        Left(Seen(seen, Signature(version, cell, name, mode)))
  }

  lemma {:induction false} RungsLeftAtMost(names: seq<ProfileName>, seen: map<Signature, nat>, version: nat, cell: Id,
                                           mode: CellMode)
    ensures RungsLeft(names, seen, version, cell, mode) <= 2 * |names|
  {
    if names != [] {
      RungsLeftAtMost(names[..|names| - 1], seen, version, cell, mode);
    }
  }

  /** A further failure of one strategy uses up a rung. */
  lemma {:induction false} RungUsed(names: seq<ProfileName>, before: map<Signature, nat>, after: map<Signature, nat>,
                                    version: nat, cell: Id, mode: CellMode, name: ProfileName)
    requires Seen(after, Signature(version, cell, name, mode)) == Seen(before, Signature(version, cell, name, mode)) + 1
    requires forall n :: n != name ==>
      Seen(after, Signature(version, cell, n, mode)) == Seen(before, Signature(version, cell, n, mode))
    ensures RungsLeft(names, after, version, cell, mode) <= RungsLeft(names, before, version, cell, mode)
    ensures name in names && Seen(before, Signature(version, cell, name, mode)) < 2 ==>
            RungsLeft(names, after, version, cell, mode) < RungsLeft(names, before, version, cell, mode)
  {
    if names != [] {
      var front, last := names[..|names| - 1], names[|names| - 1];
      RungUsed(front, before, after, version, cell, mode, name);
      assert names == front + [last];
    }
  }

  /** Failures of other cells do not use up rungs of this one, although the counters are shared. */
  lemma {:induction false} OtherCellsDoNotCount(names: seq<ProfileName>, before: map<Signature, nat>,
                                                after: map<Signature, nat>, version: nat, cell: Id, mode: CellMode,
                                                sig: Signature)
    requires sig.cell != cell
    requires forall other :: other != sig ==> Seen(after, other) == Seen(before, other)
    ensures RungsLeft(names, after, version, cell, mode) == RungsLeft(names, before, version, cell, mode)
  {
    if names != [] {
      OtherCellsDoNotCount(names[..|names| - 1], before, after, version, cell, mode, sig);
    }
  }
}
