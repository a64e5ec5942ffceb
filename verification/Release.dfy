/** Verification of a finished run: hard gates, the soft rubric, and the law that decides the outcome. */
module Release {
  import opened Domain

  const EPSILON: real := 0.000000001
  const MIN_BLINDED_REVIEWERS := 2

  /** Usage has crossed a limit that is set; the cost axis has a tolerance. */
  predicate Exceeds(usage: Spend, b: Budget) {
    || (b.tokenLimit.Some? && usage.Tokens() > b.tokenLimit.value)
    || (b.costLimit.Some? && usage.cost > b.costLimit.value + EPSILON)
  }

  lemma {:induction false} ExceedsIff(usage: Spend, b: Budget)
    ensures !Exceeds(usage, b) <==>
            (b.tokenLimit.Some? ==> usage.inputTokens + usage.outputTokens <= b.tokenLimit.value) &&
            (b.costLimit.Some? ==> usage.cost <= b.costLimit.value + 0.000000001)
  {
  }

  // Hard gates.

  /** What the checker of a hard criterion may do. */
  datatype Check = Passed | NotPassed | Crashed

  datatype HardResult = HardResult(index: nat, passed: bool)

  /** A crashed checker is a failed gate; a soft criterion is not a hard gate and passes here. */
  method VerifyHard(criteria: seq<Criterion>, check: nat -> Check) returns (results: seq<HardResult>)
    ensures |results| == |criteria|
    ensures forall i :: 0 <= i < |criteria| ==>
      results[i].index == i && (results[i].passed <==> criteria[i].kind.SoftRubric? || check(i) == Passed)
  {
    results := [];
    for i := 0 to |criteria|
      invariant |results| == i
      invariant forall j :: 0 <= j < i ==>
        results[j].index == j && (results[j].passed <==> criteria[j].kind.SoftRubric? || check(j) == Passed)
    {
      var passed := match criteria[i].kind
        case SoftRubric => true
        case _ => check(i) == Passed;
      results := results + [HardResult(i, passed)];
    }
  }

  // The soft rubric.

  datatype Calibration = Calibration(index: nat, samples: nat, minReviewers: nat, threshold: real)

  datatype SoftReview = SoftReview(verdicts: map<nat, bool>, disagreement: bool)

  /** A reviewer judges a criterion by the content of its evidence and sees nothing else of the run. */
  type Reviewer = (nat, string) -> bool

  /** The calibration of a criterion: the last record for it. */
  function CalibrationOf(records: seq<Calibration>, i: nat): Option<Calibration> {
    if records == [] then None
    else if records[|records| - 1].index == i then Some(records[|records| - 1])
    else CalibrationOf(records[..|records| - 1], i)
  }

  function PassCount(reviewers: seq<Reviewer>, i: nat, content: string): (n: nat)
    ensures n <= |reviewers|
  {
    if reviewers == [] then 0
    else PassCount(reviewers[..|reviewers| - 1], i, content) + (if reviewers[|reviewers| - 1](i, content) then 1 else 0)
  }

  function ContentOf(contents: map<nat, string>, i: nat): string {
    if i in contents then contents[i] else ""
  }

  /** A calibrated panel of enough reviewers agrees strongly enough. */
  ghost predicate Accepted(reviewers: seq<Reviewer>, records: seq<Calibration>, contents: map<nat, string>, i: nat) {
    && |reviewers| >= 2
    && exists cal :: Calibrates(records, i, cal) && cal.samples > 0 && |reviewers| >= cal.minReviewers &&
         PassCount(reviewers, i, if i in contents then contents[i] else "") as real >=
           cal.threshold * |reviewers| as real
  }

  /** The last record for a criterion. */
  ghost predicate Calibrates(records: seq<Calibration>, i: nat, cal: Calibration) {
    cal.index == i && exists k :: IsLastFor(records, i, k) && records[k] == cal
  }

  ghost predicate IsLastFor(records: seq<Calibration>, i: nat, k: int) {
    0 <= k < |records| && records[k].index == i && forall j :: k < j < |records| ==> records[j].index != i
  }

  lemma {:induction false} CalibrationIsLast(records: seq<Calibration>, i: nat)
    ensures forall cal :: Calibrates(records, i, cal) <==> CalibrationOf(records, i) == Some(cal)
  {
    if records != [] {
      var n := |records| - 1;
      CalibrationIsLast(records[..n], i);
      forall cal ensures Calibrates(records, i, cal) <==> CalibrationOf(records, i) == Some(cal) {
        OneMoreRecord(records, i, cal);
      }
    }
  }

  lemma {:induction false} OneMoreRecord(records: seq<Calibration>, i: nat, cal: Calibration)
    requires records != []
    ensures var n := |records| - 1;
            Calibrates(records, i, cal) <==>
              if records[n].index == i then cal == records[n] else Calibrates(records[..n], i, cal)
  {
    var n := |records| - 1;
    var front := records[..n];
    assert forall j :: 0 <= j < n ==> front[j] == records[j];
    assert IsLastFor(records, i, n) <==> records[n].index == i;
    if records[n].index != i && Calibrates(front, i, cal) {
      var k :| IsLastFor(front, i, k) && front[k] == cal;
      assert IsLastFor(records, i, k);
    }
    if Calibrates(records, i, cal) {
      var k :| IsLastFor(records, i, k) && records[k] == cal;
      assert k < n ==> IsLastFor(front, i, k);
    }
  }

  predicate IsSoft(criteria: seq<Criterion>, i: nat) {
    i < |criteria| && criteria[i].kind.SoftRubric?
  }

  /** What a review of the soft criteria means. */
  ghost predicate Reviewed(criteria: seq<Criterion>, reviewers: seq<Reviewer>, records: seq<Calibration>,
                           contents: map<nat, string>, review: SoftReview) {
    && (forall i: nat :: i in review.verdicts <==> IsSoft(criteria, i))
    && (forall i: nat :: IsSoft(criteria, i) ==> (review.verdicts[i] <==> Accepted(reviewers, records, contents, i)))
    && (review.disagreement <==> exists i: nat :: IsSoft(criteria, i) && !Accepted(reviewers, records, contents, i))
  }

  method Panel(reviewers: seq<Reviewer>, i: nat, content: string) returns (passes: nat)
    ensures passes == PassCount(reviewers, i, content)
  {
    passes := 0;
    for k := 0 to |reviewers|
      invariant passes == PassCount(reviewers[..k], i, content)
    {
      assert reviewers[..k + 1][..k] == reviewers[..k];
      if reviewers[k](i, content) {
        passes := passes + 1;
      }
    }
    assert reviewers[..|reviewers|] == reviewers;
  }

  /** A share is at least a threshold exactly when the count is at least that part of the whole. */
  lemma {:induction false} ShareAtLeast(passes: nat, n: nat, threshold: real)
    requires n > 0
    ensures passes as real / n as real >= threshold <==> passes as real >= threshold * n as real
  {
    var share, whole := passes as real / n as real, n as real;
    assert share * whole == passes as real;
    if share >= threshold {
      assert (share - threshold) * whole >= 0.0;
    } else {
      assert (threshold - share) * whole > 0.0;
    }
  }

  method CheckSoft(criteria: seq<Criterion>, reviewers: seq<Reviewer>, records: seq<Calibration>,
                   contents: map<nat, string>)
    returns (review: SoftReview)
    ensures Reviewed(criteria, reviewers, records, contents, review)
  {
    var verdicts: map<nat, bool> := map[];
    var disagreement := false;
    for i := 0 to |criteria|
      invariant forall j: nat :: j in verdicts <==> j < i && IsSoft(criteria, j)
      invariant forall j: nat :: j in verdicts ==> (verdicts[j] <==> Accepted(reviewers, records, contents, j))
      invariant disagreement <==>
        exists j: nat :: j < i && IsSoft(criteria, j) && !Accepted(reviewers, records, contents, j)
    {
      if criteria[i].kind.SoftRubric? {
        assert IsSoft(criteria, i);
        var accepted := Judge(reviewers, records, contents, i);
        verdicts := verdicts[i := accepted];
        disagreement := disagreement || !accepted;
      } else {
        assert !IsSoft(criteria, i);
      }
    }
    review := SoftReview(verdicts, disagreement);
  }

  /** Without two reviewers nothing is accepted; otherwise the calibration decides. */
  method Judge(reviewers: seq<Reviewer>, records: seq<Calibration>, contents: map<nat, string>, i: nat)
    returns (accepted: bool)
    ensures accepted <==> Accepted(reviewers, records, contents, i)
  {
    if |reviewers| < MIN_BLINDED_REVIEWERS {
      return false;
    }
    var passes := Panel(reviewers, i, ContentOf(contents, i));
    var cal := CalibrationOf(records, i);
    CalibrationIsLast(records, i);
    if cal.None? {
      return false;
    }
    ShareAtLeast(passes, |reviewers|, cal.value.threshold);
    accepted := cal.value.samples > 0 && |reviewers| >= cal.value.minReviewers &&
                passes as real / |reviewers| as real >= cal.value.threshold;
  }

  // The law.

  predicate HasResult(hard: seq<HardResult>, i: nat) {
    exists r :: r in hard && r.index == i
  }

  /** A criterion that no check has looked at, or whose kind is not known. */
  predicate Unevaluated(criteria: seq<Criterion>, hard: seq<HardResult>, verdicts: map<nat, bool>, i: nat)
    requires i < |criteria|
  {
    match criteria[i].kind
    case UnknownKind(_) => true
    case Hard(_) => !HasResult(hard, i)
    case SoftRubric => i !in verdicts
  }

  predicate AnyUnevaluated(criteria: seq<Criterion>, hard: seq<HardResult>, verdicts: map<nat, bool>) {
    exists i :: 0 <= i < |criteria| && Unevaluated(criteria, hard, verdicts, i)
  }

  predicate AnyHardFailure(criteria: seq<Criterion>, hard: seq<HardResult>) {
    exists r :: r in hard && r.index < |criteria| && !r.passed
  }

  predicate AnySoft(criteria: seq<Criterion>) { exists c :: c in criteria && c.kind.SoftRubric? }

  predicate AllSoftAccepted(criteria: seq<Criterion>, verdicts: map<nat, bool>) {
    forall i :: 0 <= i < |criteria| && criteria[i].kind.SoftRubric? ==> i in verdicts && verdicts[i]
  }

  function Decide(contract: Contract, hard: seq<HardResult>, soft: Option<SoftReview>, usage: Spend): RunOutcome {
    var criteria := contract.criteria;
    var verdicts := if soft.Some? then soft.value.verdicts else map[];
    if AnyUnevaluated(criteria, hard, verdicts) then FailedRun
    else if AnyHardFailure(criteria, hard) then FailedRun
    else if Exceeds(usage, contract.budget) then Abstained
    else if AnySoft(criteria) && (soft.None? || soft.value.disagreement) then Abstained
    else if AnySoft(criteria) && !AllSoftAccepted(criteria, verdicts) then Abstained
    else Verified
  }

  // The three together.

  /** Every hard criterion passed its check. */
  ghost predicate HardPassed(criteria: seq<Criterion>, check: nat -> Check) {
    forall i: nat :: i < |criteria| && !criteria[i].kind.SoftRubric? ==> criteria[i].kind.Hard? && check(i) == Passed
  }

  ghost predicate SoftAccepted(criteria: seq<Criterion>, reviewers: seq<Reviewer>, records: seq<Calibration>,
                               contents: map<nat, string>)
  {
    forall i: nat :: IsSoft(criteria, i) ==> Accepted(reviewers, records, contents, i)
  }

  /** The hard results that `VerifyHard` gives. */
  ghost predicate HardChecked(criteria: seq<Criterion>, check: nat -> Check, hard: seq<HardResult>) {
    && |hard| == |criteria|
    && forall i :: 0 <= i < |criteria| ==>
         hard[i].index == i && (hard[i].passed <==> criteria[i].kind.SoftRubric? || check(i) == Passed)
  }

  lemma {:induction false} EvaluatedIffKnown(criteria: seq<Criterion>, check: nat -> Check, hard: seq<HardResult>,
                                             verdicts: map<nat, bool>)
    requires HardChecked(criteria, check, hard)
    requires forall i: nat :: i in verdicts <==> IsSoft(criteria, i)
    ensures AnyUnevaluated(criteria, hard, verdicts) <==>
      exists i: nat :: i < |criteria| && criteria[i].kind.UnknownKind?
  {
    forall i: nat | i < |criteria| ensures Unevaluated(criteria, hard, verdicts, i) <==> criteria[i].kind.UnknownKind? {
      assert hard[i] in hard;
    }
  }

  lemma {:induction false} FailuresAreFailedChecks(criteria: seq<Criterion>, check: nat -> Check, hard: seq<HardResult>)
    requires HardChecked(criteria, check, hard)
    ensures AnyHardFailure(criteria, hard) <==>
      exists i: nat :: i < |criteria| && !criteria[i].kind.SoftRubric? && check(i) != Passed
  {
    if i: nat :| i < |criteria| && !criteria[i].kind.SoftRubric? && check(i) != Passed {
      assert hard[i] in hard && !hard[i].passed;
    }
    if r :| r in hard && r.index < |criteria| && !r.passed {
      var k :| 0 <= k < |hard| && hard[k] == r;
      assert !criteria[k].kind.SoftRubric? && check(k) != Passed;
    }
  }

  /**
   * A run is verified exactly when every hard criterion passed, every soft criterion was accepted by a
   * calibrated panel and usage is within the budget of the contract; it fails exactly when a criterion is of
   * an unknown kind or a hard check did not pass; and it abstains otherwise.
   */
  lemma {:induction false} OutcomeMeans(contract: Contract, check: nat -> Check, reviewers: seq<Reviewer>,
                                        records: seq<Calibration>, contents: map<nat, string>, usage: Spend,
                                        hard: seq<HardResult>, review: SoftReview)
    requires HardChecked(contract.criteria, check, hard)
    requires Reviewed(contract.criteria, reviewers, records, contents, review)
    ensures var o := Decide(contract, hard, Some(review), usage);
            && (o == FailedRun <==> !HardPassed(contract.criteria, check))
            && (o == Verified <==> HardPassed(contract.criteria, check) && !Exceeds(usage, contract.budget) &&
                                   SoftAccepted(contract.criteria, reviewers, records, contents))
  {
    var criteria := contract.criteria;
    EvaluatedIffKnown(criteria, check, hard, review.verdicts);
    FailuresAreFailedChecks(criteria, check, hard);
    SoftSignals(criteria, reviewers, records, contents, review);
  }

  lemma {:induction false} SoftSignals(criteria: seq<Criterion>, reviewers: seq<Reviewer>, records: seq<Calibration>,
                                       contents: map<nat, string>, review: SoftReview)
    requires Reviewed(criteria, reviewers, records, contents, review)
    ensures review.disagreement <==> !SoftAccepted(criteria, reviewers, records, contents)
    ensures review.disagreement ==> AnySoft(criteria)
    ensures AllSoftAccepted(criteria, review.verdicts) <==> SoftAccepted(criteria, reviewers, records, contents)
  {
    if i: nat :| IsSoft(criteria, i) && !Accepted(reviewers, records, contents, i) {
      assert criteria[i] in criteria;
    }
    forall i: nat | IsSoft(criteria, i) ensures review.verdicts[i] <==> Accepted(reviewers, records, contents, i) {
    }
  }

  /**
   * Whatever results the law is given, it never verifies a run with an unevaluated or failed criterion, or over budget.
   */
  lemma {:induction false} NothingPassesByClaim(contract: Contract, hard: seq<HardResult>, soft: Option<SoftReview>,
                                                usage: Spend, i: nat)
    requires Decide(contract, hard, soft, usage) == Verified && i < |contract.criteria|
    ensures !Exceeds(usage, contract.budget)
    ensures contract.criteria[i].kind.Hard? ==>
              HasResult(hard, i) && forall r :: r in hard && r.index == i ==> r.passed
    ensures contract.criteria[i].kind.SoftRubric? ==> soft.Some? && i in soft.value.verdicts && soft.value.verdicts[i]
    ensures !contract.criteria[i].kind.UnknownKind?
  {
    assert !Unevaluated(contract.criteria, hard, if soft.Some? then soft.value.verdicts else map[], i);
    assert contract.criteria[i] in contract.criteria;
  }
}
