/** The attempt loop of one cell: retries, reroutes, spend recording and carried conversations. */
module CellRuns {
  import opened Domain
  import opened Routing
  import opened Retry
  import Budgets

  /** One run of the worker. `history` is the conversation it returns, if there is one. */
  datatype WorkerRun<+H> =
    | RaisedError
    | Result(ok: bool, kind: ErrorKind, spend: Spend, history: Option<H>)

  /** What other cells do for a while: they spend, and they consult the shared retry policy. */
  datatype Others = Others(spend: Spend, failures: seq<(FailureType, Signature)>)

  /**
   * How each attempt of the worker ends, and what other cells do: while the attempt runs, and again after its spend
   * was recorded, while its failure is recorded or its evidence stored.
   */
  datatype CellWorld<!H> = CellWorld(worker: nat -> WorkerRun<H>, others: nat -> Others, meanwhile: nat -> Others)

  /** Other cells act under their own ids. */
  ghost predicate Foreign<H>(world: CellWorld<H>, cell: Id) {
    && (forall i, f :: f in world.others(i).failures ==> f.1.cell != cell)
    && (forall i, f :: f in world.meanwhile(i).failures ==> f.1.cell != cell)
  }

  datatype CellEvent =
    | RouteSelected(selected: Option<ProfileName>)
    | CellStarted(profile: ProfileName)
    | RecoveryTransition(failure: FailureType, action: Action, attempt: nat)
    | CellCompleted(usage: Spend)
    | CellFailed(kind: Option<ErrorKind>)

  datatype CellOutcome = Succeeded | EndedWith(outcome: ShortOutcome)

  /** An attempt: who runs it and the conversation it starts from. */
  datatype Attempt<+H> = Attempt(profile: ProfileName, resume: Option<H>)

  predicate IsTerminal(e: CellEvent) { e.CellCompleted? || e.CellFailed? }

  predicate NoTerminal(events: seq<CellEvent>) { forall e :: e in events ==> !IsTerminal(e) }

  function Names(profiles: seq<Profile>): (names: seq<ProfileName>)
    ensures |names| == |profiles|
    ensures forall p :: p in profiles ==> p.name in names
  {
    if profiles == [] then []
    else
      assert profiles == profiles[..|profiles| - 1] + [profiles[|profiles| - 1]];
      Names(profiles[..|profiles| - 1]) + [profiles[|profiles| - 1].name]
  }

  /** The usage totals of a run and the account of its budget authority, shared by the cells of the run. */
  class Tally {
    var used: Spend
    var account: Budgets.Account

    constructor (used: Spend, account: Budgets.Account)
      ensures this.used == used && this.account == account
    {
      this.used, this.account := used, account;
    }

    /** What the authority and the totals do with the spend of one attempt. */
    method Record(s: Spend)
      modifies this
      ensures used == old(used).Plus(s) && account == Budgets.Recorded(old(account), s)
    {
      account := Budgets.Recorded(account, s);
      used := used.Plus(s);
    }
  }

  // Everything that is recorded while a cell runs, in order.

  function SpendOf<H>(r: WorkerRun<H>): Spend { if r.Result? then r.spend else NO_SPEND }

  /** What the run's totals gain over the first `n` attempts, other cells included. */
  function GainedBy<H>(world: CellWorld<H>, n: nat): Spend {
    if n == 0 then NO_SPEND
    else
      GainedBy(world, n - 1).Plus(world.others(n - 1).spend).Plus(SpendOf(world.worker(n - 1)))
        .Plus(world.meanwhile(n - 1).spend)
  }

  function OwnSpend<H>(world: CellWorld<H>, n: nat): Spend {
    if n == 0 then NO_SPEND else OwnSpend(world, n - 1).Plus(SpendOf(world.worker(n - 1)))
  }

  function OthersSpend<H>(world: CellWorld<H>, n: nat): Spend {
    if n == 0 then NO_SPEND
    else OthersSpend(world, n - 1).Plus(world.others(n - 1).spend).Plus(world.meanwhile(n - 1).spend)
  }

  /** What a completed cell reports as its usage is its own spend plus that of the cells running beside it. */
  lemma {:induction false} GainedIsOwnAndOthers<H>(world: CellWorld<H>, n: nat)
    ensures GainedBy(world, n) == OwnSpend(world, n).Plus(OthersSpend(world, n))
  {
    if n == 0 {
      PlusAssociates(NO_SPEND, NO_SPEND, NO_SPEND);
    } else {
      GainedIsOwnAndOthers(world, n - 1);
      Regroup(GainedBy(world, n - 1), OwnSpend(world, n - 1), OthersSpend(world, n - 1),
              world.others(n - 1).spend, SpendOf(world.worker(n - 1)), world.meanwhile(n - 1).spend);
    }
  }

  lemma {:induction false} Regroup(gained: Spend, own: Spend, others: Spend, x: Spend, y: Spend, z: Spend)
    requires gained == own.Plus(others)
    ensures gained.Plus(x).Plus(y).Plus(z) == own.Plus(y).Plus(others.Plus(x).Plus(z))
  {
  }

  /** So it is its own spend exactly when no other cell spent anything meanwhile. */
  lemma {:induction false} GainedIsOwnIff<H>(world: CellWorld<H>, n: nat)
    ensures GainedBy(world, n) == OwnSpend(world, n) <==> OthersSpend(world, n) == NO_SPEND
  {
    GainedIsOwnAndOthers(world, n);
  }

  /** A cell that succeeds at once, without a request of its own, reports the requests of the cells beside it. */
  lemma {:induction false} ReportsRequestsOfOthers<H>(world: CellWorld<H>)
    requires Succeeds(world.worker(0)) && SpendOf(world.worker(0)).calls == 0
    ensures OwnSpend(world, 1).calls == 0
    ensures GainedBy(world, 1).calls == world.others(0).spend.calls + world.meanwhile(0).spend.calls
  {
    FirstGain(world, 1);
  }

  lemma {:induction false} FirstGain<H>(world: CellWorld<H>, n: nat)
    requires n == 1
    ensures OwnSpend(world, n) == NO_SPEND.Plus(SpendOf(world.worker(0)))
    ensures GainedBy(world, n) ==
            NO_SPEND.Plus(world.others(0).spend).Plus(SpendOf(world.worker(0))).Plus(world.meanwhile(0).spend)
  {
    assert n - 1 == 0;
    assert OwnSpend(world, n - 1) == NO_SPEND;
    assert GainedBy(world, n - 1) == NO_SPEND;
  }

  /** Each conversation that an attempt starts from comes from the checkpoint or from the failed attempt before it. */
  ghost predicate Carried<H>(world: CellWorld<H>, checkpoint: Option<H>, attempts: seq<Attempt<H>>) {
    forall k :: 0 <= k < |attempts| ==>
      if k == 0 then attempts[k].resume == checkpoint
      else CarriedFrom(world.worker(k - 1), attempts[k].resume)
  }

  /** A failure by budget is never continued, so its conversation is never carried. */
  predicate CarriedFrom<H(==)>(r: WorkerRun<H>, resume: Option<H>) {
    match r
    case RaisedError => resume == None
    case Result(ok, kind, _, history) => !ok && kind != BudgetError && resume == history
  }

  /** Recovery for a failure by budget: reduce scope while one of the axes is less than half used. */
  function DecideBudget(b: Budget, used: Spend): Action {
    if (b.costLimit.None? || used.cost < b.costLimit.value * 0.5) ||
       (b.tokenLimit.None? || used.Tokens() as real < b.tokenLimit.value as real * 0.5)
    then ScopeReduction else Fail
  }

  method HandleFailure(failure: FailureType, sig: Signature, b: Budget, used: Spend, retry: RetryPolicy)
    returns (action: Action)
    modifies retry
    ensures action == if failure.Safety? then Terminate else if failure.BudgetFailure? then DecideBudget(b, used)
                      else ActionAt(failure, Seen(old(retry.seen), sig))
    ensures failure.Safety? || failure.BudgetFailure? ==> retry.seen == old(retry.seen)
    ensures !failure.Safety? && !failure.BudgetFailure? ==> Seen(retry.seen, sig) == Seen(old(retry.seen), sig) + 1
    ensures forall other :: other != sig ==> Seen(retry.seen, other) == Seen(old(retry.seen), other)
  {
    if failure.Safety? {
      return Terminate;
    }
    if failure.BudgetFailure? {
      return DecideBudget(b, used);
    }
    action := retry.NextAction(failure, sig);
  }

  /** The cell and what it needs from the run. */
  datatype Job = Job(cell: Id, need: Need, required: set<Capability>, version: nat, budget: Budget)

  /** Everything that decides a run of a cell; `before` and `seen` are the totals and the counters at its start. */
  datatype Setting<!H> = Setting(config: Config, job: Job, checkpoint: Option<H>, world: CellWorld<H>,
                                 before: Spend, seen: map<Signature, nat>)

  function SignatureOf(job: Job, profile: ProfileName): Signature {
    Signature(job.version, job.cell, profile, job.need.mode)
  }

  /** Attempts share a counter exactly if cell, contract version, profile and mode are the same. */
  lemma {:induction false} StrategiesDiffer(a: Job, b: Job, p: ProfileName, q: ProfileName)
    ensures SignatureOf(a, p) == SignatureOf(b, q) <==>
            a.cell == b.cell && a.version == b.version && p == q && a.need.mode == b.need.mode
  {
  }

  /** The early rungs that the cell has left. */
  function Rungs(config: Config, job: Job, seen: map<Signature, nat>): nat {
    RungsLeft(Names(config.profiles), seen, job.version, job.cell, job.need.mode)
  }

  /** Other cells share the totals and the retry counters, under their own ids. */
  method OtherCells(others: Others, config: Config, job: Job, retry: RetryPolicy, tally: Tally)
    requires forall f :: f in others.failures ==> f.1.cell != job.cell
    modifies retry, tally
    ensures tally.used == old(tally.used).Plus(others.spend)
    ensures tally.account == Budgets.Recorded(old(tally.account), others.spend)
    ensures Rungs(config, job, retry.seen) == Rungs(config, job, old(retry.seen))
    ensures forall sig: Signature :: sig.cell == job.cell ==> Seen(retry.seen, sig) == Seen(old(retry.seen), sig)
  {
    for i := 0 to |others.failures|
      invariant Rungs(config, job, retry.seen) == Rungs(config, job, old(retry.seen))
      invariant forall sig: Signature :: sig.cell == job.cell ==> Seen(retry.seen, sig) == Seen(old(retry.seen), sig)
      invariant tally.used == old(tally.used) && tally.account == old(tally.account)
    {
      var f := others.failures[i];
      assert f in others.failures;
      ghost var before := retry.seen;
      var _ := retry.NextAction(f.0, f.1);
      OtherCellsDoNotCount(Names(config.profiles), before, retry.seen, job.version, job.cell, job.need.mode, f.1);
    }
    tally.Record(others.spend);
  }

  // What recovery does after a failed attempt, told from the attempts alone.

  predicate Succeeds<H>(r: WorkerRun<H>) { r.Result? && r.ok }

  /** The kind of a failure: a worker that raises counts as the provider's, and used-up calls as the budget's. */
  function KindOf<H>(run: WorkerRun<H>, b: Budget, used: Spend): ErrorKind {
    if run.RaisedError? then ProviderError
    else if b.maxCalls != 0 && used.calls >= b.maxCalls then BudgetError
    else run.kind
  }

  function FailureAt<H>(s: Setting<H>, k: nat): FailureType {
    Classify(KindOf(s.world.worker(k), s.job.budget, UsedAt(s.world, s.before, k)))
  }

  predicate Capped(b: Budget, attempt: nat) { b.maxRetries != 0 && attempt >= b.maxRetries }

  /** The recovery action: the cap on retries comes before the ladders. */
  function ActionFor(b: Budget, failure: FailureType, attempt: nat, used: Spend, rung: nat): Action {
    if Capped(b, attempt) || failure.Safety? then Terminate
    else if failure.BudgetFailure? then DecideBudget(b, used)
    else ActionAt(failure, rung)
  }

  /** Whether a failure climbs the ladder of its strategy. */
  predicate Climbs(b: Budget, failure: FailureType, attempt: nat) {
    !Capped(b, attempt) && !failure.Safety? && !failure.BudgetFailure?
  }

  /** How far the first `n` failures have climbed the ladder of a profile. */
  function Climbed<H>(s: Setting<H>, attempts: seq<Attempt<H>>, n: nat, profile: ProfileName): nat
    requires n <= |attempts|
  {
    if n == 0 then 0
    else
      Climbed(s, attempts, n - 1, profile) +
      if attempts[n - 1].profile == profile && Climbs(s.job.budget, FailureAt(s, n - 1), n - 1) then 1 else 0
  }

  function RungAt<H>(s: Setting<H>, attempts: seq<Attempt<H>>, k: nat): nat
    requires k < |attempts|
  {
    Seen(s.seen, SignatureOf(s.job, attempts[k].profile)) + Climbed(s, attempts, k, attempts[k].profile)
  }

  function ActionOf<H>(s: Setting<H>, attempts: seq<Attempt<H>>, k: nat): Action
    requires k < |attempts|
  {
    ActionFor(s.job.budget, FailureAt(s, k), k, UsedAt(s.world, s.before, k), RungAt(s, attempts, k))
  }

  /** No other profile can take the cell over. */
  ghost predicate NoOther(config: Config, job: Job, failed: ProfileName, used: Spend) {
    forall p :: p in config.profiles ==>
      !Candidate(config, job.need, job.required, Some(Remaining(job.budget, used)), {failed}, p)
  }

  /** The best of the eligible profiles other than the failed one. */
  ghost predicate BestOther(config: Config, job: Job, failed: ProfileName, used: Spend, next: ProfileName) {
    exists i: nat :: i < |config.profiles| && config.profiles[i].name == next &&
      FirstBest(config, job.need, job.required, Some(Remaining(job.budget, used)), {failed}, |config.profiles|, i)
  }

  /**
   * Who runs the cell after an action: the same profile again, the best other one, or nobody.
   * A transient failure that nobody else can take over is tried again where it was.
   */
  ghost predicate Follows(config: Config, job: Job, profile: ProfileName, failure: FailureType, action: Action,
                          used: Spend, next: Option<ProfileName>)
  {
    match action
    case BackoffRetry => next == Some(profile)
    case ChangedStrategyRetry => next == Some(profile)
    case RerouteEscalate =>
      if NoOther(config, job, profile, used) then next == if failure.Transient? then Some(profile) else None
      else next.Some? && next.value != profile && BestOther(config, job, profile, used, next.value)
    case _ => next == None
  }

  /**
   * What was recorded for failed attempt `k`, and who ran the next one. The action is chosen from the totals as the
   * attempt leaves them, a reroute from what they have become once the action is recorded.
   */
  ghost predicate RecoveredAt<H>(s: Setting<H>, attempts: seq<Attempt<H>>, k: nat, next: Option<ProfileName>,
                                 events: seq<CellEvent>)
    requires k < |attempts|
  {
    && RecoveryTransition(FailureAt(s, k), ActionOf(s, attempts, k), k) in events
    && Follows(s.config, s.job, attempts[k].profile, FailureAt(s, k), ActionOf(s, attempts, k),
               UsedAfter(s.world, s.before, k + 1), next)
  }

  lemma {:induction false} ClimbedPrefix<H>(s: Setting<H>, a: seq<Attempt<H>>, b: seq<Attempt<H>>, n: nat,
                                            profile: ProfileName)
    requires n <= |a|
    ensures Climbed(s, a + b, n, profile) == Climbed(s, a, n, profile)
  {
    if n > 0 {
      ClimbedPrefix(s, a, b, n - 1, profile);
    }
  }

  lemma {:induction false} ActionStays<H>(s: Setting<H>, a: seq<Attempt<H>>, b: seq<Attempt<H>>, k: nat)
    requires k < |a|
    ensures (a + b)[k] == a[k] && ActionOf(s, a + b, k) == ActionOf(s, a, k)
  {
    ClimbedPrefix(s, a, b, k, a[k].profile);
  }

  lemma {:induction false} RecoveredStays<H>(s: Setting<H>, a: seq<Attempt<H>>, b: seq<Attempt<H>>, k: nat,
                                             next: Option<ProfileName>, events: seq<CellEvent>, more: seq<CellEvent>)
    requires k < |a| && RecoveredAt(s, a, k, next, events)
    ensures RecoveredAt(s, a + b, k, next, events + more)
  {
    ActionStays(s, a, b, k);
  }

  // What holds before an attempt, and what a whole run promises.

  /** The counters of the cell's own strategies. */
  ghost predicate Tracks<H>(s: Setting<H>, attempts: seq<Attempt<H>>, seen: map<Signature, nat>) {
    forall profile :: Seen(seen, SignatureOf(s.job, profile)) ==
                      Seen(s.seen, SignatureOf(s.job, profile)) + Climbed(s, attempts, |attempts|, profile)
  }

  function NextOf<H>(attempts: seq<Attempt<H>>, k: nat): Option<ProfileName> {
    if k + 1 < |attempts| then Some(attempts[k + 1].profile) else None
  }

  ghost predicate LoopState<H>(s: Setting<H>, attempts: seq<Attempt<H>>, now: Attempt<H>, seen: map<Signature, nat>,
                               events: seq<CellEvent>) {
    && now.profile in Names(s.config.profiles)
    && (forall a :: a in attempts ==> a.profile in Names(s.config.profiles))
    && Carried(s.world, s.checkpoint, attempts + [now])
    && |attempts| + Rungs(s.config, s.job, seen) <= 2 * |s.config.profiles|
    && (s.job.budget.maxRetries != 0 ==> |attempts| <= s.job.budget.maxRetries)
    && NoTerminal(events)
    && Tracks(s, attempts, seen)
    && Recovered(s, attempts, |attempts|, attempts + [now], events)
  }

  /** The first `n` attempts failed and were followed as their recorded actions say. */
  ghost predicate Recovered<H>(s: Setting<H>, attempts: seq<Attempt<H>>, n: nat, known: seq<Attempt<H>>,
                               events: seq<CellEvent>)
    requires n <= |attempts|
  {
    forall k :: 0 <= k < n ==> RecoveredAt(s, attempts, k, NextOf(known, k), events)
  }

  /** At most as many attempts as rungs and retries allow, of known profiles, each with the conversation it is due. */
  ghost predicate AttemptsKeep<H>(s: Setting<H>, attempts: seq<Attempt<H>>) {
    && |attempts| <= 2 * |s.config.profiles| + 1
    && (s.job.budget.maxRetries != 0 ==> |attempts| <= s.job.budget.maxRetries + 1)
    && Carried(s.world, s.checkpoint, attempts)
    && (forall a :: a in attempts ==> a.profile in Names(s.config.profiles))
  }

  lemma {:induction false} LoopKeeps<H>(s: Setting<H>, attempts: seq<Attempt<H>>, now: Attempt<H>,
                                        seen: map<Signature, nat>, events: seq<CellEvent>)
    requires LoopState(s, attempts, now, seen, events)
    ensures AttemptsKeep(s, attempts + [now])
  {
  }

  /** Every attempt before the last one failed: it was followed by another. */
  lemma {:induction false} EarlierAttemptsFailed<H>(world: CellWorld<H>, checkpoint: Option<H>,
                                                    attempts: seq<Attempt<H>>, k: nat)
    requires Carried(world, checkpoint, attempts) && k + 1 < |attempts|
    ensures !Succeeds(world.worker(k))
  {
    assert CarriedFrom(world.worker(k), attempts[k + 1].resume);
  }

  /** One terminal event, at the end. */
  ghost predicate OneTerminal(events: seq<CellEvent>) {
    events != [] && IsTerminal(events[|events| - 1]) && NoTerminal(events[..|events| - 1])
  }

  /** A failed cell ends by its last recovery action. */
  ghost predicate EndsByAction<H>(s: Setting<H>, attempts: seq<Attempt<H>>, events: seq<CellEvent>,
                                  outcome: CellOutcome)
    requires attempts != []
  {
    var last := |attempts| - 1;
    var action := ActionOf(s, attempts, last);
    && !Succeeds(s.world.worker(last))
    && |events| >= 2 && events[|events| - 1].CellFailed?
    && events[|events| - 2] == RecoveryTransition(FailureAt(s, last), action, last)
    && outcome == EndedWith(if Abstains(action) then Abstained else FailedRun)
  }

  /** What a whole run of a cell promises. */
  ghost predicate CellPromise<H>(s: Setting<H>, outcome: CellOutcome, events: seq<CellEvent>, attempts: seq<Attempt<H>>)
  {
    && OneTerminal(events)
    && (outcome.Succeeded? <==> events[|events| - 1].CellCompleted?)
    && AttemptsKeep(s, attempts)
    && (outcome.Succeeded? ==>
          && attempts != [] && Succeeds(s.world.worker(|attempts| - 1))
          && events[|events| - 1] == CellCompleted(GainedBy(s.world, |attempts|))
          && Recovered(s, attempts, |attempts| - 1, attempts, events))
    && (!outcome.Succeeded? ==>
          && Recovered(s, attempts, |attempts|, attempts, events)
          && (attempts != [] ==> EndsByAction(s, attempts, events, outcome)))
  }

  // Recovery.

  /** A reroute only excludes the profile that has just failed. */
  method Reroute(config: Config, job: Job, failed: ProfileName, used: Spend) returns (next: Option<ProfileName>)
    ensures next.None? <==> NoOther(config, job, failed, used)
    ensures next.Some? ==> BestOther(config, job, failed, used, next.value)
    ensures next.Some? ==> next.value in Names(config.profiles) && next.value != failed
  {
    next := Route(config, job.need, Some(Remaining(job.budget, used)), {failed}, job.required);
  }

  method ChooseAction(config: Config, job: Job, profile: ProfileName, failure: FailureType, attempt: nat, used: Spend,
                      retry: RetryPolicy) returns (action: Action)
    requires profile in Names(config.profiles)
    modifies retry
    ensures action == ActionFor(job.budget, failure, attempt, used, Seen(old(retry.seen), SignatureOf(job, profile)))
    ensures forall other :: other != SignatureOf(job, profile) ==>
      Seen(retry.seen, other) == Seen(old(retry.seen), other)
    ensures Seen(retry.seen, SignatureOf(job, profile)) ==
            Seen(old(retry.seen), SignatureOf(job, profile)) + if Climbs(job.budget, failure, attempt) then 1 else 0
    ensures Continues(action) ==> !failure.BudgetFailure? && !Capped(job.budget, attempt)
    ensures Continues(action) ==> Rungs(config, job, retry.seen) < Rungs(config, job, old(retry.seen))
  {
    if job.budget.maxRetries != 0 && attempt >= job.budget.maxRetries {
      return Terminate;
    }
    var sig := SignatureOf(job, profile);
    ghost var before := retry.seen;
    ContinuesOnlyEarly(failure, Seen(before, sig));
    action := HandleFailure(failure, sig, job.budget, used, retry);
    if Continues(action) {
      RungUsed(Names(config.profiles), before, retry.seen, job.version, job.cell, job.need.mode, profile);
    }
  }

  /** After the action is recorded: retry, reroute or give up. */
  method Proceed(config: Config, job: Job, profile: ProfileName, failure: FailureType, action: Action, attempt: nat,
                 used: Spend)
    returns (next: Option<ProfileName>, events: seq<CellEvent>)
    requires profile in Names(config.profiles)
    ensures NoTerminal(events) && Follows(config, job, profile, failure, action, used, next)
    ensures next.Some? ==> Continues(action) && next.value in Names(config.profiles)
    ensures next.None? ==> events == []
  {
    if action.BackoffRetry? || action.ChangedStrategyRetry? {
      return Some(profile), [];
    }
    if action.RerouteEscalate? {
      next := Reroute(config, job, profile, used);
      if next.Some? {
        return next, [RouteSelected(next)];
      }
      if failure.Transient? {
        return Some(profile), [RecoveryTransition(failure, BackoffRetry, attempt + 1)];
      }
    }
    next, events := None, [];
  }

  lemma {:induction false} CarryOn<H>(world: CellWorld<H>, checkpoint: Option<H>, attempts: seq<Attempt<H>>,
                                      next: Attempt<H>)
    requires Carried(world, checkpoint, attempts) && attempts != []
    requires CarriedFrom(world.worker(|attempts| - 1), next.resume)
    ensures Carried(world, checkpoint, attempts + [next])
  {
  }

  /** What was used since an earlier moment. */
  function Since(now: Spend, before: Spend): Spend
    requires now.inputTokens >= before.inputTokens && now.outputTokens >= before.outputTokens
    requires now.cost >= before.cost && now.calls >= before.calls
  {
    Spend(now.inputTokens - before.inputTokens, now.outputTokens - before.outputTokens,
          now.cost - before.cost, now.calls - before.calls)
  }

  lemma {:induction false} SinceUndoesPlus(before: Spend, gain: Spend)
    ensures Since(before.Plus(gain), before) == gain
  {
  }

  lemma {:induction false} SinceIsGained<H>(world: CellWorld<H>, before: Spend, n: nat)
    ensures var now := UsedAfter(world, before, n);
            && now.inputTokens >= before.inputTokens && now.outputTokens >= before.outputTokens
            && now.cost >= before.cost && now.calls >= before.calls
            && Since(now, before) == GainedBy(world, n)
  {
    UsedIsGained(world, before, n);
    SinceUndoesPlus(before, GainedBy(world, n));
  }

  /** The totals after `n` attempts and what other cells did meanwhile. */
  function UsedAfter<H>(world: CellWorld<H>, before: Spend, n: nat): Spend
    decreases n, 0
  {
    if n == 0 then before else UsedAt(world, before, n - 1).Plus(world.meanwhile(n - 1).spend)
  }

  /** The totals once attempt `k` is recorded. */
  function UsedAt<H>(world: CellWorld<H>, before: Spend, k: nat): Spend
    decreases k, 1
  {
    UsedAfter(world, before, k).Plus(world.others(k).spend).Plus(SpendOf(world.worker(k)))
  }

  function AccountAfter<H>(world: CellWorld<H>, account: Budgets.Account, n: nat): Budgets.Account
    decreases n, 0
  {
    if n == 0 then account else Budgets.Recorded(AccountAt(world, account, n - 1), world.meanwhile(n - 1).spend)
  }

  function AccountAt<H>(world: CellWorld<H>, account: Budgets.Account, k: nat): Budgets.Account
    decreases k, 1
  {
    Budgets.Recorded(Budgets.Recorded(AccountAfter(world, account, k), world.others(k).spend),
                     SpendOf(world.worker(k)))
  }

  /** The totals and the authority, once attempt `k` of a cell that started from `before` and `account` is recorded. */
  ghost predicate CountedAt<H>(world: CellWorld<H>, k: nat, before: Spend, account: Budgets.Account, tally: Tally)
    reads tally
  {
    tally.used == UsedAt(world, before, k) && tally.account == AccountAt(world, account, k)
  }

  /** The same after the first `n` attempts and what other cells did after each. */
  ghost predicate Counted<H>(world: CellWorld<H>, n: nat, before: Spend, account: Budgets.Account, tally: Tally)
    reads tally
  {
    tally.used == UsedAfter(world, before, n) && tally.account == AccountAfter(world, account, n)
  }

  /** The totals only ever grow by what was gained. */
  lemma {:induction false} UsedIsGained<H>(world: CellWorld<H>, before: Spend, n: nat)
    ensures UsedAfter(world, before, n) == before.Plus(GainedBy(world, n))
  {
    if n == 0 {
      PlusAssociates(before, NO_SPEND, NO_SPEND);
    } else {
      UsedIsGained(world, before, n - 1);
      var gained, others := GainedBy(world, n - 1), world.others(n - 1).spend;
      var own := SpendOf(world.worker(n - 1));
      PlusAssociates(before, gained, others);
      PlusAssociates(before, gained.Plus(others), own);
      PlusAssociates(before, gained.Plus(others).Plus(own), world.meanwhile(n - 1).spend);
    }
  }

  /** One attempt: other cells go on meanwhile, and what the worker spent is recorded in both places. */
  method RunAttempt<H>(s: Setting<H>, attempt: nat, ghost account: Budgets.Account, retry: RetryPolicy, tally: Tally)
    returns (run: WorkerRun<H>)
    requires Counted(s.world, attempt, s.before, account, tally) && Foreign(s.world, s.job.cell)
    modifies retry, tally
    ensures run == s.world.worker(attempt) && CountedAt(s.world, attempt, s.before, account, tally)
    // What a failed attempt spent counts like that of a successful one; an attempt that raised has spent nothing known.
    ensures tally.used == old(tally.used).Plus(s.world.others(attempt).spend)
                            .Plus(match run case Result(_, _, spend, _) => spend case RaisedError => NO_SPEND)
    ensures OwnCountersStay(s, old(retry.seen), retry.seen)
  {
    OtherCells(s.world.others(attempt), s.config, s.job, retry, tally);
    run := s.world.worker(attempt);
    tally.Record(SpendOf(run));
  }

  /** What other cells do before the totals are read again. */
  method Meanwhile<H>(s: Setting<H>, attempt: nat, ghost account: Budgets.Account, retry: RetryPolicy, tally: Tally)
    requires CountedAt(s.world, attempt, s.before, account, tally) && Foreign(s.world, s.job.cell)
    modifies retry, tally
    ensures Counted(s.world, attempt + 1, s.before, account, tally)
    ensures OwnCountersStay(s, old(retry.seen), retry.seen)
  {
    OtherCells(s.world.meanwhile(attempt), s.config, s.job, retry, tally);
  }

  ghost predicate OwnCountersStay<H>(s: Setting<H>, seen: map<Signature, nat>, seen2: map<Signature, nat>) {
    && Rungs(s.config, s.job, seen2) == Rungs(s.config, s.job, seen)
    && forall sig: Signature :: sig.cell == s.job.cell ==> Seen(seen2, sig) == Seen(seen, sig)
  }

  /** Of the cell's own counters, that of one strategy has grown by a failure, or none has. */
  ghost predicate CountersAfter<H>(s: Setting<H>, profile: ProfileName, climbs: bool, seen: map<Signature, nat>,
                                   seen2: map<Signature, nat>)
  {
    forall other: Signature :: other.cell == s.job.cell ==>
      Seen(seen2, other) == Seen(seen, other) + if climbs && other == SignatureOf(s.job, profile) then 1 else 0
  }

  /** The action for a failure; other cells go on while it is recorded. */
  method Decide<H>(s: Setting<H>, attempt: nat, profile: ProfileName, failure: FailureType,
                   ghost account: Budgets.Account, retry: RetryPolicy, tally: Tally)
    returns (action: Action)
    requires profile in Names(s.config.profiles)
    requires CountedAt(s.world, attempt, s.before, account, tally) && Foreign(s.world, s.job.cell)
    modifies retry, tally
    ensures Counted(s.world, attempt + 1, s.before, account, tally)
    ensures action ==
      ActionFor(s.job.budget, failure, attempt, old(tally.used), Seen(old(retry.seen), SignatureOf(s.job, profile)))
    ensures CountersAfter(s, profile, Climbs(s.job.budget, failure, attempt), old(retry.seen), retry.seen)
    ensures Continues(action) ==> !failure.BudgetFailure? && !Capped(s.job.budget, attempt)
    ensures Continues(action) ==> Rungs(s.config, s.job, retry.seen) < Rungs(s.config, s.job, old(retry.seen))
  {
    action := ChooseAction(s.config, s.job, profile, failure, attempt, tally.used, retry);
    Meanwhile(s, attempt, account, retry, tally);
  }

  /** Recovery after a failed attempt: the action, what is recorded, and who runs next. */
  method Recover<H>(s: Setting<H>, attempt: nat, profile: ProfileName, kind: ErrorKind, ghost account: Budgets.Account,
                    retry: RetryPolicy, tally: Tally)
    returns (action: Action, next: Option<ProfileName>, events: seq<CellEvent>)
    requires profile in Names(s.config.profiles)
    requires CountedAt(s.world, attempt, s.before, account, tally) && Foreign(s.world, s.job.cell)
    modifies retry, tally
    ensures Counted(s.world, attempt + 1, s.before, account, tally)
    ensures action == ActionFor(s.job.budget, Classify(kind), attempt, old(tally.used),
                                Seen(old(retry.seen), SignatureOf(s.job, profile)))
    ensures CountersAfter(s, profile, Climbs(s.job.budget, Classify(kind), attempt), old(retry.seen), retry.seen)
    ensures Follows(s.config, s.job, profile, Classify(kind), action, tally.used, next)
    ensures NoTerminal(events) && events != [] && events[0] == RecoveryTransition(Classify(kind), action, attempt)
    ensures next.None? ==> events == [events[0]]
    ensures next.Some? ==>
      next.value in Names(s.config.profiles) && kind != BudgetError && !Capped(s.job.budget, attempt)
    ensures next.Some? ==> Rungs(s.config, s.job, retry.seen) < Rungs(s.config, s.job, old(retry.seen))
  {
    var failure := Classify(kind);
    action := Decide(s, attempt, profile, failure, account, retry, tally);
    var more;
    next, more := Proceed(s.config, s.job, profile, failure, action, attempt, tally.used);
    events := [RecoveryTransition(failure, action, attempt)] + more;
  }

  /** The state of the loop before an attempt, or the promise once the cell is over. */
  ghost predicate TurnState<H>(s: Setting<H>, end: Option<CellOutcome>, attempts: seq<Attempt<H>>, now: Attempt<H>,
                               seen: map<Signature, nat>, events: seq<CellEvent>) {
    match end
    case Some(outcome) => CellPromise(s, outcome, events, attempts)
    case None => LoopState(s, attempts, now, seen, events)
  }

  /** The counters only matter through the cell's own strategies. */
  lemma {:induction false} SameOwnCounters<H>(s: Setting<H>, attempts: seq<Attempt<H>>, now: Attempt<H>,
                                              seen: map<Signature, nat>, seen2: map<Signature, nat>,
                                              events: seq<CellEvent>)
    requires LoopState(s, attempts, now, seen, events)
    requires OwnCountersStay(s, seen, seen2)
    ensures LoopState(s, attempts, now, seen2, events)
  {
    forall profile
      ensures Seen(seen2, SignatureOf(s.job, profile)) ==
              Seen(s.seen, SignatureOf(s.job, profile)) + Climbed(s, attempts, |attempts|, profile)
    {
      assert Seen(seen2, SignatureOf(s.job, profile)) == Seen(seen, SignatureOf(s.job, profile));
    }
  }

  /** What was recovered stays so when the attempt that followed is over. */
  lemma {:induction false} RecoveredBefore<H>(s: Setting<H>, attempts: seq<Attempt<H>>, now: Attempt<H>,
                                              later: seq<Attempt<H>>, seen: map<Signature, nat>, events: seq<CellEvent>,
                                              more: seq<CellEvent>, k: nat)
    requires LoopState(s, attempts, now, seen, events) && k < |attempts|
    ensures RecoveredAt(s, attempts + [now], k, NextOf(attempts + [now] + later, k), events + more)
  {
    assert NextOf(attempts + [now] + later, k) == NextOf(attempts + [now], k);
    RecoveredStays(s, attempts, [now], k, NextOf(attempts + [now], k), events, more);
  }

  lemma {:induction false} RecoveredAll<H>(s: Setting<H>, attempts: seq<Attempt<H>>, now: Attempt<H>,
                                           seen: map<Signature, nat>, events: seq<CellEvent>, more: seq<CellEvent>)
    requires LoopState(s, attempts, now, seen, events)
    ensures Recovered(s, attempts + [now], |attempts|, attempts + [now], events + more)
  {
    assert attempts + [now] + [] == attempts + [now];
    forall k | 0 <= k < |attempts|
      ensures RecoveredAt(s, attempts + [now], k, NextOf(attempts + [now], k), events + more)
    {
      RecoveredBefore(s, attempts, now, [], seen, events, more, k);
    }
  }

  lemma {:induction false} EndsWell<H>(s: Setting<H>, attempts: seq<Attempt<H>>, now: Attempt<H>,
                                       seen: map<Signature, nat>, events: seq<CellEvent>)
    requires LoopState(s, attempts, now, seen, events) && Succeeds(s.world.worker(|attempts|))
    ensures CellPromise(s, Succeeded, events + [CellCompleted(GainedBy(s.world, |attempts| + 1))], attempts + [now])
  {
    var more := [CellCompleted(GainedBy(s.world, |attempts| + 1))];
    assert (events + more)[..|events + more| - 1] == events;
    RecoveredAll(s, attempts, now, seen, events, more);
    LoopKeeps(s, attempts, now, seen, events);
  }

  /** The recovery of the attempt that has just failed, against what the loop knew of the counters. */
  lemma {:induction false} RecoveredNow<H>(s: Setting<H>, attempts: seq<Attempt<H>>, now: Attempt<H>,
                                           seen: map<Signature, nat>, action: Action, next: Option<ProfileName>,
                                           events: seq<CellEvent>)
    requires Tracks(s, attempts, seen)
    requires var k := |attempts|;
             && action == ActionFor(s.job.budget, FailureAt(s, k), k, UsedAt(s.world, s.before, k),
                                    Seen(seen, SignatureOf(s.job, now.profile)))
             && Follows(s.config, s.job, now.profile, FailureAt(s, k), action,
                        UsedAfter(s.world, s.before, k + 1), next)
             && RecoveryTransition(FailureAt(s, k), action, k) in events
    ensures action == ActionOf(s, attempts + [now], |attempts|)
    ensures RecoveredAt(s, attempts + [now], |attempts|, next, events)
  {
    ClimbedPrefix(s, attempts, [now], |attempts|, now.profile);
  }

  lemma {:induction false} EndsBadly<H>(s: Setting<H>, attempts: seq<Attempt<H>>, now: Attempt<H>,
                                        seen: map<Signature, nat>, events: seq<CellEvent>, step: CellEvent,
                                        action: Action, kind: ErrorKind)
    requires LoopState(s, attempts, now, seen, events) && !Succeeds(s.world.worker(|attempts|))
    requires step == RecoveryTransition(FailureAt(s, |attempts|), action, |attempts|)
    requires action == ActionOf(s, attempts + [now], |attempts|)
    requires RecoveredAt(s, attempts + [now], |attempts|, None, [step])
    ensures CellPromise(s, EndedWith(if Abstains(action) then Abstained else FailedRun),
                        events + [step] + [CellFailed(Some(kind))], attempts + [now])
  {
    RecoveredToEnd(s, attempts, now, seen, events, step, [CellFailed(Some(kind))]);
    LoopKeeps(s, attempts, now, seen, events);
    FailurePromises(s, attempts + [now], events, action, kind);
  }

  lemma {:induction false} FailurePromises<H>(s: Setting<H>, attempts: seq<Attempt<H>>, events: seq<CellEvent>,
                                              action: Action, kind: ErrorKind)
    requires attempts != [] && AttemptsKeep(s, attempts) && NoTerminal(events)
    requires !Succeeds(s.world.worker(|attempts| - 1)) && action == ActionOf(s, attempts, |attempts| - 1)
    requires var step := RecoveryTransition(FailureAt(s, |attempts| - 1), action, |attempts| - 1);
             Recovered(s, attempts, |attempts|, attempts, events + [step] + [CellFailed(Some(kind))])
    ensures var step := RecoveryTransition(FailureAt(s, |attempts| - 1), action, |attempts| - 1);
            CellPromise(s, EndedWith(if Abstains(action) then Abstained else FailedRun),
                        events + [step] + [CellFailed(Some(kind))], attempts)
  {
    OneFailure(events, RecoveryTransition(FailureAt(s, |attempts| - 1), action, |attempts| - 1), kind);
  }

  lemma {:induction false} RecoveredToEnd<H>(s: Setting<H>, attempts: seq<Attempt<H>>, now: Attempt<H>,
                                             seen: map<Signature, nat>, events: seq<CellEvent>, step: CellEvent,
                                             last: seq<CellEvent>)
    requires LoopState(s, attempts, now, seen, events)
    requires RecoveredAt(s, attempts + [now], |attempts|, None, [step])
    ensures Recovered(s, attempts + [now], |attempts| + 1, attempts + [now], events + [step] + last)
  {
    assert events + [step] + last == events + ([step] + last);
    RecoveredAll(s, attempts, now, seen, events, [step] + last);
    assert step in events + [step] + last;
  }

  lemma {:induction false} OneFailure(events: seq<CellEvent>, step: CellEvent, kind: ErrorKind)
    requires NoTerminal(events) && step.RecoveryTransition?
    ensures var all := events + [step] + [CellFailed(Some(kind))];
            OneTerminal(all) && step in all && all[|all| - 2] == step && all[|all| - 1] == CellFailed(Some(kind))
  {
    var all := events + [step] + [CellFailed(Some(kind))];
    assert all[..|all| - 1] == events + [step] && all[|events|] == step;
  }

  lemma {:induction false} CountersStep<H>(s: Setting<H>, attempts: seq<Attempt<H>>, now: Attempt<H>,
                                           seen: map<Signature, nat>, seen2: map<Signature, nat>)
    requires Tracks(s, attempts, seen)
    requires CountersAfter(s, now.profile, Climbs(s.job.budget, FailureAt(s, |attempts|), |attempts|), seen, seen2)
    ensures Tracks(s, attempts + [now], seen2)
  {
    var all := attempts + [now];
    forall profile
      ensures Seen(seen2, SignatureOf(s.job, profile)) ==
              Seen(s.seen, SignatureOf(s.job, profile)) + Climbed(s, all, |all|, profile)
    {
      ClimbedPrefix(s, attempts, [now], |attempts|, profile);
      assert profile != now.profile ==> SignatureOf(s.job, profile) != SignatureOf(s.job, now.profile);
      assert Climbed(s, all, |attempts|, profile) == Climbed(s, attempts, |attempts|, profile);
    }
  }

  lemma {:induction false} GoesOn<H>(s: Setting<H>, attempts: seq<Attempt<H>>, now: Attempt<H>, next: Attempt<H>,
                                     seen: map<Signature, nat>, seen2: map<Signature, nat>, events: seq<CellEvent>,
                                     more: seq<CellEvent>)
    requires LoopState(s, attempts, now, seen, events) && Tracks(s, attempts + [now], seen2)
    requires CarriedFrom(s.world.worker(|attempts|), next.resume) && next.profile in Names(s.config.profiles) &&
      NoTerminal(more)
    requires s.job.budget.maxRetries == 0 || |attempts| < s.job.budget.maxRetries
    requires Rungs(s.config, s.job, seen2) < Rungs(s.config, s.job, seen)
    requires RecoveredAt(s, attempts + [now], |attempts|, Some(next.profile), more)
    ensures LoopState(s, attempts + [now], next, seen2, events + more)
  {
    CarryOn(s.world, s.checkpoint, attempts + [now], next);
    RecoveredOn(s, attempts, now, next, seen, events, more);
  }

  lemma {:induction false} RecoveredOn<H>(s: Setting<H>, attempts: seq<Attempt<H>>, now: Attempt<H>, next: Attempt<H>,
                                          seen: map<Signature, nat>, events: seq<CellEvent>, more: seq<CellEvent>)
    requires LoopState(s, attempts, now, seen, events)
    requires RecoveredAt(s, attempts + [now], |attempts|, Some(next.profile), more)
    ensures Recovered(s, attempts + [now], |attempts| + 1, attempts + [now] + [next], events + more)
  {
    forall k | 0 <= k <= |attempts|
      ensures RecoveredAt(s, attempts + [now], k, NextOf(attempts + [now] + [next], k), events + more)
    {
      if k < |attempts| {
        RecoveredBefore(s, attempts, now, [next], seen, events, more, k);
      }
    }
  }

  /** A failed attempt: the cell ends or goes on with another one. */
  method TakeFailure<H>(s: Setting<H>, attempt: nat, now: Attempt<H>, events: seq<CellEvent>,
                        ghost attempts: seq<Attempt<H>>, run: WorkerRun<H>, ghost account: Budgets.Account,
                        retry: RetryPolicy, tally: Tally)
    returns (end: Option<CellOutcome>, next: Attempt<H>, events2: seq<CellEvent>)
    requires attempt == |attempts| && run == s.world.worker(attempt) && !Succeeds(run)
    requires CountedAt(s.world, attempt, s.before, account, tally) && Foreign(s.world, s.job.cell)
    requires LoopState(s, attempts, now, retry.seen, events)
    modifies retry, tally
    ensures TurnState(s, end, attempts + [now], next, retry.seen, events2)
    ensures Counted(s.world, attempt + 1, s.before, account, tally)
    ensures end.None? ==> Rungs(s.config, s.job, retry.seen) < Rungs(s.config, s.job, old(retry.seen))
  {
    ghost var seen := retry.seen;
    var kind, carried := ProviderError, None;
    if run.Result? {
      kind, carried := run.kind, run.history;
      if s.job.budget.maxCalls != 0 && tally.used.calls >= s.job.budget.maxCalls {
        kind := BudgetError;
      }
    }
    assert Classify(kind) == FailureAt(s, attempt);
    var action, profile, more := Recover(s, attempt, now.profile, kind, account, retry, tally);
    RecoveredNow(s, attempts, now, seen, action, profile, more);
    CountersStep(s, attempts, now, seen, retry.seen);
    if profile.Some? {
      next := Attempt(profile.value, carried);
      GoesOn(s, attempts, now, next, seen, retry.seen, events, more);
      end, events2 := None, events + more;
    } else {
      EndsBadly(s, attempts, now, seen, events, more[0], action, kind);
      end := Some(EndedWith(if Abstains(action) then Abstained else FailedRun));
      next, events2 := now, events + more + [CellFailed(Some(kind))];
    }
  }

  /** A successful attempt completes the cell. */
  method TakeSuccess<H>(s: Setting<H>, now: Attempt<H>, events: seq<CellEvent>, ghost attempts: seq<Attempt<H>>,
                        ghost seen: map<Signature, nat>, used: Spend)
    returns (events2: seq<CellEvent>)
    requires LoopState(s, attempts, now, seen, events)
    requires Succeeds(s.world.worker(|attempts|)) && used == UsedAfter(s.world, s.before, |attempts| + 1)
    ensures CellPromise(s, Succeeded, events2, attempts + [now])
  {
    SinceIsGained(s.world, s.before, |attempts| + 1);
    EndsWell(s, attempts, now, seen, events);
    events2 := events + [CellCompleted(Since(used, s.before))];
  }

  /** Other cells go on until the completion is written. */
  method Complete<H>(s: Setting<H>, attempt: nat, now: Attempt<H>, ghost account: Budgets.Account,
                     events: seq<CellEvent>, ghost attempts: seq<Attempt<H>>, retry: RetryPolicy, tally: Tally)
    returns (events2: seq<CellEvent>)
    requires CountedAt(s.world, attempt, s.before, account, tally) && attempt == |attempts|
    requires Foreign(s.world, s.job.cell) && LoopState(s, attempts, now, retry.seen, events)
    requires Succeeds(s.world.worker(attempt))
    modifies retry, tally
    ensures CellPromise(s, Succeeded, events2, attempts + [now])
    ensures Counted(s.world, attempt + 1, s.before, account, tally)
  {
    ghost var seen := retry.seen;
    Meanwhile(s, attempt, account, retry, tally);
    events2 := TakeSuccess(s, now, events, attempts, seen, tally.used);
  }

  /** One pass of the loop; an outcome ends it. */
  method Turn<H>(s: Setting<H>, attempt: nat, now: Attempt<H>, ghost account: Budgets.Account, events: seq<CellEvent>,
                 ghost attempts: seq<Attempt<H>>, retry: RetryPolicy, tally: Tally)
    returns (end: Option<CellOutcome>, next: Attempt<H>, events2: seq<CellEvent>)
    requires Counted(s.world, attempt, s.before, account, tally) && attempt == |attempts|
    requires Foreign(s.world, s.job.cell) && LoopState(s, attempts, now, retry.seen, events)
    modifies retry, tally
    ensures TurnState(s, end, attempts + [now], next, retry.seen, events2)
    ensures Counted(s.world, attempt + 1, s.before, account, tally)
    ensures end.None? ==> Rungs(s.config, s.job, retry.seen) < Rungs(s.config, s.job, old(retry.seen))
  {
    ghost var seen := retry.seen;
    var run := RunAttempt(s, attempt, account, retry, tally);
    SameOwnCounters(s, attempts, now, seen, retry.seen, events);
    if run.Result? && run.ok {
      events2 := Complete(s, attempt, now, account, events, attempts, retry, tally);
      end, next := Some(Succeeded), now;
      return;
    }
    end, next, events2 := TakeFailure(s, attempt, now, events, attempts, run, account, retry, tally);
  }

  method RunAttempts<H>(s: Setting<H>, first: Attempt<H>, started: seq<CellEvent>, retry: RetryPolicy, tally: Tally)
    returns (outcome: CellOutcome, events: seq<CellEvent>, ghost attempts: seq<Attempt<H>>)
    requires Foreign(s.world, s.job.cell) && tally.used == s.before && LoopState(s, [], first, retry.seen, started)
    modifies retry, tally
    ensures attempts != [] && attempts[0] == first && CellPromise(s, outcome, events, attempts)
    ensures Counted(s.world, |attempts|, s.before, old(tally.account), tally)
  {
    ghost var account := tally.account;
    var now, attempt := first, 0;
    events, attempts := started, [];
    while true
      invariant attempt == |attempts| && Counted(s.world, attempt, s.before, account, tally)
      invariant LoopState(s, attempts, now, retry.seen, events)
      invariant (attempts + [now])[0] == first
      decreases Rungs(s.config, s.job, retry.seen)
    {
      var end, next;
      end, next, events := Turn(s, attempt, now, account, events, attempts, retry, tally);
      attempts := attempts + [now];
      if end.Some? {
        return end.value, events, attempts;
      }
      now, attempt := next, attempt + 1;
    }
  }

  /** Nothing can run the cell. */
  ghost predicate NoCandidate(config: Config, job: Job) {
    forall p :: p in config.profiles ==> !Candidate(config, job.need, job.required, None, {}, p)
  }

  /** The best of all profiles that can run the cell. */
  ghost predicate BestOf(config: Config, job: Job, first: ProfileName) {
    exists i: nat :: i < |config.profiles| && config.profiles[i].name == first &&
      FirstBest(config, job.need, job.required, None, {}, |config.profiles|, i)
  }

  lemma {:induction false} RoutingFails<H>(s: Setting<H>)
    ensures CellPromise(s, EndedWith(Abstained), [RouteSelected(None), CellFailed(None)], [])
  {
    var events := [RouteSelected(None), CellFailed(None)];
    assert events[..|events| - 1] == [RouteSelected(None)];
  }

  lemma {:induction false} StartsLoop<H>(s: Setting<H>, selected: ProfileName, events: seq<CellEvent>)
    requires selected in Names(s.config.profiles) && NoTerminal(events)
    ensures LoopState(s, [], Attempt(selected, s.checkpoint), s.seen, events)
  {
    RungsLeftAtMost(Names(s.config.profiles), s.seen, s.job.version, s.job.cell, s.job.need.mode);
  }

  method RunCell<H>(config: Config, job: Job, checkpoint: Option<H>, world: CellWorld<H>, retry: RetryPolicy,
                    tally: Tally)
    returns (outcome: CellOutcome, events: seq<CellEvent>, ghost attempts: seq<Attempt<H>>)
    requires Foreign(world, job.cell)
    modifies retry, tally
    ensures CellPromise(Setting(config, job, checkpoint, world, old(tally.used), old(retry.seen)), outcome, events,
      attempts)
    ensures attempts == [] <==> NoCandidate(config, job)
    ensures attempts == [] ==> outcome == EndedWith(Abstained)
    ensures attempts != [] ==> BestOf(config, job, attempts[0].profile) && attempts[0].resume == checkpoint
    ensures Counted(world, |attempts|, old(tally.used), old(tally.account), tally)
  {
    var s := Setting(config, job, checkpoint, world, tally.used, retry.seen);
    var selected := Route(config, job.need, None, {}, job.required);
    if selected.None? {
      RoutingFails(s);
      return EndedWith(Abstained), [RouteSelected(None), CellFailed(None)], [];
    }
    events := [RouteSelected(selected), CellStarted(selected.value)];
    StartsLoop(s, selected.value, events);
    outcome, events, attempts := RunAttempts(s, Attempt(selected.value, checkpoint), events, retry, tally);
  }

  /** When the authority and the totals agree before a cell, they agree after it, whatever ran beside it. */
  lemma {:induction false} AgreementKept<H>(world: CellWorld<H>, n: nat, before: Spend, tally: Tally, b: Budget)
    requires Counted(world, n, before, Budgets.Account(Budgets.AsTotals(before), []), tally)
    ensures tally.account == Budgets.Account(Budgets.AsTotals(tally.used), [])
    ensures Budgets.AuthorityRemaining(b, tally.account) == Remaining(b, tally.used)
  {
    AccountFollows(world, before, n);
    Budgets.SameHeadroom(b, tally.used);
  }

  lemma {:induction false} AccountFollows<H>(world: CellWorld<H>, before: Spend, n: nat)
    ensures AccountAfter(world, Budgets.Account(Budgets.AsTotals(before), []), n) ==
            Budgets.Account(Budgets.AsTotals(UsedAfter(world, before, n)), [])
  {
    if n > 0 {
      AccountFollows(world, before, n - 1);
      var used, others := UsedAfter(world, before, n - 1), world.others(n - 1).spend;
      RecordedFollows(used, others);
      RecordedFollows(used.Plus(others), SpendOf(world.worker(n - 1)));
      RecordedFollows(UsedAt(world, before, n - 1), world.meanwhile(n - 1).spend);
    }
  }

  lemma {:induction false} RecordedFollows(used: Spend, s: Spend)
    ensures Budgets.Recorded(Budgets.Account(Budgets.AsTotals(used), []), s) ==
      Budgets.Account(Budgets.AsTotals(used.Plus(s)), [])
  {
    assert Budgets.AsTotals(used).Plus(s) == Budgets.AsTotals(used.Plus(s));
  }
}
