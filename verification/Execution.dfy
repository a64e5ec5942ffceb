/** Running the cells of a graph in rounds: the loop of `_execute_cells` and when it succeeds. */
module Execution {
  import opened Domain
  import opened Scheduling
  import opened RoundBound
  import V = Validation

  // What the world may do to a run.

  /** How one cell run ends: with success, with an outcome for the whole run, by raising, or cancelled. */
  datatype CellEnd = Done | Short(outcome: ShortOutcome) | Raised | Cancelled

  datatype CellRun = CellRun(end: CellEnd, spend: Spend)

  /**
   * When the stall watchdog interrupts: never, before its cells start, or while they run.
   * `recorded` is what the interrupted cells had spent by then.
   */
  datatype Stall = Steady | BeforeStart | Midway(recorded: Spend)

  /**
   * What happens outside the loop. A cell runs at most once in a call, so its end depends only on its id.
   * `appendFails` says that recording a stall or an exhausted budget raises.
   */
  datatype World = World(
    run: Id -> CellRun,
    readersStall: nat -> Stall,
    writerStall: nat -> Stall,
    appendFails: bool)

  /** `Reraised` is a cancellation: it goes through, past the handlers of errors. */
  datatype ExecResult = Returned(outcome: Option<ShortOutcome>) | Crashed | Reraised

  /** True once a limited axis has no headroom left. */
  predicate BudgetExhausted(remaining: RemainingBudget) {
    || (remaining.tokens.Some? && remaining.tokens.value <= 0)
    || (remaining.cost.Some? && remaining.cost.value <= 0.000000001)
  }

  /** Results other than an exception or an outcome count as completed; a cancelled reader is such a result. */
  predicate Counts(c: Cell, end: CellEnd) {
    end.Done? || (end.Cancelled? && c.mode.ReadOnly?)
  }

  ghost predicate DependencyClosed(cells: seq<Cell>, done: set<Id>) {
    forall c, d :: c in cells && c.id in done && d in c.dependencies ==> d in done
  }

  // The loop, step by step.

  /** Where the loop stands. `ran` are the cells that have ended, in scheduling order. */
  datatype Position = Position(done: set<Id>, failed: set<Id>, spent: Spend, ran: seq<Cell>)

  /** A step either ends the call or leads on. */
  datatype Pass = Stop(result: ExecResult, spent: Spend, ran: seq<Cell>) | Go(at: Position)

  datatype Finish = Finish(result: ExecResult, completed: set<Id>, spent: Spend, ran: seq<Cell>)

  /** What a list of cells spends altogether. */
  function TotalSpend(cells: seq<Cell>, run: Id -> CellRun): Spend {
    if cells == [] then NO_SPEND else TotalSpend(cells[..|cells| - 1], run).Plus(run(cells[|cells| - 1].id).spend)
  }

  /** Recording why the run abstains may itself raise. */
  function AbstainAfterAppend(world: World): ExecResult {
    if world.appendFails then Crashed else Returned(Some(Abstained))
  }

  function CheckBudget(world: World, limits: Budget, p: Position): Pass {
    if BudgetExhausted(Remaining(limits, p.spent)) then Stop(AbstainAfterAppend(world), p.spent, p.ran) else Go(p)
  }

  /** The first outcome in graph order. */
  function FirstShort(cells: seq<Cell>, run: Id -> CellRun): Option<ShortOutcome> {
    if cells == [] then None
    else
      var front := FirstShort(cells[..|cells| - 1], run);
      if front.Some? then front
      else match run(cells[|cells| - 1].id).end case Short(o) => Some(o) case _ => None
  }

  function CountedReaderIds(readers: seq<Cell>, run: Id -> CellRun): set<Id> {
    set c | c in readers && (run(c.id).end.Done? || run(c.id).end.Cancelled?) :: c.id
  }

  function RaisedIds(cells: seq<Cell>, run: Id -> CellRun): set<Id> {
    set c | c in cells && run(c.id).end.Raised? :: c.id
  }

  /** The readers of a round run together; their results are read in graph order. */
  function ReadersPass(readers: seq<Cell>, world: World, round: nat, limits: Budget, p: Position): Pass {
    if readers == [] then Go(p)
    else
      match world.readersStall(round)
      case BeforeStart => Stop(AbstainAfterAppend(world), p.spent, p.ran)
      case Midway(recorded) => Stop(AbstainAfterAppend(world), p.spent.Plus(recorded), p.ran)
      case Steady =>
        var spent, ran := p.spent.Plus(TotalSpend(readers, world.run)), p.ran + readers;
        var short := FirstShort(readers, world.run);
        if short.Some? then Stop(Returned(short), spent, ran)
        else
          CheckBudget(world, limits, Position(p.done + CountedReaderIds(readers, world.run),
                                              p.failed + RaisedIds(readers, world.run), spent, ran))
  }

  /** A writer runs alone; what it raises ends the call. */
  function WriterPass(w: Cell, world: World, round: nat, limits: Budget, p: Position): Pass {
    match world.writerStall(round)
    case BeforeStart => Stop(AbstainAfterAppend(world), p.spent, p.ran)
    case Midway(recorded) => Stop(AbstainAfterAppend(world), p.spent.Plus(recorded), p.ran)
    case Steady =>
      var spent, ran := p.spent.Plus(world.run(w.id).spend), p.ran + [w];
      match world.run(w.id).end
      case Raised => Stop(Crashed, spent, ran)
      case Cancelled => Stop(Reraised, spent, ran)
      case Short(o) => Stop(Returned(Some(o)), spent, ran)
      case Done => CheckBudget(world, limits, Position(p.done + {w.id}, p.failed, spent, ran))
  }

  function WritersPass(writers: seq<Cell>, world: World, round: nat, limits: Budget, p: Position): Pass {
    if writers == [] then Go(p)
    else
      match WriterPass(writers[0], world, round, limits, p)
      case Stop(result, spent, ran) => Stop(result, spent, ran)
      case Go(q) => WritersPass(writers[1..], world, round, limits, q)
  }

  function ByMode(cells: seq<Cell>, mode: CellMode): (s: seq<Cell>)
    ensures forall c :: c in s <==> c in cells && c.mode == mode
  {
    if cells == [] then []
    else
      assert cells == cells[..|cells| - 1] + [cells[|cells| - 1]];
      ByMode(cells[..|cells| - 1], mode) + if cells[|cells| - 1].mode == mode then [cells[|cells| - 1]] else []
  }

  function RoundPass(ready: seq<Cell>, world: World, round: nat, limits: Budget, p: Position): Pass {
    match ReadersPass(ByMode(ready, ReadOnly), world, round, limits, p)
    case Stop(result, spent, ran) => Stop(result, spent, ran)
    case Go(q) => WritersPass(ByMode(ready, Mutating), world, round, limits, q)
  }

  /** The rounds that are left, from a position. */
  function Rounds(cells: seq<Cell>, world: World, limits: Budget, round: nat, rounds: nat, p: Position): Finish
    decreases rounds - round
  {
    if round >= rounds then
      Finish(Returned(if |p.done| != |cells| then Some(FailedRun) else None), p.done, p.spent, p.ran)
    else
      var ready := ReadyList(cells, p.done, p.failed, true);
      if ready == [] then
        Finish(Returned(if p.failed == {} && |p.done| == |cells| then None else Some(FailedRun)), p.done, p.spent,
          p.ran)
      else
        match RoundPass(ready, world, round, limits, p)
        case Stop(result, spent, ran) => Finish(result, p.done, spent, ran)
        case Go(q) => Rounds(cells, world, limits, round + 1, rounds, q)
  }

  function Opening(init: set<Id>, committed: Spend): Position { Position(init, {}, committed, []) }

  /** A whole call. `init` are the cells that a resumed run takes as completed. */
  function Call(cells: seq<Cell>, limits: Budget, committed: Spend, maxWaves: nat, init: set<Id>, world: World): Finish
  {
    Rounds(cells, world, limits, 0, maxWaves + 1, Opening(init, committed))
  }

  /** Reads the results in graph order: the first outcome found ends the run. */
  method TakeResults(readers: seq<Cell>, run: Id -> CellRun, done: set<Id>, failed: set<Id>)
    returns (short: Option<ShortOutcome>, done2: set<Id>, failed2: set<Id>)
    ensures short == FirstShort(readers, run)
    ensures short.None? ==>
      done2 == done + CountedReaderIds(readers, run) && failed2 == failed + RaisedIds(readers, run)
  {
    done2, failed2 := done, failed;
    for k := 0 to |readers|
      invariant done2 == done + CountedReaderIds(readers[..k], run)
      invariant failed2 == failed + RaisedIds(readers[..k], run)
      invariant FirstShort(readers[..k], run).None?
    {
      var c := readers[k];
      assert readers[..k + 1] == readers[..k] + [c];
      match run(c.id).end
      case Raised =>
        failed2 := failed2 + {c.id};
      case Short(o) =>
        FirstShortStays(readers, run, k + 1);
        return Some(o), done2, failed2;
      case _ =>
        done2 := done2 + {c.id};
    }
    assert readers[..|readers|] == readers;
    short := None;
  }

  lemma {:induction false} FirstShortStays(cells: seq<Cell>, run: Id -> CellRun, k: nat)
    requires k <= |cells| && FirstShort(cells[..k], run).Some?
    ensures FirstShort(cells, run) == FirstShort(cells[..k], run)
  {
    if k < |cells| {
      assert cells[..|cells| - 1][..k] == cells[..k];
      FirstShortStays(cells[..|cells| - 1], run, k);
    } else {
      assert cells[..k] == cells;
    }
  }

  method RunReaders(readers: seq<Cell>, world: World, round: nat, limits: Budget, p: Position) returns (pass: Pass)
    requires readers != []
    ensures pass == ReadersPass(readers, world, round, limits, p)
  {
    match world.readersStall(round)
    case BeforeStart =>
      return Stop(AbstainAfterAppend(world), p.spent, p.ran);
    case Midway(recorded) =>
      return Stop(AbstainAfterAppend(world), p.spent.Plus(recorded), p.ran);
    case Steady =>
    var spent := p.spent.Plus(TotalSpend(readers, world.run));
    var short, done, failed := TakeResults(readers, world.run, p.done, p.failed);
    if short.Some? {
      return Stop(Returned(short), spent, p.ran + readers);
    }
    if BudgetExhausted(Remaining(limits, spent)) {
      return Stop(AbstainAfterAppend(world), spent, p.ran + readers);
    }
    pass := Go(Position(done, failed, spent, p.ran + readers));
  }

  method RunWriter(w: Cell, world: World, round: nat, limits: Budget, p: Position) returns (pass: Pass)
    ensures pass == WriterPass(w, world, round, limits, p)
  {
    match world.writerStall(round)
    case BeforeStart =>
      return Stop(AbstainAfterAppend(world), p.spent, p.ran);
    case Midway(recorded) =>
      return Stop(AbstainAfterAppend(world), p.spent.Plus(recorded), p.ran);
    case Steady =>
    var ended := world.run(w.id);
    var spent, ran := p.spent.Plus(ended.spend), p.ran + [w];
    match ended.end
    case Raised =>
      pass := Stop(Crashed, spent, ran);
    case Cancelled =>
      pass := Stop(Reraised, spent, ran);
    case Short(o) =>
      pass := Stop(Returned(Some(o)), spent, ran);
    case Done =>
      if BudgetExhausted(Remaining(limits, spent)) {
        return Stop(AbstainAfterAppend(world), spent, ran);
      }
      pass := Go(Position(p.done + {w.id}, p.failed, spent, ran));
  }

  method RunRound(ready: seq<Cell>, world: World, round: nat, limits: Budget, p: Position) returns (pass: Pass)
    ensures pass == RoundPass(ready, world, round, limits, p)
  {
    var readers, writers := ByMode(ready, ReadOnly), ByMode(ready, Mutating);
    pass := Go(p);
    if readers != [] {
      pass := RunReaders(readers, world, round, limits, p);
      if pass.Stop? {
        return;
      }
    }
    for k := 0 to |writers|
      invariant pass.Go?
      invariant WritersPass(writers[k..], world, round, limits, pass.at) == RoundPass(ready, world, round, limits, p)
    {
      pass := RunWriter(writers[k], world, round, limits, pass.at);
      assert writers[k..][0] == writers[k] && writers[k..][1..] == writers[k + 1..];
      if pass.Stop? {
        return;
      }
    }
  }

  method ExecuteCells(cells: seq<Cell>, limits: Budget, committed: Spend, maxWaves: nat, init: set<Id>, world: World)
    returns (finish: Finish)
    ensures finish == Call(cells, limits, committed, maxWaves, init, world)
  {
    var p := Opening(init, committed);
    for round := 0 to maxWaves + 1
      invariant Rounds(cells, world, limits, round, maxWaves + 1, p) ==
                Call(cells, limits, committed, maxWaves, init, world)
    {
      var ready := ReadyCells(cells, Some(p.done), Some(p.failed));
      if ready == [] {
        var result := if p.failed == {} && |p.done| == |cells| then Returned(None) else Returned(Some(FailedRun));
        return Finish(result, p.done, p.spent, p.ran);
      }
      var pass := RunRound(ready, world, round, limits, p);
      match pass
      case Stop(result, spent, ran) =>
        return Finish(result, p.done, spent, ran);
      case Go(q) =>
        p := q;
    }
    finish := Finish(Returned(if |p.done| != |cells| then Some(FailedRun) else None), p.done, p.spent, p.ran);
  }
}
