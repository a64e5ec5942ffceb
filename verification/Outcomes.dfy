/** What a call of the round loop returns, told from the graph and the world: every way it can end, and its result. */
module Outcomes {
  import opened Domain
  import opened Scheduling
  import opened RoundBound
  import opened Execution
  import opened Completion

  // How a round ends a call.

  /** `Told` is an outcome of a cell's own; `SpentUp` is a budget without headroom once cells have run. */
  datatype Cause = Stalled | Told(who: Cell) | WriterRaised(who: Cell) | WriterCancelled(who: Cell) | SpentUp

  ghost predicate SpentAfter(limits: Budget, spent: Spend, cells: seq<Cell>, run: Id -> CellRun) {
    BudgetExhausted(Remaining(limits, spent.Plus(TotalSpend(cells, run))))
  }

  /** The first cell in graph order that ends with an outcome for the whole run. */
  ghost predicate TellsFirst(cells: seq<Cell>, run: Id -> CellRun, who: Cell) {
    exists k :: 0 <= k < |cells| && cells[k] == who && run(who.id).end.Short? &&
      forall j :: 0 <= j < k ==> !run(cells[j].id).end.Short?
  }

  ghost predicate NobodyTells(cells: seq<Cell>, run: Id -> CellRun) {
    forall c :: c in cells ==> !run(c.id).end.Short?
  }

  ghost predicate ReadersEnd(readers: seq<Cell>, world: World, round: nat, limits: Budget, p: Position, cause: Cause) {
    match cause
    case Stalled => !world.readersStall(round).Steady?
    case Told(who) => world.readersStall(round).Steady? && TellsFirst(readers, world.run, who)
    case SpentUp =>
      world.readersStall(round).Steady? && NobodyTells(readers, world.run) &&
      SpentAfter(limits, p.spent, readers, world.run)
    case _ => false
  }

  ghost predicate ReadersLetOn(readers: seq<Cell>, world: World, round: nat, limits: Budget, p: Position) {
    readers != [] ==>
      && world.readersStall(round).Steady? && NobodyTells(readers, world.run)
      && !SpentAfter(limits, p.spent, readers, world.run)
  }

  ghost predicate WriterEnds(readers: seq<Cell>, w: Cell, world: World, round: nat, limits: Budget, p: Position,
                             cause: Cause)
  {
    && (cause.Stalled? <==> !world.writerStall(round).Steady?)
    && match cause
       case Stalled => true
       case Told(who) => who == w && world.run(w.id).end.Short?
       case WriterRaised(who) => who == w && world.run(w.id).end.Raised?
       case WriterCancelled(who) => who == w && world.run(w.id).end.Cancelled?
       case SpentUp => world.run(w.id).end.Done? && SpentAfter(limits, p.spent, readers + [w], world.run)
  }

  /** The readers of a round come before its writer. */
  ghost predicate RoundEnds(ready: seq<Cell>, world: World, round: nat, limits: Budget, p: Position, cause: Cause) {
    var readers, writers := ByMode(ready, ReadOnly), ByMode(ready, Mutating);
    || (readers != [] && ReadersEnd(readers, world, round, limits, p, cause))
    || (ReadersLetOn(readers, world, round, limits, p) && writers != [] &&
        WriterEnds(readers, writers[0], world, round, limits, p, cause))
  }

  // What the call then returns.

  /** A stall or a spent budget abstains, a cell's outcome is the run's, what a writer raises goes through. */
  ghost predicate ResultBy(cause: Cause, world: World, result: ExecResult) {
    match cause
    case Stalled => result == if world.appendFails then Crashed else Returned(Some(Abstained))
    case SpentUp => result == if world.appendFails then Crashed else Returned(Some(Abstained))
    case Told(who) => world.run(who.id).end.Short? && result == Returned(Some(world.run(who.id).end.outcome))
    case WriterRaised(_) => result == Crashed
    case WriterCancelled(_) => result == Reraised
  }

  function Recorded(stall: Stall): Spend { if stall.Midway? then stall.recorded else NO_SPEND }

  /** Cells that ended are accounted for, interrupted ones as far as they were recorded. */
  ghost predicate AccountedBy(ready: seq<Cell>, world: World, round: nat, limits: Budget, p: Position, cause: Cause,
                              spent: Spend, ran: seq<Cell>)
  {
    var readers, writers := ByMode(ready, ReadOnly), ByMode(ready, Mutating);
    if ReadersLetOn(readers, world, round, limits, p) then
      writers != [] &&
      if cause.Stalled? then
        spent == p.spent.Plus(TotalSpend(readers, world.run)).Plus(Recorded(world.writerStall(round))) &&
        ran == p.ran + readers
      else
        spent == p.spent.Plus(TotalSpend(readers + [writers[0]], world.run)) && ran == p.ran + readers + [writers[0]]
    else if cause.Stalled? then
      spent == p.spent.Plus(Recorded(world.readersStall(round))) && ran == p.ran
    else
      spent == p.spent.Plus(TotalSpend(readers, world.run)) && ran == p.ran + readers
  }

  lemma {:induction false} TellerIsFirstShort(cells: seq<Cell>, run: Id -> CellRun, who: Cell)
    requires TellsFirst(cells, run, who)
    ensures FirstShort(cells, run) == Some(run(who.id).end.outcome)
  {
    var k :| 0 <= k < |cells| && cells[k] == who && run(who.id).end.Short? &&
      forall j :: 0 <= j < k ==> !run(cells[j].id).end.Short?;
    var upto := cells[..k + 1];
    assert upto[..|upto| - 1] == cells[..k];
    forall c | c in cells[..k] ensures !run(c.id).end.Short? {
    }
    ShortIff(cells[..k], run);
    FirstShortStays(cells, run, k + 1);
  }

  lemma {:induction false} SomebodyTells(cells: seq<Cell>, run: Id -> CellRun) returns (who: Cell)
    requires !NobodyTells(cells, run)
    ensures TellsFirst(cells, run, who)
  {
    var n := |cells| - 1;
    if !NobodyTells(cells[..n], run) {
      who := SomebodyTells(cells[..n], run);
      var k :| 0 <= k < n && cells[..n][k] == who && forall j :: 0 <= j < k ==> !run(cells[..n][j].id).end.Short?;
      assert cells[k] == who && forall j :: 0 <= j < k ==> cells[j] == cells[..n][j];
    } else {
      who := cells[n];
      assert cells == cells[..n] + [who];
      forall j | 0 <= j < n ensures !run(cells[j].id).end.Short? {
        assert cells[..n][j] == cells[j];
      }
    }
  }

  lemma {:induction false} ReadersDecide(readers: seq<Cell>, world: World, round: nat, limits: Budget, p: Position,
                                         cause: Cause)
    requires readers != [] && ReadersEnd(readers, world, round, limits, p, cause)
    ensures var pass := ReadersPass(readers, world, round, limits, p);
            && pass.Stop? && ResultBy(cause, world, pass.result)
            && (if cause.Stalled? then
                  pass.spent == p.spent.Plus(Recorded(world.readersStall(round))) && pass.ran == p.ran
                else pass.spent == p.spent.Plus(TotalSpend(readers, world.run)) && pass.ran == p.ran + readers)
    ensures !ReadersLetOn(readers, world, round, limits, p)
  {
    ShortIff(readers, world.run);
    PlusAssociates(p.spent, NO_SPEND, NO_SPEND);
    if cause.Told? {
      TellerIsFirstShort(readers, world.run, cause.who);
    }
  }

  lemma {:induction false} WriterDecides(readers: seq<Cell>, w: Cell, world: World, round: nat, limits: Budget,
                                         p: Position, q: Position, cause: Cause)
    requires q.spent == p.spent.Plus(TotalSpend(readers, world.run)) && q.ran == p.ran + readers
    requires WriterEnds(readers, w, world, round, limits, p, cause)
    ensures var pass := WritersPass([w], world, round, limits, q);
            && pass.Stop? && ResultBy(cause, world, pass.result)
            && (if cause.Stalled? then
                  pass.spent == q.spent.Plus(Recorded(world.writerStall(round))) && pass.ran == q.ran
                else
                  pass.spent == p.spent.Plus(TotalSpend(readers + [w], world.run)) && pass.ran == p.ran + readers + [w])
  {
    assert [w][1..] == [];
    PlusAssociates(q.spent, NO_SPEND, NO_SPEND);
    WriterAdds(readers, w, world.run, p);
  }

  /** A cause decides what the round does. */
  lemma {:induction false} CauseDecides(ready: seq<Cell>, world: World, round: nat, limits: Budget, p: Position,
                                        cause: Cause)
    requires WritersAtMostOne(ready) && RoundEnds(ready, world, round, limits, p, cause)
    ensures var pass := RoundPass(ready, world, round, limits, p);
            && pass.Stop? && ResultBy(cause, world, pass.result)
            && AccountedBy(ready, world, round, limits, p, cause, pass.spent, pass.ran)
  {
    var readers, writers := ByMode(ready, ReadOnly), ByMode(ready, Mutating);
    if readers != [] && ReadersEnd(readers, world, round, limits, p, cause) {
      ReadersDecide(readers, world, round, limits, p, cause);
    } else {
      OneWriter(ready);
      assert writers == [writers[0]];
      var q := ReadersLead(readers, world, round, limits, p);
      WriterDecides(readers, writers[0], world, round, limits, p, q, cause);
    }
  }

  lemma {:induction false} ReadersLead(readers: seq<Cell>, world: World, round: nat, limits: Budget, p: Position)
    returns (q: Position)
    requires ReadersLetOn(readers, world, round, limits, p)
    ensures ReadersPass(readers, world, round, limits, p) == Go(q)
    ensures q.spent == p.spent.Plus(TotalSpend(readers, world.run)) && q.ran == p.ran + readers
  {
    ShortIff(readers, world.run);
    PlusAssociates(p.spent, NO_SPEND, NO_SPEND);
    assert p.ran + [] == p.ran;
    q := ReadersPass(readers, world, round, limits, p).at;
  }

  /** Whatever stops a round has a cause. */
  lemma {:induction false} StopHasCause(ready: seq<Cell>, world: World, round: nat, limits: Budget, p: Position)
    returns (cause: Cause)
    requires WritersAtMostOne(ready) && RoundPass(ready, world, round, limits, p).Stop?
    ensures RoundEnds(ready, world, round, limits, p, cause)
  {
    var readers, writers := ByMode(ready, ReadOnly), ByMode(ready, Mutating);
    if ReadersPass(readers, world, round, limits, p).Stop? {
      cause := ReadersCause(readers, world, round, limits, p);
    } else {
      ReadersGoLetsOn(readers, world, round, limits, p);
      OneWriter(ready);
      assert writers == [writers[0]];
      var q := ReadersLead(readers, world, round, limits, p);
      cause := WriterCause(readers, writers[0], world, round, limits, p, q);
    }
  }

  lemma {:induction false} ReadersGoLetsOn(readers: seq<Cell>, world: World, round: nat, limits: Budget, p: Position)
    requires ReadersPass(readers, world, round, limits, p).Go?
    ensures ReadersLetOn(readers, world, round, limits, p)
  {
    ShortIff(readers, world.run);
  }

  lemma {:induction false} ReadersCause(readers: seq<Cell>, world: World, round: nat, limits: Budget, p: Position)
    returns (cause: Cause)
    requires ReadersPass(readers, world, round, limits, p).Stop?
    ensures readers != [] && ReadersEnd(readers, world, round, limits, p, cause)
  {
    if !world.readersStall(round).Steady? {
      cause := Stalled;
    } else if !NobodyTells(readers, world.run) {
      var who := SomebodyTells(readers, world.run);
      cause := Told(who);
    } else {
      ShortIff(readers, world.run);
      cause := SpentUp;
    }
  }

  lemma {:induction false} WriterCause(readers: seq<Cell>, w: Cell, world: World, round: nat, limits: Budget,
                                       p: Position, q: Position) returns (cause: Cause)
    requires q.spent == p.spent.Plus(TotalSpend(readers, world.run)) && WritersPass([w], world, round, limits, q).Stop?
    ensures WriterEnds(readers, w, world, round, limits, p, cause)
  {
    assert [w][1..] == [];
    WriterAdds(readers, w, world.run, p);
    if !world.writerStall(round).Steady? {
      cause := Stalled;
    } else {
      match world.run(w.id).end
      case Raised => cause := WriterRaised(w);
      case Cancelled => cause := WriterCancelled(w);
      case Short(_) => cause := Told(w);
      case Done => cause := SpentUp;
    }
  }

  /** A round that leads on has no cause to end. */
  lemma {:induction false} GoingOnHasNoCause(ready: seq<Cell>, world: World, round: nat, limits: Budget, p: Position,
                                             q: Position, cause: Cause)
    requires WritersAtMostOne(ready) && RoundGoesOn(ready, world, round, limits, p, q)
    ensures !RoundEnds(ready, world, round, limits, p, cause)
  {
    var readers, writers := ByMode(ready, ReadOnly), ByMode(ready, Mutating);
    EnoughAfterReaders(readers, writers, world.run, limits, p.spent);
    ReadersHaveNoCause(readers, world, round, limits, p, cause);
    if writers != [] {
      OneWriter(ready);
      assert writers == [writers[0]] && writers[0] in writers;
      WriterGoesOn(readers, writers[0], world, round, limits, p, cause);
    }
  }

  lemma {:induction false} ReadersHaveNoCause(readers: seq<Cell>, world: World, round: nat, limits: Budget,
                                              p: Position, cause: Cause)
    requires readers != [] ==> world.readersStall(round).Steady?
    requires forall c :: c in readers ==> Counts(c, world.run(c.id).end) || world.run(c.id).end.Raised?
    requires !SpentAfter(limits, p.spent, readers, world.run)
    ensures readers != [] ==> !ReadersEnd(readers, world, round, limits, p, cause)
  {
    assert NobodyTells(readers, world.run);
  }

  lemma {:induction false} EnoughAfterReaders(readers: seq<Cell>, writers: seq<Cell>, run: Id -> CellRun,
                                              limits: Budget, spent: Spend)
    requires !SpentAfter(limits, spent, readers + writers, run)
    ensures !SpentAfter(limits, spent, readers, run)
  {
    TotalSpendAppend(readers, writers, run);
    PlusAssociates(spent, TotalSpend(readers, run), TotalSpend(writers, run));
    MoreIsStillSpent(limits, spent.Plus(TotalSpend(readers, run)), TotalSpend(writers, run));
  }

  lemma {:induction false} WriterGoesOn(readers: seq<Cell>, w: Cell, world: World, round: nat, limits: Budget,
                                        p: Position, cause: Cause)
    requires world.writerStall(round).Steady? && w.mode.Mutating? && Counts(w, world.run(w.id).end)
    requires !SpentAfter(limits, p.spent, readers + [w], world.run)
    ensures !WriterEnds(readers, w, world, round, limits, p, cause)
  {
  }

  lemma {:induction false} MoreIsStillSpent(limits: Budget, spent: Spend, more: Spend)
    ensures BudgetExhausted(Remaining(limits, spent)) ==> BudgetExhausted(Remaining(limits, spent.Plus(more)))
  {
  }

  // Whole calls.

  /** One round leads on from one position to the next. */
  ghost predicate LeadsOn(cells: seq<Cell>, world: World, limits: Budget, round: nat, p: Position, q: Position) {
    var ready := ReadyList(cells, p.done, p.failed, true);
    ready != [] && RoundGoesOn(ready, world, round, limits, p, q)
  }

  /** The positions before each round, from the first one on. */
  ghost predicate Path(cells: seq<Cell>, world: World, limits: Budget, path: seq<Position>) {
    path != [] && forall k: nat :: k + 1 < |path| ==> LeadsOn(cells, world, limits, k, path[k], path[k + 1])
  }

  /** No round is left, or no cell is ready. */
  ghost predicate NothingToDo(cells: seq<Cell>, round: nat, maxWaves: nat, p: Position) {
    round == maxWaves + 1 || ReadyList(cells, p.done, p.failed, true) == []
  }

  /** How a call ends: by a cause in some round, or because nothing is left to do. */
  ghost predicate EndsBy(cells: seq<Cell>, world: World, limits: Budget, maxWaves: nat, path: seq<Position>,
                         cause: Option<Cause>)
    requires path != []
  {
    var round, p := |path| - 1, path[|path| - 1];
    if cause.None? then NothingToDo(cells, round, maxWaves, p)
    else
      !NothingToDo(cells, round, maxWaves, p) &&
      RoundEnds(ReadyList(cells, p.done, p.failed, true), world, round, limits, p, cause.value)
  }

  /** What a call that ends so leaves behind. */
  ghost predicate LeavesBehind(cells: seq<Cell>, world: World, limits: Budget, path: seq<Position>,
                               cause: Option<Cause>, f: Finish)
    requires path != []
  {
    var round, p := |path| - 1, path[|path| - 1];
    && f.completed == p.done
    && if cause.None? then
         && f.spent == p.spent && f.ran == p.ran
         && f.result == if p.done == IdSet(cells) then Returned(None) else Returned(Some(FailedRun))
       else
         && ResultBy(cause.value, world, f.result)
         && AccountedBy(ReadyList(cells, p.done, p.failed, true), world, round, limits, p, cause.value, f.spent, f.ran)
  }

  lemma {:induction false} GoesOnTo(ready: seq<Cell>, world: World, round: nat, limits: Budget, p: Position,
                                    q: Position)
    requires ready != [] && UniqueIds(ready) && WritersAtMostOne(ready)
    requires RoundGoesOn(ready, world, round, limits, p, q)
    ensures RoundPass(ready, world, round, limits, p) == Go(q)
  {
    if RoundPass(ready, world, round, limits, p).Stop? {
      var cause := StopHasCause(ready, world, round, limits, p);
      GoingOnHasNoCause(ready, world, round, limits, p, q, cause);
    } else {
      RoundGoes(ready, world, round, limits, p);
    }
  }

  lemma {:induction false} AlongPath(cells: seq<Cell>, world: World, limits: Budget, maxWaves: nat,
                                     path: seq<Position>, k: nat)
    requires UniqueIds(cells) && Path(cells, world, limits, path) && k < |path| <= maxWaves + 2
    ensures Rounds(cells, world, limits, k, maxWaves + 1, path[k]) ==
            Rounds(cells, world, limits, 0, maxWaves + 1, path[0])
  {
    if k > 0 {
      AlongPath(cells, world, limits, maxWaves, path, k - 1);
      var p := path[k - 1];
      assert LeadsOn(cells, world, limits, k - 1, p, path[k - 1 + 1]);
      ReadyFacts(cells, p.done, p.failed);
      GoesOnTo(ReadyList(cells, p.done, p.failed, true), world, k - 1, limits, p, path[k]);
    }
  }

  lemma {:induction false} PathKeeps(cells: seq<Cell>, world: World, limits: Budget, committed: Spend, init: set<Id>,
                                     path: seq<Position>, k: nat)
    requires UniqueIds(cells) && init <= IdSet(cells) && Path(cells, world, limits, path) && k < |path|
    requires path[0] == Position(init, {}, committed, [])
    ensures Kept(cells, init, world.run, limits, committed, path[k])
  {
    if k == 0 {
      OpeningIsKept(cells, init, world.run, limits, committed);
    } else {
      PathKeeps(cells, world, limits, committed, init, path, k - 1);
      assert LeadsOn(cells, world, limits, k - 1, path[k - 1], path[k - 1 + 1]);
      RoundKeeps(cells, init, world, k - 1, limits, committed, path[k - 1], path[k]);
    }
  }

  lemma {:induction false} EndsHere(cells: seq<Cell>, world: World, limits: Budget, committed: Spend, maxWaves: nat,
                                    init: set<Id>, path: seq<Position>, cause: Option<Cause>)
    requires UniqueIds(cells) && path != [] && |path| <= maxWaves + 2
    requires Kept(cells, init, world.run, limits, committed, path[|path| - 1])
    requires EndsBy(cells, world, limits, maxWaves, path, cause)
    ensures LeavesBehind(cells, world, limits, path, cause,
                         Rounds(cells, world, limits, |path| - 1, maxWaves + 1, path[|path| - 1]))
  {
    var round, p := |path| - 1, path[|path| - 1];
    if cause.Some? {
      ReadyFacts(cells, p.done, p.failed);
      CauseDecides(ReadyList(cells, p.done, p.failed, true), world, round, limits, p, cause.value);
    } else {
      AllIfAsMany(cells, p.done);
      NothingToDoEnds(cells, world, limits, maxWaves, round, p);
    }
  }

  lemma {:induction false} NothingToDoEnds(cells: seq<Cell>, world: World, limits: Budget, maxWaves: nat, round: nat,
                                           p: Position)
    requires round <= maxWaves + 1 && NothingToDo(cells, round, maxWaves, p) && p.done !! p.failed
    requires p.failed <= IdSet(cells) && (|p.done| == |cells| <==> p.done == IdSet(cells))
    ensures Rounds(cells, world, limits, round, maxWaves + 1, p) ==
            Finish(if p.done == IdSet(cells) then Returned(None) else Returned(Some(FailedRun)), p.done, p.spent, p.ran)
  {
  }

  /** However a call ends, this is what it returns and leaves behind. */
  lemma {:induction false} EndDecides(cells: seq<Cell>, limits: Budget, committed: Spend, maxWaves: nat, init: set<Id>,
                                      world: World, path: seq<Position>, cause: Option<Cause>)
    requires UniqueIds(cells) && init <= IdSet(cells)
    requires Path(cells, world, limits, path) && path[0] == Position(init, {}, committed, [])
    requires |path| <= maxWaves + 2 && EndsBy(cells, world, limits, maxWaves, path, cause)
    ensures LeavesBehind(cells, world, limits, path, cause, Call(cells, limits, committed, maxWaves, init, world))
  {
    PathKeeps(cells, world, limits, committed, init, path, |path| - 1);
    AlongPath(cells, world, limits, maxWaves, path, |path| - 1);
    EndsHere(cells, world, limits, committed, maxWaves, init, path, cause);
  }

  /** And every call ends in one of these ways. */
  lemma {:induction false} EveryCallEnds(cells: seq<Cell>, limits: Budget, committed: Spend, maxWaves: nat,
                                         init: set<Id>, world: World)
    returns (path: seq<Position>, cause: Option<Cause>)
    requires UniqueIds(cells) && init <= IdSet(cells)
    ensures Path(cells, world, limits, path) && path[0] == Position(init, {}, committed, [])
    ensures |path| <= maxWaves + 2 && EndsBy(cells, world, limits, maxWaves, path, cause)
    ensures LeavesBehind(cells, world, limits, path, cause, Call(cells, limits, committed, maxWaves, init, world))
  {
    path, cause := PathToEnd(cells, limits, world, maxWaves, [Position(init, {}, committed, [])]);
    EndDecides(cells, limits, committed, maxWaves, init, world, path, cause);
  }

  lemma {:induction false} PathToEnd(cells: seq<Cell>, limits: Budget, world: World, maxWaves: nat,
                                     sofar: seq<Position>)
    returns (path: seq<Position>, cause: Option<Cause>)
    requires UniqueIds(cells) && Path(cells, world, limits, sofar) && |sofar| <= maxWaves + 2
    ensures sofar <= path && Path(cells, world, limits, path) && |path| <= maxWaves + 2
    ensures EndsBy(cells, world, limits, maxWaves, path, cause)
    decreases maxWaves + 2 - |sofar|
  {
    var round, p := |sofar| - 1, sofar[|sofar| - 1];
    path, cause := sofar, None;
    if !NothingToDo(cells, round, maxWaves, p) {
      var ready := ReadyList(cells, p.done, p.failed, true);
      ReadyFacts(cells, p.done, p.failed);
      match RoundPass(ready, world, round, limits, p)
      case Stop(_, _, _) =>
        var who := StopHasCause(ready, world, round, limits, p);
        cause := Some(who);
      case Go(q) =>
        RoundGoes(ready, world, round, limits, p);
        path, cause := PathToEnd(cells, limits, world, maxWaves, sofar + [q]);
    }
  }
}
