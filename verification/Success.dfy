/** When a call of the round loop completes every cell, told from the world alone. */
module Success {
  import opened Domain
  import opened Scheduling
  import opened RoundBound
  import opened Execution
  import opened Completion
  import V = Validation

  /** The cells that are still to run. */
  function Outstanding(cells: seq<Cell>, done: set<Id>): (s: seq<Cell>)
    ensures forall c :: c in s <==> c in cells && c.id !in done
  {
    if cells == [] then []
    else
      var last := cells[|cells| - 1];
      assert cells == cells[..|cells| - 1] + [last];
      Outstanding(cells[..|cells| - 1], done) + if last.id in done then [] else [last]
  }

  lemma {:induction false} OutstandingUnique(cells: seq<Cell>, done: set<Id>)
    requires UniqueIds(cells)
    ensures UniqueIds(Outstanding(cells, done)) && IdSet(Outstanding(cells, done)) == IdSet(cells) - done
  {
    if cells != [] {
      var front, last := cells[..|cells| - 1], cells[|cells| - 1];
      OutstandingUnique(front, done);
      LastIdIsNew(cells);
      var r := Outstanding(front, done);
      forall i | 0 <= i < |r| ensures r[i].id != last.id {
        assert r[i] in r;
        assert r[i].id in IdSet(front);
      }
      forall id | id in IdSet(cells) - done ensures id in IdSet(Outstanding(cells, done)) {
        var c :| c in cells && c.id == id;
        assert c in Outstanding(cells, done);
      }
    }
  }

  /** Every cell that is left ends in a way that counts as completed. */
  ghost predicate AllCount(cells: seq<Cell>, done: set<Id>, run: Id -> CellRun) {
    forall c :: c in cells && c.id !in done ==> Counts(c, run(c.id).end)
  }

  /** No stall comes in a round that has cells for it to interrupt. */
  ghost predicate CalmFrom(cells: seq<Cell>, done: set<Id>, world: World, round: nat, rounds: nat) {
    forall k: nat :: k < rounds - round ==> CalmNth(cells, done, world, round, k)
  }

  /** The round `k` rounds later, if every round until then completes what is ready. */
  ghost predicate CalmNth(cells: seq<Cell>, done: set<Id>, world: World, round: nat, k: nat) {
    Calm(ReadyList(cells, Progress(cells, done, k), {}, true), world, round + k)
  }

  /** Headroom is left once every cell that is left has run. */
  ghost predicate Affordable(cells: seq<Cell>, done: set<Id>, run: Id -> CellRun, limits: Budget, spent: Spend) {
    done == IdSet(cells) || !BudgetExhausted(Remaining(limits, spent.Plus(TotalSpend(Outstanding(cells, done), run))))
  }

  /** The world lets a call complete every cell: read off before the call, from the graph and the world. */
  ghost predicate SmoothFrom(cells: seq<Cell>, world: World, limits: Budget, round: nat, rounds: nat, done: set<Id>,
                             spent: Spend)
    requires round <= rounds
  {
    && Progress(cells, done, rounds - round) == IdSet(cells)
    && AllCount(cells, done, world.run)
    && CalmFrom(cells, done, world, round, rounds)
    && Affordable(cells, done, world.run, limits, spent)
  }

  ghost predicate Smooth(cells: seq<Cell>, limits: Budget, committed: Spend, maxWaves: nat, init: set<Id>, world: World)
  {
    SmoothFrom(cells, world, limits, 0, maxWaves + 1, init, committed)
  }

  /**
   * A call succeeds exactly when the rounds suffice, every cell counts, no stall interrupts it and the budget lasts.
   */
  lemma {:induction false} SuccessIff(cells: seq<Cell>, limits: Budget, committed: Spend, maxWaves: nat, init: set<Id>,
                                      world: World)
    requires UniqueIds(cells) && init <= IdSet(cells)
    ensures Call(cells, limits, committed, maxWaves, init, world).result == Returned(None) <==>
            Smooth(cells, limits, committed, maxWaves, init, world)
  {
    OpeningIsKept(cells, init, world.run, limits, committed);
    SuccessFrom(cells, init, world, limits, committed, 0, maxWaves + 1, Opening(init, committed));
  }

  lemma {:induction false} SuccessFrom(cells: seq<Cell>, init: set<Id>, world: World, limits: Budget, committed: Spend,
                                       round: nat, rounds: nat, p: Position)
    requires round <= rounds && UniqueIds(cells) && Kept(cells, init, world.run, limits, committed, p) && p.failed == {}
    ensures Rounds(cells, world, limits, round, rounds, p).result == Returned(None) <==>
            SmoothFrom(cells, world, limits, round, rounds, p.done, p.spent)
    decreases rounds - round
  {
    var ready := ReadyList(cells, p.done, p.failed, true);
    if round == rounds || ready == [] {
      SuccessNow(cells, world, limits, round, rounds, p);
    } else {
      match RoundPass(ready, world, round, limits, p)
      case Stop(result, _, _) =>
        ReadyFacts(cells, p.done, {});
        RoundStops(ready, world, round, limits, p);
        assert result != Returned(None);
        StopIsNotSmooth(cells, world, limits, round, rounds, p);
      case Go(q) =>
        GoKeeps(cells, init, world, limits, committed, round, p);
        if q.failed == {} {
          SuccessFrom(cells, init, world, limits, committed, round + 1, rounds, q);
          SmoothStep(cells, world, limits, round, rounds, p, q);
        } else {
          FailedStaysFailed(cells, init, world, limits, committed, round + 1, rounds, q);
          FailedIsNotSmooth(cells, world, limits, round, rounds, p, q);
        }
    }
  }

  lemma {:induction false} SuccessNow(cells: seq<Cell>, world: World, limits: Budget, round: nat, rounds: nat,
                                      p: Position)
    requires round <= rounds && UniqueIds(cells) && p.done <= IdSet(cells) && p.failed == {}
    requires round == rounds || ReadyList(cells, p.done, p.failed, true) == []
    ensures Rounds(cells, world, limits, round, rounds, p).result == Returned(None) <==>
            SmoothFrom(cells, world, limits, round, rounds, p.done, p.spent)
  {
    AllIfAsMany(cells, p.done);
    if ReadyList(cells, p.done, {}, true) == [] {
      NothingLeftToDo(cells, world, limits, round, rounds, p.done, p.spent);
    }
  }

  lemma {:induction false} GoKeeps(cells: seq<Cell>, init: set<Id>, world: World, limits: Budget, committed: Spend,
                                   round: nat, p: Position)
    requires UniqueIds(cells) && Kept(cells, init, world.run, limits, committed, p)
    requires ReadyList(cells, p.done, p.failed, true) != []
    requires RoundPass(ReadyList(cells, p.done, p.failed, true), world, round, limits, p).Go?
    ensures var ready := ReadyList(cells, p.done, p.failed, true);
            var q := RoundPass(ready, world, round, limits, p).at;
            RoundGoesOn(ready, world, round, limits, p, q) && Kept(cells, init, world.run, limits, committed, q)
  {
    var ready := ReadyList(cells, p.done, p.failed, true);
    ReadyFacts(cells, p.done, p.failed);
    RoundGoes(ready, world, round, limits, p);
    RoundKeeps(cells, init, world, round, limits, committed, p, RoundPass(ready, world, round, limits, p).at);
  }

  lemma {:induction false} FailedIsNotSmooth(cells: seq<Cell>, world: World, limits: Budget, round: nat, rounds: nat,
                                             p: Position, q: Position)
    requires round <= rounds && UniqueIds(cells) && p.failed == {} && q.failed != {}
    requires RoundGoesOn(ReadyList(cells, p.done, {}, true), world, round, limits, p, q)
    ensures !SmoothFrom(cells, world, limits, round, rounds, p.done, p.spent)
  {
    ReadyFacts(cells, p.done, {});
    RaisedIsNotSmooth(cells, world, p.done, ReadyList(cells, p.done, {}, true), q.failed);
  }

  lemma {:induction false} NothingLeftToDo(cells: seq<Cell>, world: World, limits: Budget, round: nat, rounds: nat,
                                           done: set<Id>, spent: Spend)
    requires round <= rounds && ReadyList(cells, done, {}, true) == []
    ensures SmoothFrom(cells, world, limits, round, rounds, done, spent) <==> done == IdSet(cells)
  {
    NothingReadyStays(cells, done, rounds - round);
    if done == IdSet(cells) {
      forall k: nat | k < rounds - round ensures CalmNth(cells, done, world, round, k) {
        NothingReadyStays(cells, done, k);
        assert ByMode([], ReadOnly) == [] && ByMode([], Mutating) == [];
      }
    }
  }

  lemma {:induction false} NothingReadyStays(cells: seq<Cell>, done: set<Id>, rounds: nat)
    requires ReadyList(cells, done, {}, true) == []
    ensures Progress(cells, done, rounds) == done
    decreases rounds
  {
    if rounds > 0 {
      assert NextDone(cells, done) == done;
      NothingReadyStays(cells, done, rounds - 1);
    }
  }

  // A round that leads on without failures.

  lemma {:induction false} SmoothStep(cells: seq<Cell>, world: World, limits: Budget, round: nat, rounds: nat,
                                      p: Position, q: Position)
    requires round < rounds && UniqueIds(cells) && p.failed == q.failed == {} && p.done <= IdSet(cells)
    requires RoundGoesOn(ReadyList(cells, p.done, {}, true), world, round, limits, p, q)
    ensures SmoothFrom(cells, world, limits, round, rounds, p.done, p.spent) <==>
            SmoothFrom(cells, world, limits, round + 1, rounds, q.done, q.spent)
  {
    var ready := ReadyList(cells, p.done, {}, true);
    ReadyFacts(cells, p.done, {});
    NobodyRaised(ready, world.run);
    assert q.done == NextDone(cells, p.done);
    CalmStep(cells, p.done, world, round, rounds);
    ReadyCount(cells, p.done, ready, world.run);
    AffordStep(cells, p.done, ready, world.run, limits, p.spent);
  }

  lemma {:induction false} NobodyRaised(ready: seq<Cell>, run: Id -> CellRun)
    requires RaisedIds(ready, run) == {}
    requires forall c :: c in ready ==> Counts(c, run(c.id).end) || run(c.id).end.Raised?
    ensures forall c :: c in ready ==> Counts(c, run(c.id).end)
    ensures CountedIn(ready, run) == IdSet(ready)
  {
    forall c | c in ready ensures Counts(c, run(c.id).end) {
      assert c.id !in RaisedIds(ready, run);
    }
  }

  lemma {:induction false} CalmStep(cells: seq<Cell>, done: set<Id>, world: World, round: nat, rounds: nat)
    requires round < rounds
    ensures CalmFrom(cells, done, world, round, rounds) <==>
            Calm(ReadyList(cells, done, {}, true), world, round) &&
              CalmFrom(cells, NextDone(cells, done), world, round + 1, rounds)
  {
    var next, after := NextDone(cells, done), round + 1;
    assert CalmNth(cells, done, world, round, 0) <==> Calm(ReadyList(cells, done, {}, true), world, round);
    if CalmNth(cells, done, world, round, 0) && CalmFrom(cells, next, world, after, rounds) {
      forall k: nat | k < rounds - round ensures CalmNth(cells, done, world, round, k) {
        if k > 0 {
          assert CalmNth(cells, next, world, after, k - 1);
          CalmShift(cells, done, world, round, k - 1);
        }
      }
    }
    if CalmFrom(cells, done, world, round, rounds) {
      forall k: nat | k < rounds - after ensures CalmNth(cells, next, world, after, k) {
        assert CalmNth(cells, done, world, round, k + 1);
        CalmShift(cells, done, world, round, k);
      }
    }
  }

  lemma {:induction false} CalmShift(cells: seq<Cell>, done: set<Id>, world: World, round: nat, k: nat)
    ensures CalmNth(cells, done, world, round, k + 1) <==> CalmNth(cells, NextDone(cells, done), world, round + 1, k)
  {
    assert Progress(cells, done, k + 1) == Progress(cells, NextDone(cells, done), k);
    assert round + (k + 1) == round + 1 + k;
  }

  lemma {:induction false} ReadyCount(cells: seq<Cell>, done: set<Id>, ready: seq<Cell>, run: Id -> CellRun)
    requires UniqueIds(cells) && (forall c :: c in ready ==> c in cells && Counts(c, run(c.id).end))
    ensures AllCount(cells, done, run) <==> AllCount(cells, done + IdSet(ready), run)
  {
    if AllCount(cells, done + IdSet(ready), run) {
      forall c | c in cells && c.id !in done ensures Counts(c, run(c.id).end) {
        if c.id in IdSet(ready) {
          var r :| r in ready && r.id == c.id;
          DifferentIds(cells, r, c);
        }
      }
    }
  }

  /** What is left is the cells of the round and what is left after it. */
  lemma {:induction false} SpendSplits(cells: seq<Cell>, done: set<Id>, some: seq<Cell>, run: Id -> CellRun)
    requires UniqueIds(cells) && UniqueIds(some) && forall c :: c in some ==> c in cells && c.id !in done
    ensures TotalSpend(Outstanding(cells, done), run) ==
            TotalSpend(some, run).Plus(TotalSpend(Outstanding(cells, done + IdSet(some)), run))
  {
    var rest := Outstanding(cells, done + IdSet(some));
    OutstandingUnique(cells, done);
    OutstandingUnique(cells, done + IdSet(some));
    forall i, j | 0 <= i < |some| && 0 <= j < |rest| ensures some[i].id != rest[j].id {
      assert some[i] in some && rest[j] in rest;
    }
    assert IdSet(some + rest) == IdSet(some) + IdSet(rest) by {
      assert forall c :: c in some + rest <==> c in some || c in rest;
    }
    SameSpend(Outstanding(cells, done), some + rest, run);
    TotalSpendAppend(some, rest, run);
  }

  lemma {:induction false} AffordStep(cells: seq<Cell>, done: set<Id>, ready: seq<Cell>, run: Id -> CellRun,
                                      limits: Budget, spent: Spend)
    requires UniqueIds(cells) && done <= IdSet(cells) && ready == ReadyList(cells, done, {}, true)
    requires !BudgetExhausted(Remaining(limits, spent.Plus(TotalSpend(InRound(ready), run))))
    ensures Affordable(cells, done, run, limits, spent) <==>
            Affordable(cells, done + IdSet(ready), run, limits, spent.Plus(TotalSpend(InRound(ready), run)))
  {
    var order, next := InRound(ready), done + IdSet(ready);
    ReadyFacts(cells, done, {});
    RoundOrder(ready);
    SpendSplits(cells, done, order, run);
    PlusAssociates(spent, TotalSpend(order, run), TotalSpend(Outstanding(cells, next), run));
    NothingOutstanding(cells, next, run);
    PlusAssociates(spent.Plus(TotalSpend(order, run)), NO_SPEND, NO_SPEND);
    if done == IdSet(cells) {
      NothingReady(ready, done, IdSet(cells));
    }
  }

  lemma {:induction false} NothingReady(ready: seq<Cell>, done: set<Id>, ids: set<Id>)
    requires done == ids && forall c :: c in ready ==> c.id in ids && c.id !in done
    ensures IdSet(ready) == {}
  {
  }

  lemma {:induction false} NothingOutstanding(cells: seq<Cell>, done: set<Id>, run: Id -> CellRun)
    ensures IdSet(cells) <= done ==> TotalSpend(Outstanding(cells, done), run) == NO_SPEND
  {
    HasMember(Outstanding(cells, done));
  }

  // A round that stops, or fails.

  lemma {:induction false} ExhaustedGrows(limits: Budget, spent: Spend, more: Spend)
    requires BudgetExhausted(Remaining(limits, spent))
    ensures BudgetExhausted(Remaining(limits, spent.Plus(more)))
  {
  }

  /** Once the cells of a round have used up the budget, it does not last for all. */
  lemma {:induction false} TooMuchAlready(cells: seq<Cell>, done: set<Id>, some: seq<Cell>, run: Id -> CellRun,
                                          limits: Budget, spent: Spend)
    requires UniqueIds(cells) && UniqueIds(some) && some != [] && forall c :: c in some ==> c in cells && c.id !in done
    requires BudgetExhausted(Remaining(limits, spent.Plus(TotalSpend(some, run))))
    ensures !Affordable(cells, done, run, limits, spent)
  {
    var rest := TotalSpend(Outstanding(cells, done + IdSet(some)), run);
    SpendSplits(cells, done, some, run);
    PlusAssociates(spent, TotalSpend(some, run), rest);
    ExhaustedGrows(limits, spent.Plus(TotalSpend(some, run)), rest);
    assert some[0] in some && some[0].id in IdSet(cells);
  }

  lemma {:induction false} RaisedIsNotSmooth(cells: seq<Cell>, world: World, done: set<Id>, ready: seq<Cell>,
                                             failed: set<Id>)
    requires failed == RaisedIds(ready, world.run) && failed != {}
    requires forall c :: c in ready ==> c in cells && c.id !in done
    ensures !AllCount(cells, done, world.run)
  {
    var id :| id in failed;
    var c :| c in ready && world.run(c.id).end.Raised? && c.id == id;
    assert !Counts(c, world.run(c.id).end);
  }

  lemma {:induction false} StopIsNotSmooth(cells: seq<Cell>, world: World, limits: Budget, round: nat, rounds: nat,
                                           p: Position)
    requires round < rounds && UniqueIds(cells) && p.failed == {} && p.done <= IdSet(cells)
    requires RoundPass(ReadyList(cells, p.done, {}, true), world, round, limits, p).Stop?
    ensures !SmoothFrom(cells, world, limits, round, rounds, p.done, p.spent)
  {
    var ready := ReadyList(cells, p.done, {}, true);
    ReadyFacts(cells, p.done, {});
    StoppedRound(cells, ready, world, round, limits, p);
    SmoothIsCalm(cells, world, limits, round, rounds, p.done, p.spent);
  }

  lemma {:induction false} SmoothIsCalm(cells: seq<Cell>, world: World, limits: Budget, round: nat, rounds: nat,
                                        done: set<Id>, spent: Spend)
    requires round < rounds
    ensures SmoothFrom(cells, world, limits, round, rounds, done, spent) ==>
      && Calm(ReadyList(cells, done, {}, true), world, round)
      && AllCount(cells, done, world.run) && Affordable(cells, done, world.run, limits, spent)
  {
    CalmStep(cells, done, world, round, rounds);
  }

  /** What stops a round: a stall, a cell that does not count, or spend that the limits do not cover. */
  lemma {:induction false} StoppedRound(cells: seq<Cell>, ready: seq<Cell>, world: World, round: nat, limits: Budget,
                                        p: Position)
    requires UniqueIds(cells) && UniqueIds(ready) && forall c :: c in ready ==> c in cells && c.id !in p.done
    requires WritersAtMostOne(ready) && RoundPass(ready, world, round, limits, p).Stop?
    ensures !Calm(ready, world, round) || !AllCount(cells, p.done, world.run) ||
            !Affordable(cells, p.done, world.run, limits, p.spent)
  {
    if ReadersPass(ByMode(ready, ReadOnly), world, round, limits, p).Stop? {
      StoppedByReaders(cells, ready, world, round, limits, p);
    } else {
      StoppedByWriter(cells, ready, world, round, limits, p);
    }
  }

  lemma {:induction false} StoppedByReaders(cells: seq<Cell>, ready: seq<Cell>, world: World, round: nat,
                                            limits: Budget, p: Position)
    requires UniqueIds(cells) && UniqueIds(ready) && forall c :: c in ready ==> c in cells && c.id !in p.done
    requires ReadersPass(ByMode(ready, ReadOnly), world, round, limits, p).Stop?
    ensures !Calm(ready, world, round) || !AllCount(cells, p.done, world.run) ||
            !Affordable(cells, p.done, world.run, limits, p.spent)
  {
    ByModeKeepsUnique(ready, ReadOnly);
    ReadersStopIsNotSmooth(cells, p.done, ByMode(ready, ReadOnly), world, round, limits, p);
  }

  lemma {:induction false} StoppedByWriter(cells: seq<Cell>, ready: seq<Cell>, world: World, round: nat,
                                           limits: Budget, p: Position)
    requires UniqueIds(cells) && UniqueIds(ready) && forall c :: c in ready ==> c in cells && c.id !in p.done
    requires WritersAtMostOne(ready)
    requires ReadersPass(ByMode(ready, ReadOnly), world, round, limits, p).Go?
    requires RoundPass(ready, world, round, limits, p).Stop?
    ensures !Calm(ready, world, round) || !AllCount(cells, p.done, world.run) ||
            !Affordable(cells, p.done, world.run, limits, p.spent)
  {
    var readers, writers := ByMode(ready, ReadOnly), ByMode(ready, Mutating);
    RoundOrder(ready);
    OneWriter(ready);
    AfterReaders(readers, world, round, limits, p);
    var q := ReadersPass(readers, world, round, limits, p).at;
    var w := writers[0];
    assert w in writers && writers == [w];
    assert w in InRound(ready);
    WriterStopIsNotSmooth(cells, p, readers, w, world, round, limits, q);
  }

  lemma {:induction false} ReadersStopIsNotSmooth(cells: seq<Cell>, done: set<Id>, readers: seq<Cell>, world: World,
                                                  round: nat, limits: Budget, p: Position)
    requires UniqueIds(cells) && UniqueIds(readers) && forall c :: c in readers ==> c.mode.ReadOnly?
    requires forall c :: c in readers ==> c in cells && c.id !in done
    requires ReadersPass(readers, world, round, limits, p).Stop?
    ensures (readers != [] && !world.readersStall(round).Steady?) || !AllCount(cells, done, world.run) ||
            !Affordable(cells, done, world.run, limits, p.spent)
  {
    ReadersGo(readers, world, round, limits, p);
    if world.readersStall(round).Steady? {
      if AnyShort(readers, world.run) {
        var c :| c in readers && world.run(c.id).end.Short?;
        assert !Counts(c, world.run(c.id).end);
      } else {
        TooMuchAlready(cells, done, readers, world.run, limits, p.spent);
      }
    }
  }

  lemma {:induction false} WriterStopIsNotSmooth(cells: seq<Cell>, p: Position, readers: seq<Cell>, w: Cell,
                                                 world: World, round: nat, limits: Budget, q: Position)
    requires UniqueIds(cells) && UniqueIds(readers + [w]) && w.mode.Mutating?
    requires forall c :: c in readers + [w] ==> c in cells && c.id !in p.done
    requires q.spent == p.spent.Plus(TotalSpend(readers, world.run))
    requires WritersPass([w], world, round, limits, q).Stop?
    ensures !world.writerStall(round).Steady? || !AllCount(cells, p.done, world.run) ||
            !Affordable(cells, p.done, world.run, limits, p.spent)
  {
    assert [w][1..] == [] && w in readers + [w];
    WriterAdds(readers, w, world.run, p);
    if world.writerStall(round).Steady? && world.run(w.id).end.Done? {
      TooMuchAlready(cells, p.done, readers + [w], world.run, limits, p.spent);
    }
  }

  /** Once a reader has raised, the call does not succeed. */
  lemma {:induction false} FailedStaysFailed(cells: seq<Cell>, init: set<Id>, world: World, limits: Budget,
                                             committed: Spend, round: nat, rounds: nat, p: Position)
    requires UniqueIds(cells) && Kept(cells, init, world.run, limits, committed, p) && p.failed != {}
    ensures Rounds(cells, world, limits, round, rounds, p).result != Returned(None)
    decreases rounds - round
  {
    var ready := ReadyList(cells, p.done, p.failed, true);
    AllIfAsMany(cells, p.done);
    if round < rounds && ready != [] {
      ReadyFacts(cells, p.done, p.failed);
      match RoundPass(ready, world, round, limits, p)
      case Stop(_, _, _) =>
        RoundStops(ready, world, round, limits, p);
      case Go(q) =>
        RoundGoes(ready, world, round, limits, p);
        RoundKeeps(cells, init, world, round, limits, committed, p, q);
        FailedStaysFailed(cells, init, world, limits, committed, round + 1, rounds, q);
    }
  }

  // What this means for accepted graphs.

  /** Every cell succeeds, nothing stalls, and headroom is left after all of them. */
  ghost predicate Untroubled(cells: seq<Cell>, limits: Budget, committed: Spend, init: set<Id>, world: World) {
    && (forall c :: c in cells && c.id !in init ==> world.run(c.id).end.Done?)
    && (forall r :: world.readersStall(r).Steady? && world.writerStall(r).Steady?)
    && Affordable(cells, init, world.run, limits, committed)
  }

  lemma {:induction false} UntroubledIsSmooth(cells: seq<Cell>, limits: Budget, committed: Spend, maxWaves: nat,
                                              init: set<Id>, world: World)
    requires Untroubled(cells, limits, committed, init, world)
    requires Progress(cells, init, maxWaves + 1) == IdSet(cells)
    ensures Smooth(cells, limits, committed, maxWaves, init, world)
  {
    forall k: nat ensures CalmNth(cells, init, world, 0, k) {
      assert world.readersStall(0 + k).Steady? && world.writerStall(0 + k).Steady?;
    }
  }

  /** An accepted graph within the list-scheduling bound completes in every untroubled world. */
  lemma {:induction false} AcceptedRunSucceeds(g: Graph, runBudget: Option<Budget>, maxWaves: nat, depth: nat,
                                               init: set<Id>, world: World, limits: Budget, committed: Spend)
    requires V.Accepted(g, runBudget, Some(maxWaves)) && init <= IdSet(g.cells)
    requires forall p :: IsChain(g.cells, p) ==> |p| <= depth
    requires depth + Max(0, |V.MutatingCells(g.cells)| - 1) <= maxWaves + 1
    requires Untroubled(g.cells, limits, committed, init, world)
    ensures Call(g.cells, limits, committed, maxWaves, init, world).result == Returned(None)
  {
    AcceptedGraphFinishes(g, runBudget, maxWaves, init, depth);
    AcceptedIsLayered(g, runBudget, Some(maxWaves));
    UntroubledIsSmooth(g.cells, limits, committed, maxWaves, init, world);
    SuccessIff(g.cells, limits, committed, maxWaves, init, world);
  }

  /** Headroom is left exactly when usage is below every limit; cost by more than the tolerance. */
  lemma {:induction false} HeadroomIsStrict(limits: Budget, spent: Spend)
    ensures !BudgetExhausted(Remaining(limits, spent)) <==>
            (limits.tokenLimit.Some? ==> spent.inputTokens + spent.outputTokens < limits.tokenLimit.value) &&
            (limits.costLimit.Some? ==> spent.cost + 0.000000001 < limits.costLimit.value)
  {
  }

  // Success does not mean that every cell succeeded.

  const NOBODY_STALLS: nat -> Stall := _ => Steady

  /** A world in which every cell ends alike. */
  function Everywhere(end: CellEnd): World { World(_ => CellRun(end, NO_SPEND), NOBODY_STALLS, NOBODY_STALLS, false) }

  /** One reader that is cancelled: the call completes it and returns no outcome. */
  lemma {:induction false} CancelledReaderCompletes(c: Cell)
    requires c.mode.ReadOnly? && c.dependencies == []
    ensures Call([c], UNLIMITED, NO_SPEND, 1, {}, Everywhere(Cancelled)).result == Returned(None)
  {
    OneCellFinishes(c);
    EverywhereIsCalm([c], {}, Cancelled, 0, 2);
    UnlimitedIsAffordable([c], {}, Everywhere(Cancelled).run, NO_SPEND);
    CancelledCounts(c);
    SuccessIff([c], UNLIMITED, NO_SPEND, 1, {}, Everywhere(Cancelled));
  }

  lemma {:induction false} EverywhereIsCalm(cells: seq<Cell>, done: set<Id>, end: CellEnd, round: nat, rounds: nat)
    ensures CalmFrom(cells, done, Everywhere(end), round, rounds)
  {
  }

  lemma {:induction false} CancelledCounts(c: Cell)
    requires c.mode.ReadOnly?
    ensures AllCount([c], {}, Everywhere(Cancelled).run)
  {
  }

  lemma {:induction false} UnlimitedIsAffordable(cells: seq<Cell>, done: set<Id>, run: Id -> CellRun, spent: Spend)
    ensures Affordable(cells, done, run, UNLIMITED, spent)
  {
    HeadroomIsStrict(UNLIMITED, spent.Plus(TotalSpend(Outstanding(cells, done), run)));
  }

  lemma {:induction false} OneCellFinishes(c: Cell)
    requires c.dependencies == []
    ensures Progress([c], {}, 2) == IdSet([c])
  {
    assert [c][..0] == [] && ReadyList([c][..0], {}, {}, true) == [];
    assert Eligible(c, {}, {}, true) && !HasMutating([]);
    assert ReadyList([c], {}, {}, true) == [c] && IdSet([c]) == {c.id} && NextDone([c], {}) == {c.id};
    assert ReadyList([c][..0], {c.id}, {}, true) == [] && ReadyList([c], {c.id}, {}, true) == [];
    NothingReadyStays([c], {c.id}, 1);
  }

  /** A successful call has run every cell to success if and only if none of its readers was cancelled. */
  lemma {:induction false} AllDoneIff(cells: seq<Cell>, limits: Budget, committed: Spend, maxWaves: nat, init: set<Id>,
                                      world: World)
    requires UniqueIds(cells) && init <= IdSet(cells)
    requires Call(cells, limits, committed, maxWaves, init, world).result == Returned(None)
    ensures (forall c :: c in cells && c.id !in init ==> world.run(c.id).end.Done?) <==>
            (forall c :: c in cells && c.id !in init && c.mode.ReadOnly? ==> !world.run(c.id).end.Cancelled?)
  {
    SuccessIff(cells, limits, committed, maxWaves, init, world);
    assert AllCount(cells, init, world.run);
  }
}
