/** What a call of the round loop keeps, and exactly when it completes every cell. */
module Completion {
  import opened Domain
  import opened Scheduling
  import opened RoundBound
  import opened Execution
  import V = Validation

  // Lists of cells, their ids and what they spend.

  lemma {:induction false} TotalSpendAppend(a: seq<Cell>, b: seq<Cell>, run: Id -> CellRun)
    ensures TotalSpend(a + b, run) == TotalSpend(a, run).Plus(TotalSpend(b, run))
  {
    if b == [] {
      assert a + b == a;
      PlusAssociates(TotalSpend(a, run), NO_SPEND, NO_SPEND);
    } else {
      var front, last := b[..|b| - 1], b[|b| - 1];
      assert (a + b)[..|a + b| - 1] == a + front && (a + b)[|a + b| - 1] == last;
      TotalSpendAppend(a, front, run);
      PlusAssociates(TotalSpend(a, run), TotalSpend(front, run), run(last.id).spend);
    }
  }

  /** Cells with unique ids spend the same in any order. */
  lemma {:induction false} SameSpend(a: seq<Cell>, b: seq<Cell>, run: Id -> CellRun)
    requires UniqueIds(a) && UniqueIds(b) && IdSet(a) == IdSet(b)
    ensures TotalSpend(a, run) == TotalSpend(b, run)
    decreases |a|
  {
    if a == [] {
      SomeId(b);
    } else {
      var front, last := a[..|a| - 1], a[|a| - 1];
      assert last in a && last.id in IdSet(b);
      var c :| c in b && c.id == last.id;
      var k :| 0 <= k < |b| && b[k] == c;
      LastIdIsNew(a);
      WithoutOne(b, k);
      SameSpend(front, b[..k] + b[k + 1..], run);
      SpendWithoutOne(b, k, run);
    }
  }

  lemma {:induction false} SomeId(cells: seq<Cell>)
    ensures cells != [] ==> IdSet(cells) != {}
  {
    if cells != [] {
      assert cells[0].id in IdSet(cells);
    }
  }

  lemma {:induction false} WithoutOne(b: seq<Cell>, k: nat)
    requires UniqueIds(b) && k < |b|
    ensures var rest := b[..k] + b[k + 1..];
            UniqueIds(rest) && IdSet(rest) == IdSet(b) - {b[k].id}
  {
    var rest := b[..k] + b[k + 1..];
    forall c | c in rest ensures c in b && c.id != b[k].id {
      LeftIsOther(b, k, c);
    }
    forall c | c in b && c.id != b[k].id ensures c in rest {
      OtherIsLeft(b, k, c);
    }
  }

  lemma {:induction false} LeftIsOther(b: seq<Cell>, k: nat, c: Cell)
    requires UniqueIds(b) && k < |b| && c in b[..k] + b[k + 1..]
    ensures c in b && c.id != b[k].id
  {
    var rest := b[..k] + b[k + 1..];
    var i :| 0 <= i < |rest| && rest[i] == c;
    assert c == b[if i < k then i else i + 1];
  }

  lemma {:induction false} OtherIsLeft(b: seq<Cell>, k: nat, c: Cell)
    requires k < |b| && c in b && c != b[k]
    ensures c in b[..k] + b[k + 1..]
  {
    var i :| 0 <= i < |b| && b[i] == c;
    assert c == (b[..k] + b[k + 1..])[if i < k then i else i - 1];
  }

  lemma {:induction false} SpendWithoutOne(b: seq<Cell>, k: nat, run: Id -> CellRun)
    requires k < |b|
    ensures TotalSpend(b, run) == TotalSpend(b[..k] + b[k + 1..], run).Plus(run(b[k].id).spend)
  {
    var one := run(b[k].id).spend;
    assert b == b[..k + 1] + b[k + 1..] && b[..k + 1][..k] == b[..k];
    TotalSpendAppend(b[..k + 1], b[k + 1..], run);
    TotalSpendAppend(b[..k], b[k + 1..], run);
    PlusSwaps(TotalSpend(b[..k], run), one, TotalSpend(b[k + 1..], run));
  }

  lemma {:induction false} PlusSwaps(a: Spend, b: Spend, c: Spend)
    ensures a.Plus(b).Plus(c) == a.Plus(c).Plus(b)
  {
  }

  lemma {:induction false} HasMember<T>(s: seq<T>)
    ensures s == [] || exists x :: x in s
  {
    if s != [] {
      assert s[0] in s;
    }
  }

  lemma {:induction false} SubsetOfSameSize<T>(a: set<T>, b: set<T>)
    requires a <= b
    ensures |a| == |b| <==> a == b
  {
    assert b == a + (b - a);
  }

  lemma {:induction false} IdCount(cells: seq<Cell>)
    requires UniqueIds(cells)
    ensures |IdSet(cells)| == |cells|
  {
    if cells == [] {
      assert IdSet(cells) == {};
    } else {
      IdCount(cells[..|cells| - 1]);
      LastIdIsNew(cells);
    }
  }

  lemma {:induction false} LastIdIsNew(cells: seq<Cell>)
    requires UniqueIds(cells) && cells != []
    ensures var front, id := IdSet(cells[..|cells| - 1]), cells[|cells| - 1].id;
            id !in front && IdSet(cells) == front + {id}
  {
    var front, last := cells[..|cells| - 1], cells[|cells| - 1];
    assert cells == front + [last];
    forall c | c in front ensures c.id != last.id {
      var i :| 0 <= i < |front| && front[i] == c;
      assert cells[i].id != cells[|cells| - 1].id;
    }
  }

  lemma {:induction false} AllIfAsMany(cells: seq<Cell>, done: set<Id>)
    requires UniqueIds(cells) && done <= IdSet(cells)
    ensures |done| == |cells| <==> done == IdSet(cells)
  {
    IdCount(cells);
    SubsetOfSameSize(done, IdSet(cells));
  }

  // The cells of a round by mode.

  lemma {:induction false} ByModeKeepsUnique(cells: seq<Cell>, mode: CellMode)
    requires UniqueIds(cells)
    ensures UniqueIds(ByMode(cells, mode))
  {
    if cells != [] {
      var front, last := cells[..|cells| - 1], cells[|cells| - 1];
      ByModeKeepsUnique(front, mode);
      var r := ByMode(front, mode);
      forall i | 0 <= i < |r| ensures r[i].id != last.id {
        assert r[i] in front;
        var k :| 0 <= k < |front| && front[k] == r[i];
        assert cells[k].id != cells[|cells| - 1].id;
      }
    }
  }

  lemma {:induction false} OneWriter(cells: seq<Cell>)
    requires WritersAtMostOne(cells)
    ensures |ByMode(cells, Mutating)| <= 1
  {
    if cells != [] {
      var front, last := cells[..|cells| - 1], cells[|cells| - 1];
      OneWriter(front);
      if last.mode.Mutating? {
        forall c | c in front ensures c.mode.ReadOnly? {
          var i :| 0 <= i < |front| && front[i] == c;
          assert cells[i] == c && cells[|cells| - 1] == last;
        }
        HasMember(ByMode(front, Mutating));
      }
    }
  }

  /** The order in which the cells of a round end up in the totals. */
  function InRound(ready: seq<Cell>): seq<Cell> { ByMode(ready, ReadOnly) + ByMode(ready, Mutating) }

  lemma {:induction false} RoundOrder(ready: seq<Cell>)
    requires UniqueIds(ready)
    ensures UniqueIds(InRound(ready)) && IdSet(InRound(ready)) == IdSet(ready)
    ensures forall c :: c in InRound(ready) <==> c in ready
  {
    var readers, writers := ByMode(ready, ReadOnly), ByMode(ready, Mutating);
    ByModeKeepsUnique(ready, ReadOnly);
    ByModeKeepsUnique(ready, Mutating);
    forall i, j | 0 <= i < |readers| && 0 <= j < |writers| ensures readers[i].id != writers[j].id {
      assert readers[i] in readers && writers[j] in writers;
      DifferentIds(ready, readers[i], writers[j]);
    }
  }

  /** A cell that the scheduler may start in this position. */
  predicate Startable(c: Cell, done: set<Id>, failed: set<Id>) {
    c.id !in done && c.id !in failed && forall d :: d in c.dependencies ==> d in done
  }

  /** The facts about a ready list that a round relies on. */
  lemma {:induction false} ReadyFacts(cells: seq<Cell>, done: set<Id>, failed: set<Id>)
    requires UniqueIds(cells)
    ensures var ready := ReadyList(cells, done, failed, true);
            && UniqueIds(ready) && WritersAtMostOne(ready)
            && forall c :: c in ready ==> c in cells && Startable(c, done, failed)
  {
    ReadyKeepsUnique(cells, done, failed, true);
    OneWriterAtMost(cells, done, failed, true);
    ReadyAreEligible(cells, done, failed, true);
  }

  // A round that goes on.

  function CountedIn(cells: seq<Cell>, run: Id -> CellRun): set<Id> {
    set c | c in cells && Counts(c, run(c.id).end) :: c.id
  }

  ghost predicate AnyShort(cells: seq<Cell>, run: Id -> CellRun) {
    exists c :: c in cells && run(c.id).end.Short?
  }

  lemma {:induction false} ShortIff(cells: seq<Cell>, run: Id -> CellRun)
    ensures FirstShort(cells, run).Some? <==> AnyShort(cells, run)
    ensures FirstShort(cells, run).Some? ==>
      exists c :: c in cells && run(c.id).end == Short(FirstShort(cells, run).value)
  {
    if cells != [] {
      var front, last := cells[..|cells| - 1], cells[|cells| - 1];
      assert cells == front + [last];
      ShortIff(front, run);
      if run(last.id).end.Short? && FirstShort(front, run).None? {
        assert last in cells;
      }
    }
  }

  /** What the world does to the cells of a round that leads on. */
  ghost predicate RoundGoesOn(ready: seq<Cell>, world: World, round: nat, limits: Budget, p: Position, q: Position) {
    && Calm(ready, world, round)
    && (forall c :: c in ready ==> Counts(c, world.run(c.id).end) || (world.run(c.id).end.Raised? && c.mode.ReadOnly?))
    && q.done == p.done + CountedIn(ready, world.run) && q.failed == p.failed + RaisedIds(ready, world.run)
    && q.spent == p.spent.Plus(TotalSpend(InRound(ready), world.run)) && q.ran == p.ran + InRound(ready)
    && !BudgetExhausted(Remaining(limits, q.spent))
  }

  /** No stall interrupts the cells of the round. */
  ghost predicate Calm(ready: seq<Cell>, world: World, round: nat) {
    && (ByMode(ready, ReadOnly) != [] ==> world.readersStall(round).Steady?)
    && (ByMode(ready, Mutating) != [] ==> world.writerStall(round).Steady?)
  }

  lemma {:induction false} ReadersGo(readers: seq<Cell>, world: World, round: nat, limits: Budget, p: Position)
    requires readers != [] && forall c :: c in readers ==> c.mode.ReadOnly?
    ensures var pass := ReadersPass(readers, world, round, limits, p);
            pass.Go? <==>
              && world.readersStall(round).Steady? && !AnyShort(readers, world.run)
              && !BudgetExhausted(Remaining(limits, p.spent.Plus(TotalSpend(readers, world.run))))
  {
    ShortIff(readers, world.run);
  }

  lemma {:induction false} ReadersDone(readers: seq<Cell>, run: Id -> CellRun)
    requires forall c :: c in readers ==> c.mode.ReadOnly?
    ensures CountedReaderIds(readers, run) == CountedIn(readers, run)
  {
  }

  /** A round leads on exactly when nothing stops it, and then to the position that its cells make. */
  lemma {:induction false} RoundGoes(ready: seq<Cell>, world: World, round: nat, limits: Budget, p: Position)
    requires ready != [] && UniqueIds(ready) && WritersAtMostOne(ready)
    ensures var pass := RoundPass(ready, world, round, limits, p);
            pass.Go? ==> RoundGoesOn(ready, world, round, limits, p, pass.at)
  {
    var readers, writers := ByMode(ready, ReadOnly), ByMode(ready, Mutating);
    if RoundPass(ready, world, round, limits, p).Go? {
      AfterReaders(readers, world, round, limits, p);
      if writers == [] {
        assert ready[0] in readers;
        OnlyReaders(ready, world, round, limits, p, ReadersPass(readers, world, round, limits, p).at);
      } else {
        OneWriter(ready);
        AfterWriter(ready, writers[0], world, round, limits, p, ReadersPass(readers, world, round, limits, p).at);
      }
    }
  }

  /** Where the readers of a round lead. */
  function PastReaders(readers: seq<Cell>, run: Id -> CellRun, p: Position): Position {
    Position(p.done + CountedIn(readers, run), p.failed + RaisedIds(readers, run),
             p.spent.Plus(TotalSpend(readers, run)), p.ran + readers)
  }

  lemma {:induction false} OnlyReaders(ready: seq<Cell>, world: World, round: nat, limits: Budget, p: Position,
                                       q: Position)
    requires ByMode(ready, Mutating) == [] && ByMode(ready, ReadOnly) != []
    requires q == PastReaders(ByMode(ready, ReadOnly), world.run, p)
    requires world.readersStall(round).Steady? && !BudgetExhausted(Remaining(limits, q.spent))
    requires forall c :: c in ByMode(ready, ReadOnly) ==> Counts(c, world.run(c.id).end) || world.run(c.id).end.Raised?
    ensures RoundGoesOn(ready, world, round, limits, p, q)
  {
    assert InRound(ready) == ByMode(ready, ReadOnly);
    AllReaders(ready, world.run);
  }

  lemma {:induction false} AllReaders(ready: seq<Cell>, run: Id -> CellRun)
    requires ByMode(ready, Mutating) == []
    ensures forall c :: c in ready <==> c in ByMode(ready, ReadOnly)
    ensures CountedIn(ready, run) == CountedIn(ByMode(ready, ReadOnly), run)
    ensures RaisedIds(ready, run) == RaisedIds(ByMode(ready, ReadOnly), run)
  {
    forall c | c in ready ensures c in ByMode(ready, ReadOnly) {
      assert c !in ByMode(ready, Mutating);
    }
  }

  /** The position after readers that go on. */
  lemma {:induction false} AfterReaders(readers: seq<Cell>, world: World, round: nat, limits: Budget, p: Position)
    requires forall c :: c in readers ==> c.mode.ReadOnly?
    requires ReadersPass(readers, world, round, limits, p).Go?
    ensures var q := ReadersPass(readers, world, round, limits, p).at;
            && (readers != [] ==> world.readersStall(round).Steady? && !BudgetExhausted(Remaining(limits, q.spent)))
            && (forall c :: c in readers ==> Counts(c, world.run(c.id).end) || world.run(c.id).end.Raised?)
            && q == PastReaders(readers, world.run, p)
  {
    var q := ReadersPass(readers, world, round, limits, p).at;
    if readers == [] {
      PlusAssociates(p.spent, NO_SPEND, NO_SPEND);
      assert CountedIn(readers, world.run) == {} && RaisedIds(readers, world.run) == {};
      assert p.ran + readers == p.ran;
    } else {
      ReadersGo(readers, world, round, limits, p);
      ReadersDone(readers, world.run);
      forall c | c in readers ensures Counts(c, world.run(c.id).end) || world.run(c.id).end.Raised? {
        assert !world.run(c.id).end.Short?;
      }
    }
  }

  lemma {:induction false} SplitByMode(ready: seq<Cell>, run: Id -> CellRun)
    ensures var readers, writers := ByMode(ready, ReadOnly), ByMode(ready, Mutating);
            && CountedIn(ready, run) == CountedIn(readers, run) + CountedIn(writers, run)
            && RaisedIds(ready, run) == RaisedIds(readers, run) + RaisedIds(writers, run)
            && forall c :: c in ready ==> c in readers || c in writers
  {
    var readers, writers := ByMode(ready, ReadOnly), ByMode(ready, Mutating);
    forall c | c in ready ensures c in readers || c in writers {
    }
  }

  /** A writer that goes on has completed, with headroom left. */
  lemma {:induction false} WriterGoes(w: Cell, world: World, round: nat, limits: Budget, q: Position)
    requires WritersPass([w], world, round, limits, q).Go?
    ensures var r := WritersPass([w], world, round, limits, q).at;
            && world.writerStall(round).Steady? && world.run(w.id).end.Done?
            && r == Position(q.done + {w.id}, q.failed, q.spent.Plus(world.run(w.id).spend), q.ran + [w])
            && !BudgetExhausted(Remaining(limits, r.spent))
  {
    assert [w][1..] == [];
  }

  lemma {:induction false} AfterWriter(ready: seq<Cell>, w: Cell, world: World, round: nat, limits: Budget, p: Position,
                                       q: Position)
    requires ByMode(ready, Mutating) == [w]
    requires q == PastReaders(ByMode(ready, ReadOnly), world.run, p)
    requires ByMode(ready, ReadOnly) != [] ==> world.readersStall(round).Steady?
    requires forall c :: c in ByMode(ready, ReadOnly) ==> Counts(c, world.run(c.id).end) || world.run(c.id).end.Raised?
    requires WritersPass([w], world, round, limits, q).Go?
    ensures RoundGoesOn(ready, world, round, limits, p, WritersPass([w], world, round, limits, q).at)
  {
    WriterGoes(w, world, round, limits, q);
    WriterRound(ready, w, world.run, p);
  }

  /** Readers that went on and a writer that is done make up the round. */
  lemma {:induction false} WriterRound(ready: seq<Cell>, w: Cell, run: Id -> CellRun, p: Position)
    requires ByMode(ready, Mutating) == [w] && run(w.id).end.Done?
    requires forall c :: c in ByMode(ready, ReadOnly) ==> Counts(c, run(c.id).end) || run(c.id).end.Raised?
    ensures var q := PastReaders(ByMode(ready, ReadOnly), run, p);
            && q.done + {w.id} == p.done + CountedIn(ready, run) && q.failed == p.failed + RaisedIds(ready, run)
            && q.spent.Plus(run(w.id).spend) == p.spent.Plus(TotalSpend(InRound(ready), run))
            && q.ran + [w] == p.ran + InRound(ready)
    ensures forall c :: c in ready ==> Counts(c, run(c.id).end) || (run(c.id).end.Raised? && c.mode.ReadOnly?)
  {
    SplitByMode(ready, run);
    WriterAdds(ByMode(ready, ReadOnly), w, run, p);
  }

  /** The readers and then the writer, or all of them at once. */
  lemma {:induction false} WriterAdds(readers: seq<Cell>, w: Cell, run: Id -> CellRun, p: Position)
    ensures p.spent.Plus(TotalSpend(readers, run)).Plus(run(w.id).spend) == p.spent.Plus(TotalSpend(readers + [w], run))
    ensures p.ran + readers + [w] == p.ran + (readers + [w])
    ensures run(w.id).end.Done? ==> CountedIn([w], run) == {w.id} && RaisedIds([w], run) == {}
    ensures p.done + CountedIn(readers, run) + {w.id} == p.done + (CountedIn(readers, run) + {w.id})
    ensures RaisedIds(readers, run) + {} == RaisedIds(readers, run)
  {
    assert (readers + [w])[..|readers|] == readers;
    PlusAssociates(p.spent, TotalSpend(readers, run), run(w.id).spend);
    SetSums(p.done, CountedIn(readers, run), {w.id});
  }

  lemma {:induction false} SetSums<T>(a: set<T>, b: set<T>, c: set<T>)
    ensures a + b + c == a + (b + c) && b + {} == b
  {
  }

  // What every position of a call keeps.

  ghost predicate Kept(cells: seq<Cell>, init: set<Id>, run: Id -> CellRun, limits: Budget, committed: Spend,
                       p: Position)
  {
    && init <= p.done <= IdSet(cells) && p.failed <= IdSet(cells) && p.done !! p.failed
    && UniqueIds(p.ran) && (forall c :: c in p.ran ==> c in cells)
    && IdSet(p.ran) == (p.done - init) + p.failed
    && (forall c :: c in p.ran ==> if c.id in p.failed then run(c.id).end.Raised? else Counts(c, run(c.id).end))
    && p.spent == committed.Plus(TotalSpend(p.ran, run))
    && (DependencyClosed(cells, init) ==> DependencyClosed(cells, p.done))
    && (p.ran != [] ==> !BudgetExhausted(Remaining(limits, p.spent)))
  }

  lemma {:induction false} OpeningIsKept(cells: seq<Cell>, init: set<Id>, run: Id -> CellRun, limits: Budget,
                                         committed: Spend)
    requires init <= IdSet(cells)
    ensures Kept(cells, init, run, limits, committed, Opening(init, committed))
  {
    PlusAssociates(committed, NO_SPEND, NO_SPEND);
  }

  lemma {:induction false} RoundKeeps(cells: seq<Cell>, init: set<Id>, world: World, round: nat, limits: Budget,
                                      committed: Spend, p: Position, q: Position)
    requires UniqueIds(cells) && Kept(cells, init, world.run, limits, committed, p)
    requires RoundGoesOn(ReadyList(cells, p.done, p.failed, true), world, round, limits, p, q)
    ensures Kept(cells, init, world.run, limits, committed, q)
  {
    var ready := ReadyList(cells, p.done, p.failed, true);
    ReadyFacts(cells, p.done, p.failed);
    RoundOrder(ready);
    RanIds(init, world.run, p, q, ready);
    TotalSpendAppend(p.ran, InRound(ready), world.run);
    PlusAssociates(committed, TotalSpend(p.ran, world.run), TotalSpend(InRound(ready), world.run));
    if DependencyClosed(cells, init) {
      RoundStaysClosed(cells, world.run, p.done, ready, q.done);
    }
  }

  lemma {:induction false} RanIds(init: set<Id>, run: Id -> CellRun, p: Position, q: Position, ready: seq<Cell>)
    requires UniqueIds(p.ran) && IdSet(p.ran) == (p.done - init) + p.failed && init <= p.done && p.done !! p.failed
    requires UniqueIds(InRound(ready)) && forall c :: c in InRound(ready) <==> c in ready
    requires forall c :: c in ready ==> Startable(c, p.done, p.failed)
    requires forall c :: c in ready ==> Counts(c, run(c.id).end) || run(c.id).end.Raised?
    requires forall c :: c in p.ran ==> if c.id in p.failed then run(c.id).end.Raised? else Counts(c, run(c.id).end)
    requires q.done == p.done + CountedIn(ready, run) && q.failed == p.failed + RaisedIds(ready, run)
    requires q.ran == p.ran + InRound(ready)
    ensures UniqueIds(q.ran) && IdSet(q.ran) == (q.done - init) + q.failed && q.done !! q.failed
    ensures forall c :: c in q.ran ==> if c.id in q.failed then run(c.id).end.Raised? else Counts(c, run(c.id).end)
  {
    forall i, j | 0 <= i < |p.ran| && 0 <= j < |InRound(ready)| ensures p.ran[i].id != InRound(ready)[j].id {
      assert p.ran[i] in p.ran && InRound(ready)[j] in InRound(ready);
      assert p.ran[i].id in IdSet(p.ran);
    }
    forall c | c in q.ran ensures c in p.ran || c in ready {
    }
    assert IdSet(q.ran) == IdSet(p.ran) + IdSet(ready);
    assert IdSet(ready) == CountedIn(ready, run) + RaisedIds(ready, run);
    assert IdSet(ready) !! p.done + p.failed;
    forall c | c in q.ran ensures if c.id in q.failed then run(c.id).end.Raised? else Counts(c, run(c.id).end) {
      if c in p.ran {
        assert c.id in IdSet(p.ran);
        assert c.id !in IdSet(ready);
      } else {
        assert c.id in IdSet(ready);
      }
    }
  }

  lemma {:induction false} RoundStaysClosed(cells: seq<Cell>, run: Id -> CellRun, done: set<Id>, ready: seq<Cell>,
                                            done2: set<Id>)
    requires UniqueIds(cells) && DependencyClosed(cells, done) && done2 == done + CountedIn(ready, run)
    requires forall c :: c in ready ==> c in cells && forall d :: d in c.dependencies ==> d in done
    ensures DependencyClosed(cells, done2)
  {
    forall c, d | c in cells && c.id in done2 && d in c.dependencies ensures d in done2 {
      if c.id !in done {
        var r :| r in ready && r.id == c.id;
        DifferentIds(cells, r, c);
      }
    }
  }

  /** What a call promises, whatever the world does. */
  ghost predicate Promise(cells: seq<Cell>, init: set<Id>, world: World, limits: Budget, committed: Spend, f: Finish) {
    // The completed set only grows, within the graph, and stays dependency-closed.
    && init <= f.completed <= IdSet(cells) && (DependencyClosed(cells, init) ==> DependencyClosed(cells, f.completed))
    // Every cell that ended is accounted for once; only interrupted cells may have spent more.
    && UniqueIds(f.ran) && (forall c :: c in f.ran ==> c in cells && c.id !in init)
    && ((forall r :: world.readersStall(r).Steady? && world.writerStall(r).Steady?) ==>
          f.spent == committed.Plus(TotalSpend(f.ran, world.run)))
    // Success means that every cell completed, none of them by raising, with headroom left on every limited axis.
    && (f.result == Returned(None) ==>
          && f.completed == IdSet(cells) && IdSet(f.ran) == IdSet(cells) - init
          && (forall c :: c in f.ran ==> Counts(c, world.run(c.id).end))
          && f.spent == committed.Plus(TotalSpend(f.ran, world.run))
          && (f.ran != [] ==> !BudgetExhausted(Remaining(limits, f.spent))))
  }

  lemma {:induction false} CallKeepsPromise(cells: seq<Cell>, limits: Budget, committed: Spend, maxWaves: nat,
                                            init: set<Id>, world: World)
    requires UniqueIds(cells) && init <= IdSet(cells)
    ensures Promise(cells, init, world, limits, committed, Call(cells, limits, committed, maxWaves, init, world))
  {
    OpeningIsKept(cells, init, world.run, limits, committed);
    RoundsKeepPromise(cells, init, world, limits, committed, 0, maxWaves + 1, Opening(init, committed));
  }

  lemma {:induction false} RoundsKeepPromise(cells: seq<Cell>, init: set<Id>, world: World, limits: Budget,
                                             committed: Spend, round: nat, rounds: nat, p: Position)
    requires UniqueIds(cells) && Kept(cells, init, world.run, limits, committed, p)
    ensures Promise(cells, init, world, limits, committed, Rounds(cells, world, limits, round, rounds, p))
    decreases rounds - round
  {
    var ready := ReadyList(cells, p.done, p.failed, true);
    if round >= rounds || ready == [] {
      AllIfAsMany(cells, p.done);
      EndKeepsPromise(cells, init, world, limits, committed, p, Rounds(cells, world, limits, round, rounds, p));
    } else {
      ReadyFacts(cells, p.done, p.failed);
      match RoundPass(ready, world, round, limits, p)
      case Stop(result, spent, ran) =>
        StopKeepsPromise(cells, init, world, limits, committed, round, p);
      case Go(q) =>
        RoundGoes(ready, world, round, limits, p);
        RoundKeeps(cells, init, world, round, limits, committed, p, q);
        RoundsKeepPromise(cells, init, world, limits, committed, round + 1, rounds, q);
    }
  }

  lemma {:induction false} EndKeepsPromise(cells: seq<Cell>, init: set<Id>, world: World, limits: Budget,
                                           committed: Spend, p: Position, f: Finish)
    requires Kept(cells, init, world.run, limits, committed, p)
    requires f.completed == p.done && f.spent == p.spent && f.ran == p.ran
    requires f.result == Returned(None) ==> p.done == IdSet(cells)
    ensures Promise(cells, init, world, limits, committed, f)
  {
    forall c | c in p.ran ensures c.id !in init {
      assert c.id in IdSet(p.ran);
    }
    if p.done == IdSet(cells) {
      assert p.failed == {};
    }
  }

  /** The cells that had ended when a round stops, and what was spent. */
  ghost predicate StopAccounts(ready: seq<Cell>, world: World, p: Position, pass: Pass) {
    && pass.Stop? && pass.result != Returned(None)
    && exists more :: IsMore(ready, world, p, pass, more)
  }

  ghost predicate IsMore(ready: seq<Cell>, world: World, p: Position, pass: Pass, more: seq<Cell>)
    requires pass.Stop?
  {
    && pass.ran == p.ran + more && UniqueIds(more) && (forall c :: c in more ==> c in ready)
    && ((forall r :: world.readersStall(r).Steady? && world.writerStall(r).Steady?) ==>
          pass.spent == p.spent.Plus(TotalSpend(more, world.run)))
  }

  lemma {:induction false} RoundStops(ready: seq<Cell>, world: World, round: nat, limits: Budget, p: Position)
    requires UniqueIds(ready) && WritersAtMostOne(ready) && RoundPass(ready, world, round, limits, p).Stop?
    ensures StopAccounts(ready, world, p, RoundPass(ready, world, round, limits, p))
  {
    var readers, writers := ByMode(ready, ReadOnly), ByMode(ready, Mutating);
    var pass := RoundPass(ready, world, round, limits, p);
    RoundOrder(ready);
    ByModeKeepsUnique(ready, ReadOnly);
    match ReadersPass(readers, world, round, limits, p)
    case Stop(_, _, _) =>
      ReadersStop(ready, readers, world, round, limits, p);
    case Go(q) =>
      OneWriter(ready);
      AfterReaders(readers, world, round, limits, p);
      WriterStops(ready, readers, writers[0], world, round, limits, p, q, pass);
  }

  lemma {:induction false} ReadersStop(ready: seq<Cell>, readers: seq<Cell>, world: World, round: nat,
                                       limits: Budget, p: Position)
    requires UniqueIds(readers) && forall c :: c in readers ==> c in ready && c.mode.ReadOnly?
    requires ReadersPass(readers, world, round, limits, p).Stop?
    ensures StopAccounts(ready, world, p, ReadersPass(readers, world, round, limits, p))
  {
    ShortIff(readers, world.run);
    PlusAssociates(p.spent, NO_SPEND, NO_SPEND);
    var more := if world.readersStall(round).Steady? then readers else [];
    assert p.ran + [] == p.ran;
    assert IsMore(ready, world, p, ReadersPass(readers, world, round, limits, p), more);
  }

  lemma {:induction false} WriterStopped(w: Cell, world: World, round: nat, limits: Budget, q: Position)
    requires WritersPass([w], world, round, limits, q).Stop?
    ensures var pass := WritersPass([w], world, round, limits, q);
            && pass.result != Returned(None)
            && pass.ran == (if world.writerStall(round).Steady? then q.ran + [w] else q.ran)
            && (world.writerStall(round).Steady? ==> pass.spent == q.spent.Plus(world.run(w.id).spend))
  {
    assert [w][1..] == [];
  }

  lemma {:induction false} WriterStops(ready: seq<Cell>, readers: seq<Cell>, w: Cell, world: World, round: nat,
                                       limits: Budget, p: Position, q: Position, pass: Pass)
    requires ByMode(ready, Mutating) == [w] && readers == ByMode(ready, ReadOnly)
    requires UniqueIds(readers) && UniqueIds(readers + [w]) && forall c :: c in readers + [w] ==> c in ready
    requires q.ran == p.ran + readers && q.spent == p.spent.Plus(TotalSpend(readers, world.run))
    requires pass == WritersPass([w], world, round, limits, q) && pass.Stop?
    ensures StopAccounts(ready, world, p, pass)
  {
    WriterStopped(w, world, round, limits, q);
    WriterAdds(readers, w, world.run, p);
    var more := if world.writerStall(round).Steady? then readers + [w] else readers;
    assert IsMore(ready, world, p, pass, more);
  }

  lemma {:induction false} StopKeepsPromise(cells: seq<Cell>, init: set<Id>, world: World, limits: Budget,
                                            committed: Spend, round: nat, p: Position)
    requires UniqueIds(cells) && Kept(cells, init, world.run, limits, committed, p)
    requires var ready := ReadyList(cells, p.done, p.failed, true); RoundPass(ready, world, round, limits, p).Stop?
    ensures var pass := RoundPass(ReadyList(cells, p.done, p.failed, true), world, round, limits, p);
            Promise(cells, init, world, limits, committed, Finish(pass.result, p.done, pass.spent, pass.ran))
  {
    var ready := ReadyList(cells, p.done, p.failed, true);
    var pass := RoundPass(ready, world, round, limits, p);
    ReadyFacts(cells, p.done, p.failed);
    RoundStops(ready, world, round, limits, p);
    var more: seq<Cell> :| IsMore(ready, world, p, pass, more);
    forall c | c in p.ran ensures c.id !in init {
      assert c.id in IdSet(p.ran);
    }
    forall i, j | 0 <= i < |p.ran| && 0 <= j < |more| ensures p.ran[i].id != more[j].id {
      assert p.ran[i] in p.ran && more[j] in more;
      assert p.ran[i].id in IdSet(p.ran);
    }
    TotalSpendAppend(p.ran, more, world.run);
    PlusAssociates(committed, TotalSpend(p.ran, world.run), TotalSpend(more, world.run));
  }
}
