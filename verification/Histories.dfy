/** Every history that a call of the round loop may have, whatever the interleaving of its concurrent readers. */
module Histories {
  import opened Domain
  import opened Scheduling
  import opened RoundBound
  import opened Execution
  import opened Completion
  import Success

  /** What happens in a call, in the order in which it happens. */
  datatype Step =
    | Started(cell: Cell)
    | Ended(cell: Cell, end: CellEnd)
    | Interrupted(cell: Cell)
    | StallSeen
    | BudgetSeen

  predicate Stops(s: Step) { s.Ended? || s.Interrupted? }

  function StartedIn(t: seq<Step>): set<Id> { set s | s in t && s.Started? :: s.cell.id }

  function StoppedIn(t: seq<Step>): set<Id> { set s | s in t && Stops(s) :: s.cell.id }

  function EndedIn(t: seq<Step>): set<Id> { set s | s in t && s.Ended? :: s.cell.id }

  function CompletedIn(t: seq<Step>): set<Id> { set s | s in t && s.Ended? && Counts(s.cell, s.end) :: s.cell.id }

  function RaisedIn(t: seq<Step>): set<Id> { set s | s in t && s.Ended? && s.end.Raised? :: s.cell.id }

  /** A cell may start once, after its dependencies completed, and a writer runs alone. */
  predicate SafeStart(before: seq<Step>, init: set<Id>, c: Cell) {
    && c.id !in init && c.id !in StartedIn(before)
    && (forall d :: d in c.dependencies ==> d in init + CompletedIn(before))
    && (forall s :: s in before && s.Started? && (s.cell.mode.Mutating? || c.mode.Mutating?) ==>
         s.cell.id in StoppedIn(before))
  }

  /** A cell stops once, after it has started. */
  predicate SafeStop(before: seq<Step>, c: Cell) {
    Started(c) in before && c.id !in StoppedIn(before)
  }

  predicate SafeStep(before: seq<Step>, init: set<Id>, s: Step) {
    (s.Started? ==> SafeStart(before, init, s.cell)) && (Stops(s) ==> SafeStop(before, s.cell))
  }

  /** A well-formed history in which every step was safe when it happened. */
  ghost predicate TraceSafe(t: seq<Step>, init: set<Id>) {
    forall i :: 0 <= i < |t| ==> SafeStep(t[..i], init, t[i])
  }

  ghost predicate Truthful(t: seq<Step>, run: Id -> CellRun) {
    forall s :: s in t && s.Ended? ==> s.end == run(s.cell.id).end
  }

  /** Nothing in the history failed, stalled or ran out of budget. */
  predicate NoTrouble(t: seq<Step>) {
    forall s :: s in t ==> s.Started? || (s.Ended? && Counts(s.cell, s.end))
  }

  // Which histories a call may have.

  /** Steps that concurrently running readers may take, in any interleaving, complete or cut short. */
  ghost predicate Orderly(readers: seq<Cell>, run: Id -> CellRun, b: seq<Step>) {
    && (forall s :: s in b ==> s.Started? || s.Interrupted? || (s.Ended? && s.end == run(s.cell.id).end))
    && (forall s :: s in b ==> s.cell in readers)
    && (forall i :: 0 <= i < |b| && b[i].Started? ==> b[i].cell.id !in StartedIn(b[..i]))
    && (forall i :: 0 <= i < |b| && Stops(b[i]) ==> SafeStop(b[..i], b[i].cell))
  }

  /** A complete interleaving: every reader starts and ends. */
  ghost predicate Batch(readers: seq<Cell>, run: Id -> CellRun, b: seq<Step>) {
    && Orderly(readers, run, b)
    && (forall s :: s in b ==> !s.Interrupted?)
    && (forall c :: c in readers ==> Started(c) in b && Ended(c, run(c.id).end) in b)
  }

  /** An interleaving that the watchdog cuts: whatever had started has ended or is interrupted. */
  ghost predicate Cut(readers: seq<Cell>, run: Id -> CellRun, b: seq<Step>) {
    Orderly(readers, run, b) && StartedIn(b) == StoppedIn(b)
  }

  ghost predicate ReadersHistory(readers: seq<Cell>, world: World, round: nat, limits: Budget, p: Position,
                                 b: seq<Step>)
  {
    if readers == [] then b == []
    else
      match world.readersStall(round)
      case BeforeStart => b == [StallSeen]
      case Midway(_) => exists cut :: Cut(readers, world.run, cut) && b == cut + [StallSeen]
      case Steady =>
        if FirstShort(readers, world.run).None? && ReadersPass(readers, world, round, limits, p).Stop?
        then exists batch :: Batch(readers, world.run, batch) && b == batch + [BudgetSeen]
        else Batch(readers, world.run, b)
  }

  function WriterSteps(w: Cell, world: World, round: nat, limits: Budget, p: Position): seq<Step> {
    match world.writerStall(round)
    case BeforeStart => [StallSeen]
    case Midway(_) => [Started(w), Interrupted(w), StallSeen]
    case Steady =>
      [Started(w), Ended(w, world.run(w.id).end)] +
      (if world.run(w.id).end.Done? && WriterPass(w, world, round, limits, p).Stop? then [BudgetSeen] else [])
  }

  function WritersSteps(writers: seq<Cell>, world: World, round: nat, limits: Budget, p: Position): seq<Step> {
    if writers == [] then []
    else
      WriterSteps(writers[0], world, round, limits, p) +
      match WriterPass(writers[0], world, round, limits, p)
      case Stop(_, _, _) => []
      case Go(q) => WritersSteps(writers[1..], world, round, limits, q)
  }

  /** The readers' steps, then, if they led on, the writer's. */
  ghost predicate RoundHistory(ready: seq<Cell>, world: World, round: nat, limits: Budget, p: Position, b: seq<Step>) {
    exists r, w :: b == r + w && RoundParts(ready, world, round, limits, p, r, w)
  }

  ghost predicate RoundParts(ready: seq<Cell>, world: World, round: nat, limits: Budget, p: Position, r: seq<Step>,
                             w: seq<Step>)
  {
    && ReadersHistory(ByMode(ready, ReadOnly), world, round, limits, p, r)
    && match ReadersPass(ByMode(ready, ReadOnly), world, round, limits, p)
       case Stop(_, _, _) => w == []
       case Go(q) => w == WritersSteps(ByMode(ready, Mutating), world, round, limits, q)
  }

  /** A possible history of the rounds that are left from a position. */
  ghost predicate History(cells: seq<Cell>, world: World, limits: Budget, round: nat, rounds: nat, p: Position,
                          t: seq<Step>)
    decreases rounds - round, 1
  {
    if round >= rounds || ReadyList(cells, p.done, p.failed, true) == [] then t == []
    else exists now, later :: t == now + later && HistoryParts(cells, world, limits, round, rounds, p, now, later)
  }

  /** The steps of this round, and those of the rounds that it leads on to. */
  ghost predicate HistoryParts(cells: seq<Cell>, world: World, limits: Budget, round: nat, rounds: nat, p: Position,
                               now: seq<Step>, later: seq<Step>)
    requires round < rounds
    decreases rounds - round, 0
  {
    var ready := ReadyList(cells, p.done, p.failed, true);
    && RoundHistory(ready, world, round, limits, p, now)
    && match RoundPass(ready, world, round, limits, p)
       case Stop(_, _, _) => later == []
       case Go(q) => History(cells, world, limits, round + 1, rounds, q, later)
  }

  // Every such history is safe.

  lemma {:induction false} SafeAppend(t: seq<Step>, b: seq<Step>, init: set<Id>)
    requires TraceSafe(t, init)
    requires forall i :: 0 <= i < |b| ==> SafeStep(t + b[..i], init, b[i])
    ensures TraceSafe(t + b, init)
  {
    var all := t + b;
    forall i | 0 <= i < |all| ensures SafeStep(all[..i], init, all[i]) {
      if i < |t| {
        assert all[..i] == t[..i];
      } else {
        assert all[..i] == t + b[..i - |t|];
        assert all[i] == b[i - |t|];
      }
    }
  }

  lemma {:induction false} HistoryAppend(t: seq<Step>, b: seq<Step>)
    ensures StartedIn(t + b) == StartedIn(t) + StartedIn(b)
    ensures StoppedIn(t + b) == StoppedIn(t) + StoppedIn(b)
    ensures EndedIn(t + b) == EndedIn(t) + EndedIn(b)
    ensures CompletedIn(t + b) == CompletedIn(t) + CompletedIn(b)
    ensures RaisedIn(t + b) == RaisedIn(t) + RaisedIn(b)
  {
    assert forall s :: s in t + b <==> s in t || s in b;
  }

  /** No cell is running, and what ended is what the world says. */
  ghost predicate Quiet(init: set<Id>, run: Id -> CellRun, t: seq<Step>) {
    TraceSafe(t, init) && Truthful(t, run) && StartedIn(t) == StoppedIn(t)
  }

  /** The ids that a history mentions, against a position of the loop. */
  ghost predicate SetsMatch(init: set<Id>, p: Position, started: set<Id>, ended: set<Id>, completed: set<Id>,
                            raised: set<Id>)
  {
    && p.done == init + completed && p.failed == raised
    && started == ended == IdSet(p.ran) && started <= p.done + p.failed
  }

  /** Cells started, and ended by completing or raising. */
  ghost predicate Clean(t: seq<Step>) {
    forall s :: s in t ==> s.Started? || (s.Ended? && (Counts(s.cell, s.end) || s.end.Raised?))
  }

  /** The history up to a position of the loop. */
  ghost predicate Settled(init: set<Id>, run: Id -> CellRun, p: Position, t: seq<Step>) {
    Quiet(init, run, t) && Clean(t) && SetsMatch(init, p, StartedIn(t), EndedIn(t), CompletedIn(t), RaisedIn(t))
  }

  lemma {:induction false} SetsGrow(init: set<Id>, p: Position, q: Position, started: set<Id>, ended: set<Id>,
                                    completed: set<Id>, raised: set<Id>, ids: set<Id>, counted: set<Id>,
                                    failed: set<Id>)
    requires SetsMatch(init, p, started, ended, completed, raised) && ids == counted + failed
    requires q.done == p.done + counted && q.failed == p.failed + failed && IdSet(q.ran) == IdSet(p.ran) + ids
    ensures SetsMatch(init, q, started + ids, ended + ids, completed + counted, raised + failed)
  {
  }

  lemma {:induction false} QuietAppend(init: set<Id>, run: Id -> CellRun, t: seq<Step>, b: seq<Step>)
    requires Quiet(init, run, t) && TraceSafe(t + b, init) && Truthful(t + b, run) && StartedIn(b) == StoppedIn(b)
    ensures Quiet(init, run, t + b)
  {
    HistoryAppend(t, b);
  }

  lemma {:induction false} CleanAppend(t: seq<Step>, b: seq<Step>)
    requires Clean(t) && Clean(b)
    ensures Clean(t + b)
  {
    forall s | s in t + b ensures s.Started? || (s.Ended? && (Counts(s.cell, s.end) || s.end.Raised?)) {
      assert s in t || s in b;
    }
  }

  lemma {:induction false} SettlesBy(init: set<Id>, run: Id -> CellRun, p: Position, q: Position, t: seq<Step>,
                                     b: seq<Step>)
    requires Settled(init, run, p, t) && TraceSafe(t + b, init) && Truthful(t + b, run) && Clean(b)
    requires StartedIn(b) == StoppedIn(b) == EndedIn(b) == CompletedIn(b) + RaisedIn(b)
    requires q.done == p.done + CompletedIn(b) && q.failed == p.failed + RaisedIn(b)
    requires IdSet(q.ran) == IdSet(p.ran) + EndedIn(b)
    ensures Settled(init, run, q, t + b)
  {
    QuietAppend(init, run, t, b);
    CleanAppend(t, b);
    HistoryAppend(t, b);
    SetsGrow(init, p, q, StartedIn(t), EndedIn(t), CompletedIn(t), RaisedIn(t), EndedIn(b), CompletedIn(b),
      RaisedIn(b));
  }

  /** The history of a step of the loop that ends the call. */
  ghost predicate Halted(init: set<Id>, run: Id -> CellRun, ran: seq<Cell>, t: seq<Step>) {
    Quiet(init, run, t) && IdSet(ran) <= EndedIn(t) && (StallSeen !in t ==> EndedIn(t) == IdSet(ran))
  }

  lemma {:induction false} SettledAllowsStart(init: set<Id>, run: Id -> CellRun, p: Position, t: seq<Step>, c: Cell)
    requires Settled(init, run, p, t) && Startable(c, p.done, p.failed)
    ensures c.id !in StartedIn(t) && c.id !in StoppedIn(t) && SafeStart(t, init, c)
  {
    forall s | s in t && s.Started? ensures s.cell.id in StoppedIn(t) {
      assert s.cell.id in StartedIn(t);
    }
  }

  lemma {:induction false} OrderlyIsSafe(readers: seq<Cell>, init: set<Id>, run: Id -> CellRun, p: Position,
                                         t: seq<Step>, b: seq<Step>)
    requires Settled(init, run, p, t) && Orderly(readers, run, b)
    requires forall c :: c in readers ==> Startable(c, p.done, p.failed) && c.mode.ReadOnly?
    ensures TraceSafe(t + b, init) && Truthful(t + b, run)
  {
    forall i | 0 <= i < |b| ensures SafeStep(t + b[..i], init, b[i]) {
      assert b[i] in b;
      OrderlyStep(readers, init, run, p, t, b, i);
    }
    SafeAppend(t, b, init);
  }

  lemma {:induction false} OrderlyStep(readers: seq<Cell>, init: set<Id>, run: Id -> CellRun, p: Position,
                                       t: seq<Step>, b: seq<Step>, i: nat)
    requires Settled(init, run, p, t) && Orderly(readers, run, b) && i < |b|
    requires forall c :: c in readers ==> Startable(c, p.done, p.failed) && c.mode.ReadOnly?
    ensures SafeStep(t + b[..i], init, b[i])
  {
    var c, before := b[i].cell, t + b[..i];
    assert b[i] in b;
    HistoryAppend(t, b[..i]);
    SettledAllowsStart(init, run, p, t, c);
    forall s | s in before && s.Started? && (s.cell.mode.Mutating? || c.mode.Mutating?)
      ensures s.cell.id in StoppedIn(before)
    {
      assert s in b[..i] ==> s in b;
      assert s in t && s.cell.id in StartedIn(t);
    }
  }

  lemma {:induction false} BatchSets(readers: seq<Cell>, run: Id -> CellRun, b: seq<Step>)
    requires Batch(readers, run, b) && forall c :: c in readers ==> c.mode.ReadOnly?
    ensures StartedIn(b) == StoppedIn(b) == EndedIn(b) == IdSet(readers)
    ensures CompletedIn(b) == CountedIn(readers, run) && RaisedIn(b) == RaisedIds(readers, run)
  {
    forall c | c in readers ensures c.id in EndedIn(b) && c.id in StartedIn(b) && c.id in StoppedIn(b) {
      assert Ended(c, run(c.id).end) in b && Started(c) in b;
    }
    forall id | id in CountedIn(readers, run) ensures id in CompletedIn(b) {
      var c :| c in readers && Counts(c, run(c.id).end) && c.id == id;
      assert Ended(c, run(c.id).end) in b;
    }
    forall id | id in RaisedIds(readers, run) ensures id in RaisedIn(b) {
      var c :| c in readers && run(c.id).end.Raised? && c.id == id;
      assert Ended(c, run(c.id).end) in b;
    }
  }

  /** Readers that lead on settle in the position that they lead to. */
  lemma {:induction false} ReadersSettle(readers: seq<Cell>, init: set<Id>, world: World, round: nat, limits: Budget,
                                         p: Position, t: seq<Step>, b: seq<Step>)
    requires Settled(init, world.run, p, t) && ReadersHistory(readers, world, round, limits, p, b)
    requires forall c :: c in readers ==> Startable(c, p.done, p.failed) && c.mode.ReadOnly?
    requires ReadersPass(readers, world, round, limits, p).Go?
    ensures Settled(init, world.run, ReadersPass(readers, world, round, limits, p).at, t + b)
  {
    if readers == [] {
      assert t + b == t;
    } else {
      var q := ReadersPass(readers, world, round, limits, p).at;
      AfterReaders(readers, world, round, limits, p);
      ReadersGo(readers, world, round, limits, p);
      ShortIff(readers, world.run);
      OrderlyIsSafe(readers, init, world.run, p, t, b);
      BatchSets(readers, world.run, b);
      BatchSettles(readers, init, world.run, p, q, t, b);
    }
  }

  lemma {:induction false} BatchSettles(readers: seq<Cell>, init: set<Id>, run: Id -> CellRun, p: Position, q: Position,
                                        t: seq<Step>, b: seq<Step>)
    requires Settled(init, run, p, t) && TraceSafe(t + b, init) && Truthful(t + b, run) && Batch(readers, run, b)
    requires StartedIn(b) == StoppedIn(b) == EndedIn(b) == IdSet(readers)
    requires CompletedIn(b) == CountedIn(readers, run) && RaisedIn(b) == RaisedIds(readers, run)
    requires forall c :: c in readers ==> Counts(c, run(c.id).end) || run(c.id).end.Raised?
    requires q.done == p.done + CountedIn(readers, run) && q.failed == p.failed + RaisedIds(readers, run)
    requires q.ran == p.ran + readers
    ensures Settled(init, run, q, t + b)
  {
    IdsAppend(p.ran, readers);
    CountedOrRaised(readers, run);
    BatchIsClean(readers, run, b);
    SettlesBy(init, run, p, q, t, b);
  }

  lemma {:induction false} CountedOrRaised(readers: seq<Cell>, run: Id -> CellRun)
    requires forall c :: c in readers ==> Counts(c, run(c.id).end) || run(c.id).end.Raised?
    ensures IdSet(readers) == CountedIn(readers, run) + RaisedIds(readers, run)
  {
  }

  lemma {:induction false} BatchIsClean(readers: seq<Cell>, run: Id -> CellRun, b: seq<Step>)
    requires Batch(readers, run, b) && forall c :: c in readers ==> Counts(c, run(c.id).end) || run(c.id).end.Raised?
    ensures Clean(b)
  {
  }

  lemma {:induction false} IdsAppend(a: seq<Cell>, b: seq<Cell>)
    ensures IdSet(a + b) == IdSet(a) + IdSet(b)
  {
    assert forall c :: c in a + b <==> c in a || c in b;
  }

  lemma {:induction false} MarkIsQuiet(init: set<Id>, run: Id -> CellRun, t: seq<Step>, mark: Step)
    requires Quiet(init, run, t) && (mark.StallSeen? || mark.BudgetSeen?)
    ensures Quiet(init, run, t + [mark]) && EndedIn(t + [mark]) == EndedIn(t)
  {
    SafeAppend(t, [mark], init);
    HistoryAppend(t, [mark]);
  }

  /** Readers that end the call leave nobody running. */
  lemma {:induction false} ReadersHalt(readers: seq<Cell>, init: set<Id>, world: World, round: nat, limits: Budget,
                                       p: Position, t: seq<Step>, b: seq<Step>)
    requires Settled(init, world.run, p, t) && ReadersHistory(readers, world, round, limits, p, b)
    requires forall c :: c in readers ==> Startable(c, p.done, p.failed) && c.mode.ReadOnly?
    requires ReadersPass(readers, world, round, limits, p).Stop?
    ensures Halted(init, world.run, ReadersPass(readers, world, round, limits, p).ran, t + b)
  {
    match world.readersStall(round)
    case BeforeStart =>
      MarkIsQuiet(init, world.run, t, StallSeen);
      assert b == [StallSeen] && StallSeen in t + b;
    case Midway(_) =>
      var cut :| Cut(readers, world.run, cut) && b == cut + [StallSeen];
      OrderlyIsSafe(readers, init, world.run, p, t, cut);
      HistoryAppend(t, cut);
      MarkIsQuiet(init, world.run, t + cut, StallSeen);
      assert t + b == t + cut + [StallSeen];
    case Steady =>
      BatchHalts(readers, init, world, round, limits, p, t, b);
  }

  lemma {:induction false} BatchHalts(readers: seq<Cell>, init: set<Id>, world: World, round: nat, limits: Budget,
                                      p: Position, t: seq<Step>, b: seq<Step>)
    requires Settled(init, world.run, p, t) && readers != [] && ReadersHistory(readers, world, round, limits, p, b)
    requires forall c :: c in readers ==> Startable(c, p.done, p.failed) && c.mode.ReadOnly?
    requires world.readersStall(round).Steady? && ReadersPass(readers, world, round, limits, p).Stop?
    ensures Halted(init, world.run, ReadersPass(readers, world, round, limits, p).ran, t + b)
  {
    IdsAppend(p.ran, readers);
    if FirstShort(readers, world.run).None? {
      var batch :| Batch(readers, world.run, batch) && b == batch + [BudgetSeen];
      BatchThenMark(readers, init, world.run, p, t, batch);
      assert t + b == t + batch + [BudgetSeen];
    } else {
      BatchIsQuiet(readers, init, world.run, p, t, b);
    }
  }

  lemma {:induction false} BatchThenMark(readers: seq<Cell>, init: set<Id>, run: Id -> CellRun, p: Position,
                                         t: seq<Step>, batch: seq<Step>)
    requires Settled(init, run, p, t) && Batch(readers, run, batch)
    requires forall c :: c in readers ==> Startable(c, p.done, p.failed) && c.mode.ReadOnly?
    ensures Quiet(init, run, t + batch + [BudgetSeen])
    ensures EndedIn(t + batch + [BudgetSeen]) == IdSet(p.ran) + IdSet(readers)
  {
    BatchIsQuiet(readers, init, run, p, t, batch);
    MarkIsQuiet(init, run, t + batch, BudgetSeen);
  }

  lemma {:induction false} BatchIsQuiet(readers: seq<Cell>, init: set<Id>, run: Id -> CellRun, p: Position,
                                        t: seq<Step>, b: seq<Step>)
    requires Settled(init, run, p, t) && Batch(readers, run, b)
    requires forall c :: c in readers ==> Startable(c, p.done, p.failed) && c.mode.ReadOnly?
    ensures Quiet(init, run, t + b) && EndedIn(t + b) == IdSet(p.ran) + IdSet(readers)
  {
    OrderlyIsSafe(readers, init, run, p, t, b);
    BatchSets(readers, run, b);
    QuietAppend(init, run, t, b);
    HistoryAppend(t, b);
  }

  // The writer.

  /** The two steps of a writer. */
  function Alone(w: Cell, last: Step): seq<Step> { [Started(w), last] }

  lemma {:induction false} AloneSets(w: Cell, last: Step)
    requires Stops(last) && last.cell == w
    ensures StartedIn(Alone(w, last)) == StoppedIn(Alone(w, last)) == {w.id}
    ensures last.Ended? ==> EndedIn(Alone(w, last)) == {w.id}
    ensures last == Ended(w, Done) ==> CompletedIn(Alone(w, last)) == {w.id} && RaisedIn(Alone(w, last)) == {}
  {
    assert Started(w) in Alone(w, last) && last in Alone(w, last);
  }

  lemma {:induction false} AloneSteps(init: set<Id>, t: seq<Step>, w: Cell, last: Step)
    requires TraceSafe(t, init) && SafeStart(t, init, w) && w.id !in StoppedIn(t) && Stops(last) && last.cell == w
    ensures TraceSafe(t + Alone(w, last), init)
  {
    var b := Alone(w, last);
    assert t + b[..0] == t && b[..1] == [Started(w)];
    HistoryAppend(t, b[..1]);
    assert SafeStop(t + b[..1], w);
    SafeAppend(t, b, init);
  }

  /** A writer that starts where nobody runs, and stops. */
  lemma {:induction false} AloneIsSafe(init: set<Id>, run: Id -> CellRun, p: Position, t: seq<Step>, w: Cell,
                                       last: Step)
    requires Settled(init, run, p, t) && Startable(w, p.done, p.failed)
    requires last == Interrupted(w) || last == Ended(w, run(w.id).end)
    ensures Quiet(init, run, t + Alone(w, last))
  {
    SettledAllowsStart(init, run, p, t, w);
    AloneSteps(init, t, w, last);
    AloneSets(w, last);
    QuietAppend(init, run, t, Alone(w, last));
  }

  lemma {:induction false} WriterSettles(init: set<Id>, world: World, round: nat, limits: Budget, p: Position,
                                         t: seq<Step>, w: Cell)
    requires Settled(init, world.run, p, t) && Startable(w, p.done, p.failed)
    requires WriterPass(w, world, round, limits, p).Go?
    ensures Settled(init, world.run, WriterPass(w, world, round, limits, p).at,
      t + WriterSteps(w, world, round, limits, p))
  {
    var q := WriterPass(w, world, round, limits, p).at;
    assert WriterSteps(w, world, round, limits, p) == Alone(w, Ended(w, Done));
    assert world.run(w.id).end == Done && q.done == p.done + {w.id} && q.failed == p.failed && q.ran == p.ran + [w];
    DoneSettles(init, world.run, p, q, t, w);
  }

  lemma {:induction false} DoneSettles(init: set<Id>, run: Id -> CellRun, p: Position, q: Position, t: seq<Step>,
                                       w: Cell)
    requires Settled(init, run, p, t) && Startable(w, p.done, p.failed) && run(w.id).end == Done
    requires q.done == p.done + {w.id} && q.failed == p.failed && q.ran == p.ran + [w]
    ensures Settled(init, run, q, t + Alone(w, Ended(w, Done)))
  {
    AloneIsSafe(init, run, p, t, w, Ended(w, Done));
    AloneSets(w, Ended(w, Done));
    IdsAppend(p.ran, [w]);
    assert IdSet([w]) == {w.id} && p.failed + {} == p.failed;
    SettlesBy(init, run, p, q, t, Alone(w, Ended(w, Done)));
  }

  lemma {:induction false} WriterHalts(init: set<Id>, world: World, round: nat, limits: Budget, p: Position,
                                       t: seq<Step>, w: Cell)
    requires Settled(init, world.run, p, t) && Startable(w, p.done, p.failed)
    requires WriterPass(w, world, round, limits, p).Stop?
    ensures Halted(init, world.run, WriterPass(w, world, round, limits, p).ran,
      t + WriterSteps(w, world, round, limits, p))
  {
    match world.writerStall(round)
    case BeforeStart =>
      MarkIsQuiet(init, world.run, t, StallSeen);
    case Midway(_) =>
      assert t + WriterSteps(w, world, round, limits, p) == t + Alone(w, Interrupted(w)) + [StallSeen];
      CutHalts(init, world.run, p, t, w);
    case Steady =>
      EndHalts(init, world.run, p, t, w);
      var b := Alone(w, Ended(w, world.run(w.id).end));
      if world.run(w.id).end.Done? {
        MarkIsQuiet(init, world.run, t + b, BudgetSeen);
        assert t + WriterSteps(w, world, round, limits, p) == t + b + [BudgetSeen];
      } else {
        assert WriterSteps(w, world, round, limits, p) == b;
      }
  }

  lemma {:induction false} CutHalts(init: set<Id>, run: Id -> CellRun, p: Position, t: seq<Step>, w: Cell)
    requires Settled(init, run, p, t) && Startable(w, p.done, p.failed)
    ensures Halted(init, run, p.ran, t + Alone(w, Interrupted(w)) + [StallSeen])
  {
    var b := Alone(w, Interrupted(w));
    AloneIsSafe(init, run, p, t, w, Interrupted(w));
    HistoryAppend(t, b);
    MarkIsQuiet(init, run, t + b, StallSeen);
  }

  lemma {:induction false} EndHalts(init: set<Id>, run: Id -> CellRun, p: Position, t: seq<Step>, w: Cell)
    requires Settled(init, run, p, t) && Startable(w, p.done, p.failed)
    ensures var b := Alone(w, Ended(w, run(w.id).end));
            Quiet(init, run, t + b) && EndedIn(t + b) == IdSet(p.ran + [w])
  {
    AloneIsSafe(init, run, p, t, w, Ended(w, run(w.id).end));
    EndedAlone(p.ran, t, w, run(w.id).end);
  }

  lemma {:induction false} EndedAlone(ran: seq<Cell>, t: seq<Step>, w: Cell, end: CellEnd)
    requires EndedIn(t) == IdSet(ran)
    ensures EndedIn(t + Alone(w, Ended(w, end))) == IdSet(ran + [w])
  {
    AloneSets(w, Ended(w, end));
    HistoryAppend(t, Alone(w, Ended(w, end)));
    IdsAppend(ran, [w]);
    assert IdSet([w]) == {w.id};
  }

  // A round, and all rounds.

  lemma {:induction false} OneWriterSteps(writers: seq<Cell>, world: World, round: nat, limits: Budget, q: Position)
    requires |writers| == 1
    ensures WritersSteps(writers, world, round, limits, q) == WriterSteps(writers[0], world, round, limits, q)
    ensures WritersPass(writers, world, round, limits, q) == WriterPass(writers[0], world, round, limits, q)
  {
    assert writers[1..] == [];
  }

  /** What a round leaves behind, whether it leads on or ends the call. */
  ghost predicate AfterPass(init: set<Id>, run: Id -> CellRun, pass: Pass, t: seq<Step>) {
    match pass
    case Stop(_, _, ran) => Halted(init, run, ran, t)
    case Go(q) => Settled(init, run, q, t)
  }

  lemma {:induction false} RoundIsSafe(ready: seq<Cell>, init: set<Id>, world: World, round: nat, limits: Budget,
                                       p: Position, t: seq<Step>, b: seq<Step>)
    requires UniqueIds(ready) && WritersAtMostOne(ready) && forall c :: c in ready ==> Startable(c, p.done, p.failed)
    requires Settled(init, world.run, p, t) && RoundHistory(ready, world, round, limits, p, b)
    ensures AfterPass(init, world.run, RoundPass(ready, world, round, limits, p), t + b)
  {
    var r, w :| b == r + w && RoundParts(ready, world, round, limits, p, r, w);
    PartsAreSafe(ready, init, world, round, limits, p, t, r, w);
    assert t + (r + w) == t + r + w;
  }

  lemma {:induction false} PartsAreSafe(ready: seq<Cell>, init: set<Id>, world: World, round: nat, limits: Budget,
                                        p: Position, t: seq<Step>, r: seq<Step>, w: seq<Step>)
    requires UniqueIds(ready) && WritersAtMostOne(ready) && forall c :: c in ready ==> Startable(c, p.done, p.failed)
    requires Settled(init, world.run, p, t) && RoundParts(ready, world, round, limits, p, r, w)
    ensures AfterPass(init, world.run, RoundPass(ready, world, round, limits, p), t + r + w)
  {
    var readers := ByMode(ready, ReadOnly);
    match ReadersPass(readers, world, round, limits, p)
    case Stop(_, _, _) =>
      ReadersHalt(readers, init, world, round, limits, p, t, r);
      assert t + r + w == t + r;
    case Go(q) =>
      ReadersSettle(readers, init, world, round, limits, p, t, r);
      WritersAreSafe(ready, init, world, round, limits, p, q, t + r);
  }

  lemma {:induction false} WritersAreSafe(ready: seq<Cell>, init: set<Id>, world: World, round: nat, limits: Budget,
                                          p: Position, q: Position, t: seq<Step>)
    requires UniqueIds(ready) && WritersAtMostOne(ready) && forall c :: c in ready ==> Startable(c, p.done, p.failed)
    requires ReadersPass(ByMode(ready, ReadOnly), world, round, limits, p) == Go(q) && Settled(init, world.run, q, t)
    ensures var writers := ByMode(ready, Mutating);
            AfterPass(init, world.run, WritersPass(writers, world, round, limits, q),
                      t + WritersSteps(writers, world, round, limits, q))
  {
    var readers, writers := ByMode(ready, ReadOnly), ByMode(ready, Mutating);
    OneWriter(ready);
    if writers == [] {
      assert t + [] == t;
    } else {
      var w := writers[0];
      assert w in writers;
      AfterReaders(readers, world, round, limits, p);
      StaysStartable(ready, readers, w, world.run, p, q);
      OneWriterSteps(writers, world, round, limits, q);
      if WriterPass(w, world, round, limits, q).Go? {
        WriterSettles(init, world, round, limits, q, t, w);
      } else {
        WriterHalts(init, world, round, limits, q, t, w);
      }
    }
  }

  lemma {:induction false} StaysStartable(ready: seq<Cell>, readers: seq<Cell>, w: Cell, run: Id -> CellRun,
                                          p: Position, q: Position)
    requires UniqueIds(ready) && readers == ByMode(ready, ReadOnly) && w in ready && w.mode.Mutating?
    requires Startable(w, p.done, p.failed)
    requires q.done == p.done + CountedIn(readers, run) && q.failed == p.failed + RaisedIds(readers, run)
    ensures Startable(w, q.done, q.failed)
  {
    forall r | r in readers ensures r.id != w.id {
      DifferentIds(ready, r, w);
    }
  }

  /** What every history of a call tells about it. */
  ghost predicate Tells(init: set<Id>, world: World, f: Finish, t: seq<Step>) {
    && Halted(init, world.run, f.ran, t)
    && (f.result == Returned(None) ==> f.completed == init + CompletedIn(t) && NoTrouble(t))
  }

  /** Whatever the world does and however the readers interleave, the history of a call is safe and tells its result. */
  lemma {:induction false} HistoriesAreSafe(cells: seq<Cell>, limits: Budget, committed: Spend, maxWaves: nat,
                                            init: set<Id>, world: World, t: seq<Step>)
    requires UniqueIds(cells) && init <= IdSet(cells)
    requires History(cells, world, limits, 0, maxWaves + 1, Opening(init, committed), t)
    ensures TraceSafe(t, init) && Tells(init, world, Call(cells, limits, committed, maxWaves, init, world), t)
  {
    OpeningIsKept(cells, init, world.run, limits, committed);
    assert Settled(init, world.run, Opening(init, committed), []);
    RoundsAreSafe(cells, init, world, limits, committed, 0, maxWaves + 1, Opening(init, committed), [], t);
    assert [] + t == t;
  }

  lemma {:induction false} RoundsAreSafe(cells: seq<Cell>, init: set<Id>, world: World, limits: Budget,
                                         committed: Spend, round: nat, rounds: nat, p: Position, before: seq<Step>,
                                         t: seq<Step>)
    requires UniqueIds(cells) && Kept(cells, init, world.run, limits, committed, p) &&
      Settled(init, world.run, p, before)
    requires History(cells, world, limits, round, rounds, p, t)
    ensures Tells(init, world, Rounds(cells, world, limits, round, rounds, p), before + t)
    decreases rounds - round
  {
    var ready := ReadyList(cells, p.done, p.failed, true);
    if round >= rounds || ready == [] {
      assert before + t == before;
      EndTells(cells, init, world, limits, committed, round, rounds, p, before);
    } else {
      var now, later :| t == now + later && HistoryParts(cells, world, limits, round, rounds, p, now, later);
      assert before + t == before + now + later;
      ReadyFacts(cells, p.done, p.failed);
      RoundIsSafe(ready, init, world, round, limits, p, before, now);
      match RoundPass(ready, world, round, limits, p)
      case Stop(_, _, _) =>
        assert before + now + later == before + now;
        StopTells(cells, init, world, limits, round, rounds, p, before + now);
      case Go(q) =>
        Success.GoKeeps(cells, init, world, limits, committed, round, p);
        RoundsAreSafe(cells, init, world, limits, committed, round + 1, rounds, q, before + now, later);
    }
  }

  lemma {:induction false} StopTells(cells: seq<Cell>, init: set<Id>, world: World, limits: Budget, round: nat,
                                     rounds: nat, p: Position, t: seq<Step>)
    requires UniqueIds(cells) && round < rounds && ReadyList(cells, p.done, p.failed, true) != []
    requires RoundPass(ReadyList(cells, p.done, p.failed, true), world, round, limits, p).Stop?
    requires AfterPass(init, world.run, RoundPass(ReadyList(cells, p.done, p.failed, true), world, round, limits, p), t)
    ensures Tells(init, world, Rounds(cells, world, limits, round, rounds, p), t)
  {
    ReadyFacts(cells, p.done, p.failed);
    RoundStops(ReadyList(cells, p.done, p.failed, true), world, round, limits, p);
  }

  lemma {:induction false} EndTells(cells: seq<Cell>, init: set<Id>, world: World, limits: Budget, committed: Spend,
                                    round: nat, rounds: nat, p: Position, t: seq<Step>)
    requires UniqueIds(cells) && Kept(cells, init, world.run, limits, committed, p) && Settled(init, world.run, p, t)
    requires round >= rounds || ReadyList(cells, p.done, p.failed, true) == []
    ensures Tells(init, world, Rounds(cells, world, limits, round, rounds, p), t)
  {
    AllIfAsMany(cells, p.done);
    CleanIsNoTrouble(t);
  }

  lemma {:induction false} CleanIsNoTrouble(t: seq<Step>)
    requires Clean(t)
    ensures RaisedIn(t) == {} ==> NoTrouble(t)
    ensures StallSeen !in t
  {
    if !NoTrouble(t) {
      var s :| s in t && !(s.Started? || (s.Ended? && Counts(s.cell, s.end)));
      assert s.cell.id in RaisedIn(t);
    }
  }

  // Some history always exists: one reader after the other.

  function OneByOne(readers: seq<Cell>, run: Id -> CellRun): seq<Step> {
    if readers == [] then []
    else
      var last := readers[|readers| - 1];
      OneByOne(readers[..|readers| - 1], run) + Alone(last, Ended(last, run(last.id).end))
  }

  lemma {:induction false} OneByOneIsBatch(readers: seq<Cell>, run: Id -> CellRun)
    requires UniqueIds(readers)
    ensures Batch(readers, run, OneByOne(readers, run))
  {
    if readers != [] {
      var front, last := readers[..|readers| - 1], readers[|readers| - 1];
      assert readers == front + [last];
      OneByOneIsBatch(front, run);
      OneMore(front, last, run, OneByOne(front, run));
    }
  }

  lemma {:induction false} OneMore(front: seq<Cell>, last: Cell, run: Id -> CellRun, b: seq<Step>)
    requires UniqueIds(front + [last]) && Batch(front, run, b)
    ensures Batch(front + [last], run, b + Alone(last, Ended(last, run(last.id).end)))
  {
    var more := Alone(last, Ended(last, run(last.id).end));
    NewId(front, last);
    OneMoreIsOrderly(front, last, run, b, more);
    assert more[0] in more && more[1] in more;
    forall c | c in front + [last] ensures Started(c) in b + more && Ended(c, run(c.id).end) in b + more {
      assert c in front || c == last;
    }
  }

  lemma {:induction false} OneMoreIsOrderly(front: seq<Cell>, last: Cell, run: Id -> CellRun, b: seq<Step>,
                                            more: seq<Step>)
    requires Orderly(front, run, b) && more == Alone(last, Ended(last, run(last.id).end))
    requires forall c :: c in front ==> c.id != last.id
    ensures Orderly(front + [last], run, b + more)
  {
    var all := b + more;
    assert forall s :: s in all ==> s in b || s == more[0] || s == more[1];
    forall i | 0 <= i < |all| && all[i].Started? ensures all[i].cell.id !in StartedIn(all[..i]) {
      assert all[..i] == if i < |b| then b[..i] else b;
    }
    forall i | 0 <= i < |all| && Stops(all[i]) ensures SafeStop(all[..i], all[i].cell) {
      if i < |b| {
        assert all[..i] == b[..i];
      } else {
        assert all[..i] == b + [Started(last)];
        LastMayStop(front, last, run, b);
      }
    }
  }

  lemma {:induction false} LastMayStop(front: seq<Cell>, last: Cell, run: Id -> CellRun, b: seq<Step>)
    requires Orderly(front, run, b) && forall c :: c in front ==> c.id != last.id
    ensures SafeStop(b + [Started(last)], last)
  {
    assert (b + [Started(last)])[|b|] == Started(last);
  }

  lemma {:induction false} NewId(front: seq<Cell>, last: Cell)
    requires UniqueIds(front + [last])
    ensures forall c :: c in front ==> c.id != last.id
  {
    forall c | c in front ensures c.id != last.id {
      var k :| 0 <= k < |front| && front[k] == c;
      assert (front + [last])[k].id != (front + [last])[|front|].id;
    }
  }

  lemma {:induction false} ReadersHaveHistory(readers: seq<Cell>, world: World, round: nat, limits: Budget, p: Position)
    returns (b: seq<Step>)
    requires UniqueIds(readers)
    ensures ReadersHistory(readers, world, round, limits, p, b)
  {
    b := [];
    if readers != [] {
      OneByOneIsBatch(readers, world.run);
      match world.readersStall(round)
      case BeforeStart =>
        b := [StallSeen];
      case Midway(_) =>
        assert Cut(readers, world.run, []) && [] + [StallSeen] == [StallSeen];
        b := [StallSeen];
      case Steady =>
        b := OneByOne(readers, world.run);
        if FirstShort(readers, world.run).None? && ReadersPass(readers, world, round, limits, p).Stop? {
          b := b + [BudgetSeen];
        }
    }
  }

  /** Every call has a history. */
  lemma {:induction false} HistoryExists(cells: seq<Cell>, world: World, limits: Budget, round: nat, rounds: nat,
                                         p: Position)
    returns (t: seq<Step>)
    requires UniqueIds(cells)
    ensures History(cells, world, limits, round, rounds, p, t)
    decreases rounds - round
  {
    var ready := ReadyList(cells, p.done, p.failed, true);
    if round >= rounds || ready == [] {
      t := [];
    } else {
      ReadyFacts(cells, p.done, p.failed);
      var now := RoundHasHistory(ready, world, round, limits, p);
      var later := [];
      match RoundPass(ready, world, round, limits, p) {
        case Stop(_, _, _) =>
        case Go(q) =>
          later := HistoryExists(cells, world, limits, round + 1, rounds, q);
      }
      t := now + later;
      assert HistoryParts(cells, world, limits, round, rounds, p, now, later);
    }
  }

  lemma {:induction false} RoundHasHistory(ready: seq<Cell>, world: World, round: nat, limits: Budget, p: Position)
    returns (b: seq<Step>)
    requires UniqueIds(ready)
    ensures RoundHistory(ready, world, round, limits, p, b)
  {
    var readers, writers := ByMode(ready, ReadOnly), ByMode(ready, Mutating);
    ByModeKeepsUnique(ready, ReadOnly);
    var r := ReadersHaveHistory(readers, world, round, limits, p);
    var w := match ReadersPass(readers, world, round, limits, p)
             case Stop(_, _, _) => []
             case Go(q) => WritersSteps(writers, world, round, limits, q);
    assert RoundParts(ready, world, round, limits, p, r, w);
    b := r + w;
  }

  // What a safe history means.

  lemma {:induction false} PositionIn(t: seq<Step>, i: nat, s: Step) returns (j: nat)
    requires i <= |t| && s in t[..i]
    ensures j < i && t[j] == s
  {
    j :| 0 <= j < i && t[..i][j] == s;
  }

  /** No cell starts twice. */
  lemma {:induction false} StartedOnce(t: seq<Step>, init: set<Id>, i: nat, j: nat)
    requires TraceSafe(t, init) && i < j < |t| && t[i].Started? && t[j].Started?
    ensures t[i].cell.id != t[j].cell.id
  {
    assert SafeStep(t[..j], init, t[j]);
    assert t[..j][i] == t[i] && t[i] in t[..j];
    assert t[i].cell.id in StartedIn(t[..j]);
  }

  /** What stops has started before. */
  lemma {:induction false} StoppedAfterStart(t: seq<Step>, init: set<Id>, k: nat) returns (i: nat)
    requires TraceSafe(t, init) && k < |t| && Stops(t[k])
    ensures i < k && t[i] == Started(t[k].cell)
  {
    assert SafeStep(t[..k], init, t[k]);
    i := PositionIn(t, k, Started(t[k].cell));
  }

  /** A cell starts only after each dependency has started and then completed, or was complete at the start. */
  lemma {:induction false} StartedAfterDependencies(t: seq<Step>, init: set<Id>, i: nat, dep: Id)
    requires TraceSafe(t, init) && i < |t| && t[i].Started? && dep in t[i].cell.dependencies && dep !in init
    ensures exists k, j :: 0 <= k < j < i && t[k].Started? && t[k].cell.id == dep &&
              t[j].Ended? && t[j].cell == t[k].cell && Counts(t[j].cell, t[j].end)
  {
    assert SafeStep(t[..i], init, t[i]);
    var s :| s in t[..i] && s.Ended? && Counts(s.cell, s.end) && s.cell.id == dep;
    var j := PositionIn(t, i, s);
    var k := StoppedAfterStart(t, init, j);
    assert t[k] == Started(s.cell);
  }

  /** Between the start of a writer and any other start, whatever started first has stopped. */
  lemma {:induction false} WriterRunsAlone(t: seq<Step>, init: set<Id>, i: nat, j: nat)
    requires TraceSafe(t, init) && i < j < |t| && t[i].Started? && t[j].Started?
    requires t[i].cell.mode.Mutating? || t[j].cell.mode.Mutating?
    ensures exists k :: i < k < j && Stops(t[k]) && t[k].cell == t[i].cell
  {
    assert SafeStep(t[..j], init, t[j]);
    assert t[..j][i] == t[i] && t[i] in t[..j];
    var s :| s in t[..j] && Stops(s) && s.cell.id == t[i].cell.id;
    var k := PositionIn(t, j, s);
    var start := StoppedAfterStart(t, init, k);
    SameStart(t, init, start, i);
  }

  lemma {:induction false} SameStart(t: seq<Step>, init: set<Id>, i: nat, j: nat)
    requires TraceSafe(t, init) && i < |t| && j < |t| && t[i].Started? && t[j].Started?
    ensures t[i].cell.id == t[j].cell.id ==> i == j
  {
    if i < j {
      StartedOnce(t, init, i, j);
    } else if j < i {
      StartedOnce(t, init, j, i);
    }
  }

  // Completed does not always mean done.

  /** The dependencies of a step that starts a cell, all of them run to success. */
  ghost predicate DependenciesDone(t: seq<Step>, init: set<Id>, i: nat)
    requires i < |t| && t[i].Started?
  {
    forall d :: d in t[i].cell.dependencies && d !in init ==>
      exists s :: s in t[..i] && s.Ended? && s.cell.id == d && s.end.Done?
  }

  /** A cell starts after its dependencies succeeded if and only if none of them was a reader that was cancelled. */
  lemma {:induction false} DependenciesDoneIff(t: seq<Step>, init: set<Id>, run: Id -> CellRun, i: nat)
    requires TraceSafe(t, init) && Truthful(t, run) && i < |t| && t[i].Started?
    ensures DependenciesDone(t, init, i) <==>
            forall d :: d in t[i].cell.dependencies && d !in init ==> !run(d).end.Cancelled?
  {
    assert SafeStep(t[..i], init, t[i]);
    forall d | d in t[i].cell.dependencies && d !in init
      ensures (exists s :: s in t[..i] && s.Ended? && s.cell.id == d && s.end.Done?) <==> !run(d).end.Cancelled?
    {
      assert d in CompletedIn(t[..i]);
      var s :| s in t[..i] && s.Ended? && Counts(s.cell, s.end) && s.cell.id == d;
      assert s in t && s.end == run(d).end;
      forall u | u in t[..i] && u.Ended? && u.cell.id == d ensures u.end == run(d).end {
        assert u in t;
      }
    }
  }
}
