/** The cache of projected runs that live views poll. */
module Projections {
  import opened Domain
  import opened Events

  const PAGE: nat := 500

  /** The cached entry of a run: how many of its events are folded, and the state they give. */
  datatype Entry<H> = Entry(cursor: nat, state: RunState<H>)

  /** An entry is right for a run when it is the full replay of the events before its cursor. */
  ghost predicate Right<H>(entry: Entry<H>, events: seq<Envelope<H>>) {
    entry.cursor <= |events| && FoldAll(NewRun(), events[..entry.cursor]) == Ok(entry.state)
  }

  /** What a page of events after the cursor is, when the ledger numbers events from 1. */
  function Page<H>(events: seq<Envelope<H>>, cursor: nat): seq<Envelope<H>>
    requires cursor <= |events|
  {
    events[cursor..Min(cursor + PAGE, |events|)]
  }

  lemma {:induction false} ColdIsRight<H>(events: seq<Envelope<H>>)
    ensures Right(Entry(0, NewRun()), events)
  {
    assert events[..0] == [];
  }

  /** Folding a page onto a right entry is folding the run up to the end of the page. */
  lemma {:induction false} PageContinues<H>(entry: Entry<H>, events: seq<Envelope<H>>)
    requires Right(entry, events)
    ensures var to := Min(entry.cursor + PAGE, |events|);
            var folded := FoldAll(entry.state, Page(events, entry.cursor));
            && folded == FoldAll(NewRun(), events[..to]) && entry.cursor + |Page(events, entry.cursor)| == to
            && (folded.Ok? ==> Right(Entry(to, folded.state), events) && folded.state.eventsReplayed == to)
  {
    var to := Min(entry.cursor + PAGE, |events|);
    FoldAppend(NewRun<H>(), events[..entry.cursor], Page(events, entry.cursor));
    assert events[..entry.cursor] + Page(events, entry.cursor) == events[..to];
    if FoldAll(NewRun<H>(), events[..to]).Ok? {
      FoldCounts(NewRun<H>(), events[..to]);
    }
  }

  class ProjectionCache<H> {
    var states: map<Id, Entry<H>>

    constructor ()
      ensures states == map[]
    {
      states := map[];
    }

    /** Every entry is right for the events that its run has in the ledger. */
    ghost predicate Valid(ledger: map<Id, seq<Envelope<H>>>)
      reads this
    {
      AllRight(states, ledger)
    }

    function Cursor(run: Id): nat
      reads this
    {
      if run in states then states[run].cursor else 0
    }

    /** Folds the tail onto the cached state; a refused fold leaves the cache as it was. */
    method Project(run: Id, tail: seq<Envelope<H>>) returns (folded: Folded<H>)
      modifies this
      ensures folded == FoldAll(if run in old(states) then old(states)[run].state else NewRun(), tail)
      ensures states == if folded.Ok? then old(states)[run := Entry(old(Cursor(run)) + |tail|, folded.state)]
        else old(states)
    {
      var entry := if run in states then states[run] else Entry(0, NewRun());
      folded := FoldEvents(entry.state, tail);
      if folded.Ok? {
        states := states[run := Entry(entry.cursor + |tail|, folded.state)];
      }
    }

    method Invalidate(run: Id)
      modifies this
      ensures states == old(states) - {run}
    {
      states := states - {run};
    }

    /** One poll: read the cursor, read a page after it, project. The ledger does not change meanwhile. */
    method Poll(run: Id, ghost ledger: map<Id, seq<Envelope<H>>>, events: seq<Envelope<H>>) returns (folded: Folded<H>)
      requires Valid(ledger) && run in ledger && ledger[run] == events
      modifies this
      ensures Valid(ledger)
      ensures folded.Ok? <==> FoldAll(NewRun(), events[..Min(old(Cursor(run)) + PAGE, |events|)]).Ok?
      ensures folded.Ok? ==> Cursor(run) == Min(old(Cursor(run)) + PAGE, |events|) == folded.state.eventsReplayed
      ensures folded.Ok? ==> FoldAll(NewRun(), events[..Cursor(run)]) == folded
      ensures !folded.Ok? ==> states == old(states)
      ensures forall other :: other != run ==>
        (other in states <==> other in old(states)) && (other in states ==> states[other] == old(states)[other])
    {
      ColdIsRight(events);
      ghost var before := states;
      ghost var entry := if run in states then states[run] else Entry(0, NewRun());
      PageContinues(entry, events);
      folded := Project(run, Page(events, Cursor(run)));
      if folded.Ok? {
        OneMoreRight(before, ledger, run, states[run]);
      }
    }
  }

  ghost predicate AllRight<H>(states: map<Id, Entry<H>>, ledger: map<Id, seq<Envelope<H>>>) {
    forall run :: run in states ==> run in ledger && Right(states[run], ledger[run])
  }

  lemma {:induction false} OneMoreRight<H>(states: map<Id, Entry<H>>, ledger: map<Id, seq<Envelope<H>>>, run: Id,
                                           entry: Entry<H>)
    requires AllRight(states, ledger) && run in ledger && Right(entry, ledger[run])
    ensures AllRight(states[run := entry], ledger)
  {
  }

  /** Appends to the ledger keep every entry right. */
  lemma {:induction false} AppendKeepsRight<H>(entry: Entry<H>, events: seq<Envelope<H>>, more: seq<Envelope<H>>)
    requires Right(entry, events)
    ensures Right(entry, events + more)
  {
    assert (events + more)[..entry.cursor] == events[..entry.cursor];
  }

  /** A right entry counts its events, and its last hash is that of the last one folded. */
  lemma {:induction false} EntryCounts<H>(entry: Entry<H>, events: seq<Envelope<H>>)
    requires Right(entry, events)
    ensures entry.cursor == entry.state.eventsReplayed
    ensures entry.cursor > 0 ==> entry.state.lastHash == Some(events[entry.cursor - 1].hash)
  {
    FoldCounts(NewRun<H>(), events[..entry.cursor]);
  }

  // Every mix of appends, polls and invalidations.

  datatype Op<H> = Append(run: Id, event: Envelope<H>) | PollOnce(run: Id) | Invalidate(run: Id)

  /** The ledger and the cache together. */
  datatype System<H> = System(ledger: map<Id, seq<Envelope<H>>>, cache: map<Id, Entry<H>>)

  function EventsOf<H>(s: System<H>, run: Id): seq<Envelope<H>> { if run in s.ledger then s.ledger[run] else [] }

  function CursorOf<H>(s: System<H>, run: Id): nat { if run in s.cache then s.cache[run].cursor else 0 }

  function StateOf<H>(s: System<H>, run: Id): RunState<H> { if run in s.cache then s.cache[run].state else NewRun() }

  ghost predicate Consistent<H>(s: System<H>) {
    forall run :: run in s.cache ==> Right(s.cache[run], EventsOf(s, run))
  }

  function AfterPoll<H>(s: System<H>, run: Id): System<H>
    requires CursorOf(s, run) <= |EventsOf(s, run)|
  {
    var tail := Page(EventsOf(s, run), CursorOf(s, run));
    match FoldAll(StateOf(s, run), tail)
    case Ok(state) => s.(cache := s.cache[run := Entry(CursorOf(s, run) + |tail|, state)])
    case _ => s
  }

  ghost function Apply<H>(s: System<H>, op: Op<H>): System<H>
    requires Consistent(s)
  {
    PollIsReplay(s, op.run);
    match op
    case Append(run, event) => s.(ledger := s.ledger[run := EventsOf(s, run) + [event]])
    case PollOnce(run) => AfterPoll(s, run)
    case Invalidate(run) => s.(cache := s.cache - {run})
  }

  lemma {:induction false} PollIsReplay<H>(s: System<H>, run: Id)
    requires Consistent(s)
    ensures CursorOf(s, run) <= |EventsOf(s, run)|
    ensures Right(Entry(CursorOf(s, run), StateOf(s, run)), EventsOf(s, run))
    ensures var to := Min(CursorOf(s, run) + PAGE, |EventsOf(s, run)|);
            FoldAll(StateOf(s, run), Page(EventsOf(s, run), CursorOf(s, run))) ==
              FoldAll(NewRun(), EventsOf(s, run)[..to])
  {
    ColdIsRight(EventsOf(s, run));
    PageContinues(Entry(CursorOf(s, run), StateOf(s, run)), EventsOf(s, run));
  }

  lemma {:induction false} PollKeepsConsistent<H>(s: System<H>, run: Id)
    requires Consistent(s)
    ensures CursorOf(s, run) <= |EventsOf(s, run)| && Consistent(AfterPoll(s, run))
  {
    PollIsReplay(s, run);
    var after := AfterPoll(s, run);
    forall other | other in after.cache ensures Right(after.cache[other], EventsOf(after, other)) {
      assert EventsOf(after, other) == EventsOf(s, other);
      if other == run {
        PolledIsRight(s, run);
      }
    }
  }

  lemma {:induction false} PolledIsRight<H>(s: System<H>, run: Id)
    requires Consistent(s) && CursorOf(s, run) <= |EventsOf(s, run)| && run in AfterPoll(s, run).cache
    ensures Right(AfterPoll(s, run).cache[run], EventsOf(s, run))
  {
    ColdIsRight(EventsOf(s, run));
    PageContinues(Entry(CursorOf(s, run), StateOf(s, run)), EventsOf(s, run));
  }

  lemma {:induction false} AppendKeepsConsistent<H>(s: System<H>, run: Id, event: Envelope<H>)
    requires Consistent(s)
    ensures Consistent(s.(ledger := s.ledger[run := EventsOf(s, run) + [event]]))
  {
    if run in s.cache {
      AppendKeepsRight(s.cache[run], EventsOf(s, run), [event]);
    }
  }

  lemma {:induction false} OperationKeepsConsistent<H>(s: System<H>, op: Op<H>)
    requires Consistent(s)
    ensures Consistent(Apply(s, op))
  {
    match op
    case Append(run, event) => AppendKeepsConsistent(s, run, event);
    case PollOnce(run) => PollKeepsConsistent(s, run);
    case Invalidate(run) =>
  }

  /** The system before anything happens. */
  function Fresh<H>(): System<H> { System(map[], map[]) }

  ghost function ApplyAll<H>(ops: seq<Op<H>>): (s: System<H>)
    ensures Consistent(s)
  {
    if ops == [] then Fresh()
    else
      var before := ApplyAll(ops[..|ops| - 1]);
      OperationKeepsConsistent(before, ops[|ops| - 1]);
      Apply(before, ops[|ops| - 1])
  }

  /** The events appended for a run, in order. */
  function AppendedTo<H>(ops: seq<Op<H>>, run: Id): seq<Envelope<H>> {
    if ops == [] then []
    else
      var last := ops[|ops| - 1];
      AppendedTo(ops[..|ops| - 1], run) + if last.Append? && last.run == run then [last.event] else []
  }

  /**
   * Whatever the operations and their order, every cached state is the replay of the first `cursor` events appended.
   */
  lemma {:induction false} OperationsKeepConsistent<H>(ops: seq<Op<H>>, run: Id)
    ensures var s, events := ApplyAll(ops), AppendedTo(ops, run);
            && EventsOf(s, run) == events && CursorOf(s, run) <= |events|
            && FoldAll(NewRun(), events[..CursorOf(s, run)]) == Ok(StateOf(s, run))
            && CursorOf(s, run) == StateOf(s, run).eventsReplayed
  {
    LedgerHasAppended(ops, run);
    PollIsReplay(ApplyAll(ops), run);
    EntryCounts(Entry(CursorOf(ApplyAll(ops), run), StateOf(ApplyAll(ops), run)), EventsOf(ApplyAll(ops), run));
  }

  lemma {:induction false} LedgerHasAppended<H>(ops: seq<Op<H>>, run: Id)
    ensures EventsOf(ApplyAll(ops), run) == AppendedTo(ops, run)
  {
    if ops != [] {
      LedgerHasAppended(ops[..|ops| - 1], run);
    }
  }

  // Polling reaches the full replay.

  function Polls<H>(s: System<H>, run: Id, n: nat): System<H>
    requires CursorOf(s, run) <= |EventsOf(s, run)|
    decreases n
  {
    if n == 0 then s else Polls(AfterPoll(s, run), run, n - 1)
  }

  /** If the whole run replays, a poll moves on by a page. */
  lemma {:induction false} PollMoves<H>(s: System<H>, run: Id)
    requires Consistent(s) && FoldAll(NewRun(), EventsOf(s, run)).Ok?
    ensures CursorOf(s, run) <= |EventsOf(s, run)|
    ensures CursorOf(AfterPoll(s, run), run) == Min(CursorOf(s, run) + 500, |EventsOf(s, run)|)
    ensures EventsOf(AfterPoll(s, run), run) == EventsOf(s, run)
  {
    PollIsReplay(s, run);
    var events, to := EventsOf(s, run), Min(CursorOf(s, run) + PAGE, |EventsOf(s, run)|);
    if FoldAll(NewRun(), events[..to]).IllegalTransition? {
      RefusalStays(NewRun(), events, to);
      assert false;
    }
  }

  /** So enough polls show all of it. */
  lemma {:induction false} PollsReachFullReplay<H>(s: System<H>, run: Id, n: nat)
    requires Consistent(s) && FoldAll(NewRun(), EventsOf(s, run)).Ok?
    requires CursorOf(s, run) <= |EventsOf(s, run)| <= CursorOf(s, run) + n * PAGE
    ensures FoldAll(NewRun(), EventsOf(s, run)) == Ok(StateOf(Polls(s, run, n), run))
    decreases n
  {
    PollIsReplay(s, run);
    if n == 0 {
      assert EventsOf(s, run)[..CursorOf(s, run)] == EventsOf(s, run);
    } else {
      PollMoves(s, run);
      PollKeepsConsistent(s, run);
      PollsReachFullReplay(AfterPoll(s, run), run, n - 1);
    }
  }
}
