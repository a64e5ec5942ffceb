/** A worker's run as a dialogue: how each list sent follows from the one before, what is kept and what is billed. */
module Dialogues {
  import opened Domain
  import opened ToolBatches
  import opened Conversations
  import opened Workers
  import Retry

  // Bills.

  /** Every request counts as a call; an answer adds what the provider bills for it. */
  function Bill(call: CallEnd): Spend {
    if call.Responded? then Spend(call.response.input, call.response.output, call.response.cost, 1)
    else Spend(0, 0, 0.0, 1)
  }

  function Bills(turns: seq<TurnWorld>): Spend {
    if turns == [] then NO_SPEND else Bill(turns[0].call).Plus(Bills(turns[1..]))
  }

  /** A list is sent in each turn, but for a last one that a limit stops. */
  lemma {:induction false} SentByTurns(setup: Setup, s: State, turns: seq<TurnWorld>)
    ensures |RecordFrom(setup, s, turns).sent| <= |turns|
    decreases |turns|
  {
    if turns != [] {
      var turn := TurnOf(setup, s, turns[0]);
      if turn.0.Continues? {
        SentByTurns(setup, turn.1, turns[1..]);
      }
    }
  }

  lemma {:induction false} TurnIsBilled(setup: Setup, s: State, w: TurnWorld)
    ensures var turn := TurnOf(setup, s, w);
            var bill := if MaySend(setup, s, w) then Bill(w.call) else NO_SPEND;
            && SpendOf(turn.1) == SpendOf(s).Plus(bill)
            && (turn.0.Ended? && turn.0.run.Result? ==> turn.0.run.spend == SpendOf(s).Plus(bill))
  {
  }

  /** What a run reports as spent is what was billed for the lists it sent. */
  ghost predicate ReportsBills(before: Spend, record: Record, turns: seq<TurnWorld>) {
    record.run.Some? && record.run.value.Result? ==>
      && |record.sent| <= |turns|
      && record.run.value.spend == before.Plus(Bills(turns[..|record.sent|]))
  }

  lemma {:induction false} SpendIsBilled(setup: Setup, s: State, turns: seq<TurnWorld>)
    ensures ReportsBills(SpendOf(s), RecordFrom(setup, s, turns), turns)
    decreases |turns|
  {
    if turns != [] {
      var turn := TurnOf(setup, s, turns[0]);
      TurnIsBilled(setup, s, turns[0]);
      if turn.0.Continues? {
        TurnGrows(setup, s, turns[0]);
        SpendIsBilled(setup, turn.1, turns[1..]);
        BillsBefore(SpendOf(s), SpendOf(turn.1), turns, RecordFrom(setup, turn.1, turns[1..]),
                    RecordFrom(setup, s, turns));
      } else {
        LastBill(SpendOf(s), turns, RecordFrom(setup, s, turns));
      }
    }
  }

  lemma {:induction false} BillsBefore(before: Spend, after: Spend, turns: seq<TurnWorld>, rest: Record, record: Record)
    requires turns != [] && after == before.Plus(Bill(turns[0].call)) && ReportsBills(after, rest, turns[1..])
    requires record.run == rest.run && |record.sent| == |rest.sent| + 1
    ensures ReportsBills(before, record, turns)
  {
    if record.run.Some? && record.run.value.Result? {
      OneMoreBill(before, after, turns, |rest.sent|);
    }
  }

  lemma {:induction false} LastBill(before: Spend, turns: seq<TurnWorld>, record: Record)
    requires turns != [] && |record.sent| <= 1
    requires record.run.Some? && record.run.value.Result? ==>
      record.run.value.spend == before.Plus(if record.sent == [] then NO_SPEND else Bill(turns[0].call))
    ensures ReportsBills(before, record, turns)
  {
    OneBill(turns);
  }

  lemma {:induction false} OneMoreBill(before: Spend, after: Spend, turns: seq<TurnWorld>, n: nat)
    requires turns != [] && n < |turns| && after == before.Plus(Bill(turns[0].call))
    ensures after.Plus(Bills(turns[1..][..n])) == before.Plus(Bills(turns[..n + 1]))
  {
    assert turns[..n + 1][1..] == turns[1..][..n];
    PlusAssociates(before, Bill(turns[0].call), Bills(turns[1..][..n]));
  }

  lemma {:induction false} OneBill(turns: seq<TurnWorld>)
    requires turns != []
    ensures Bills(turns[..1]) == Bill(turns[0].call) && Bills(turns[..0]) == NO_SPEND
  {
    assert turns[..1][1..] == [];
    PlusAssociates(Bill(turns[0].call), NO_SPEND, NO_SPEND);
  }

  // Rounds.

  /** The provider called tools and all of them answered. */
  predicate RoundFinished(setup: Setup, w: TurnWorld) {
    && w.call.Responded? && w.call.response.calls != [] && !w.tools.ToolsRaise?
    && (w.tools.ToolsWallTime? ==> w.tools.batches >= |BatchesOf(w.call.response.calls, setup.mutating)|)
  }

  /** A list, the message that calls tools, and the answer to each call. */
  ghost predicate AfterRound(messages: seq<Message>, w: TurnWorld, after: seq<Message>)
    requires w.call.Responded?
  {
    var r := w.call.response;
    && |after| == |messages| + 1 + |r.calls| && messages <= after
    && after[|messages|] == Message(Assistant, r.text, r.calls, "")
    && forall k :: 0 <= k < |r.calls| ==>
         after[|messages| + 1 + k] == Message(Tool, w.answer(r.calls[k]), [], r.calls[k].id)
  }

  /** What the model said, as it is kept: nothing if it said nothing and no schema asked for it. */
  function Said(setup: Setup, text: string): seq<Message> {
    if text == "" && !setup.hasSchema then [] else [Message(Assistant, text, [], "")]
  }

  /** How a list grows in a turn that is not the last: by a tool round, or by an answer and a request of the user's. */
  ghost predicate Grows(setup: Setup, messages: seq<Message>, w: TurnWorld, after: seq<Message>) {
    && w.call.Responded?
    && if w.call.response.calls != [] then RoundFinished(setup, w) && AfterRound(messages, w, after)
       else exists request :: after == messages + Said(setup, w.call.response.text) + [Message(User, request, [], "")]
  }

  lemma {:induction false} TurnGrows(setup: Setup, s: State, w: TurnWorld)
    requires TurnOf(setup, s, w).0.Continues?
    ensures MaySend(setup, s, w) && w.call.Responded?
    ensures Grows(setup, Fitted(setup, s).messages, w, TurnOf(setup, s, w).1.messages)
    ensures TurnOf(setup, s, w).1.rounds == s.rounds + if RoundFinished(setup, w) then 1 else 0
  {
    var called := Called(Fitted(setup, s));
    ResponseGrows(setup, Billed(called, w.call.response), w, w.call.response);
  }

  lemma {:induction false} ResponseGrows(setup: Setup, s: State, w: TurnWorld, r: Response)
    requires w.call == Responded(r) && AfterResponse(setup, s, w, r).0.Continues?
    ensures Grows(setup, s.messages, w, AfterResponse(setup, s, w, r).1.messages)
    ensures AfterResponse(setup, s, w, r).1.rounds == s.rounds + if RoundFinished(setup, w) then 1 else 0
  {
    if r.calls == [] {
      AskedGrows(setup, s, r, w.parse);
    } else {
      ToolsGrow(setup, s, w, r);
    }
  }

  lemma {:induction false} ToolsGrow(setup: Setup, s: State, w: TurnWorld, r: Response)
    requires w.call == Responded(r) && r.calls != [] && AfterTools(setup, s, w, r).0.Continues?
    ensures RoundFinished(setup, w) && AfterRound(s.messages, w, AfterTools(setup, s, w, r).1.messages)
    ensures AfterTools(setup, s, w, r).1.rounds == s.rounds + 1
  {
    RoundIsAfter(s.messages, w, r);
  }

  lemma {:induction false} RoundIsAfter(messages: seq<Message>, w: TurnWorld, r: Response)
    requires w.call == Responded(r)
    ensures AfterRound(messages, w,
                       messages + [Message(Assistant, r.text, r.calls, "")] + Workers.Answers(r.calls, w.answer))
  {
  }

  lemma {:induction false} AskedGrows(setup: Setup, s: State, r: Response, parse: Parse)
    requires setup.hasSchema ==> parse.Rejected?
    ensures exists request ::
      Asked(setup, s, r, parse).messages == s.messages + Said(setup, r.text) + [Message(User, request, [], "")]
  {
    if setup.hasSchema {
      assert Asked(setup, s, r, parse).messages ==
        s.messages + Said(setup, r.text) + [Message(User, RepairRequest(parse.reason), [], "")];
    } else {
      assert s.messages + [] == s.messages;
      assert Asked(setup, s, r, parse).messages ==
        s.messages + Said(setup, r.text) + [Message(User, Nudge(s.truncations + 1), [], "")];
    }
  }

  /** A list as it is sent: as it grew, or shortened to fit the window, with the rounds that are gone told of. */
  ghost predicate SentAs(setup: Setup, messages: seq<Message>, sent: seq<Message>) {
    if !Triggers(setup.estimate, setup.window, messages) then sent == messages
    else exists steps, total :: ShortenedTo(setup, steps, total, messages, sent)
  }

  ghost predicate ShortenedTo(setup: Setup, steps: seq<seq<Message>>, total: nat, messages: seq<Message>,
                              sent: seq<Message>)
  {
    && DropTrace(steps) && steps[0] == messages && HasObjective(messages)
    && (forall k :: 0 <= k < |steps| - 1 ==> CanDrop(setup.estimate, setup.window, steps[k]))
    && var n, last := |steps| - 1, steps[|steps| - 1];
       && !CanDrop(setup.estimate, setup.window, last) && total >= n
       && if n == 0 then sent == messages
          else HasObjective(last) && Retold(last, sent, Noted(Objective(messages), total))
  }

  lemma {:induction false} FittedIsSent(setup: Setup, s: State)
    requires Sendable(s.messages)
    ensures SentAs(setup, s.messages, Fitted(setup, s).messages)
  {
    if Triggers(setup.estimate, setup.window, s.messages) {
      var steps := ShrunkTrace(setup.estimate, setup.window, s.messages);
      ShrunkCannotDrop(setup.estimate, setup.window, s.messages);
      TraceIsShortening(setup, steps, s, Fitted(setup, s).messages);
    }
  }

  lemma {:induction false} TraceIsShortening(setup: Setup, steps: seq<seq<Message>>, s: State, sent: seq<Message>)
    requires Sendable(s.messages) && DropTrace(steps) && steps[0] == s.messages
    requires forall k :: 0 <= k < |steps| - 1 ==> CanDrop(setup.estimate, setup.window, steps[k])
    requires !CanDrop(setup.estimate, setup.window, steps[|steps| - 1])
    requires var n, last := |steps| - 1, steps[|steps| - 1];
             sent == if n > 0 then NotedIfAny(last, s.elided + n) else last
    ensures ShortenedTo(setup, steps, s.elided + |steps| - 1, s.messages, sent)
  {
    SameObjective(steps, |steps| - 1);
  }

  /** From one list to the next: what was sent grows by the turn, and is sent again as it fits. */
  ghost predicate FollowsBy(setup: Setup, sent: seq<Message>, w: TurnWorld, next: seq<Message>) {
    exists grown :: Grows(setup, sent, w, grown) && SentAs(setup, grown, next)
  }

  lemma {:induction false} SecondFollows(setup: Setup, s: State, turns: seq<TurnWorld>)
    requires Sendable(s.messages) && turns != [] && TurnOf(setup, s, turns[0]).0.Continues?
    requires RecordFrom(setup, TurnOf(setup, s, turns[0]).1, turns[1..]).sent != []
    ensures FollowsBy(setup, Fitted(setup, s).messages, turns[0],
                      RecordFrom(setup, TurnOf(setup, s, turns[0]).1, turns[1..]).sent[0])
  {
    TurnKeepsAll(setup, s, turns[0]);
    TurnGrows(setup, s, turns[0]);
    var next := TurnOf(setup, s, turns[0]).1;
    FirstIsFitted(setup, next, turns[1..]);
    FittedIsSent(setup, next);
  }

  /** A run that sends a second list goes on after its first turn, and the rest of it is a run. */
  lemma {:induction false} SendsOn(setup: Setup, s: State, turns: seq<TurnWorld>)
    requires Sendable(s.messages) && 1 < |RecordFrom(setup, s, turns).sent|
    ensures turns != [] && TurnOf(setup, s, turns[0]).0.Continues?
    ensures var next := TurnOf(setup, s, turns[0]).1;
            && Sendable(next.messages)
            && RecordFrom(setup, s, turns).sent ==
                 [Fitted(setup, s).messages] + RecordFrom(setup, next, turns[1..]).sent
  {
    TurnKeepsAll(setup, s, turns[0]);
    TurnGrows(setup, s, turns[0]);
  }

  /** Every list that a run sends continues the one before. */
  lemma {:induction false} SentContinues(setup: Setup, s: State, turns: seq<TurnWorld>, i: nat)
    requires Sendable(s.messages) && i + 1 < |RecordFrom(setup, s, turns).sent| <= |turns|
    ensures var sent := RecordFrom(setup, s, turns).sent;
            FollowsBy(setup, sent[i], turns[i], sent[i + 1])
    decreases |turns|
  {
    SendsOn(setup, s, turns);
    if i == 0 {
      SecondFollows(setup, s, turns);
    } else {
      var next := TurnOf(setup, s, turns[0]).1;
      SentByTurns(setup, next, turns[1..]);
      SentContinues(setup, next, turns[1..], i - 1);
      assert turns[1..][i - 1] == turns[i];
    }
  }

  // Checkpoints.

  /** How many of the first turns finished a tool round. */
  function RoundsIn(setup: Setup, turns: seq<TurnWorld>, n: nat): nat
    requires n <= |turns|
  {
    if n == 0 then 0 else (if RoundFinished(setup, turns[0]) then 1 else 0) + RoundsIn(setup, turns[1..], n - 1)
  }

  /** A checkpoint is kept for every finished tool round and for nothing else: the list sent, the calls, the answers. */
  ghost predicate KeepsRounds(setup: Setup, record: Record, turns: seq<TurnWorld>) {
    && |record.sent| <= |turns| && |record.checkpoints| == RoundsIn(setup, turns, |record.sent|)
    && forall i :: 0 <= i < |record.sent| && RoundFinished(setup, turns[i]) ==>
         IsKept(record.checkpoints, record.sent[i], turns[i])
  }

  ghost predicate IsKept(checkpoints: seq<seq<Message>>, sent: seq<Message>, w: TurnWorld)
    requires w.call.Responded?
  {
    exists c :: c in checkpoints && AfterRound(sent, w, c)
  }

  lemma {:induction false} RoundGoesOn(setup: Setup, s: State, w: TurnWorld)
    requires MaySend(setup, s, w) && RoundFinished(setup, w)
    ensures TurnOf(setup, s, w).0.Continues?
  {
  }

  lemma {:induction false} CheckpointsAreRounds(setup: Setup, s: State, turns: seq<TurnWorld>)
    ensures KeepsRounds(setup, RecordFrom(setup, s, turns), turns)
    decreases |turns|
  {
    SentByTurns(setup, s, turns);
    if turns != [] {
      var turn := TurnOf(setup, s, turns[0]);
      if turn.0.Continues? {
        TurnGrows(setup, s, turns[0]);
        CheckpointsAreRounds(setup, turn.1, turns[1..]);
        KeepsOneMore(setup, Fitted(setup, s).messages, turns, KeptBetween(s, turn.1),
                     RecordFrom(setup, turn.1, turns[1..]), RecordFrom(setup, s, turns));
      } else if MaySend(setup, s, turns[0]) && RoundFinished(setup, turns[0]) {
        RoundGoesOn(setup, s, turns[0]);
      }
    }
  }

  lemma {:induction false} KeepsOneMore(setup: Setup, first: seq<Message>, turns: seq<TurnWorld>,
                                        kept: seq<seq<Message>>, rest: Record, record: Record)
    requires turns != [] && KeepsRounds(setup, rest, turns[1..])
    requires record.sent == [first] + rest.sent && record.checkpoints == kept + rest.checkpoints
    requires |kept| == if RoundFinished(setup, turns[0]) then 1 else 0
    requires RoundFinished(setup, turns[0]) ==> AfterRound(first, turns[0], kept[0])
    ensures KeepsRounds(setup, record, turns)
  {
    forall i | 0 <= i < |record.sent| && RoundFinished(setup, turns[i])
      ensures IsKept(record.checkpoints, record.sent[i], turns[i])
    {
      if i == 0 {
        assert kept[0] in record.checkpoints;
      } else {
        assert turns[i] == turns[1..][i - 1] && IsKept(rest.checkpoints, rest.sent[i - 1], turns[1..][i - 1]);
      }
    }
  }

  // The end.

  /** What a run hands on: the last list sent, with the answer to it if that was the last word. */
  ghost predicate HandsOnLast(setup: Setup, sent: seq<Message>, w: TurnWorld, run: Run)
    requires run.Result?
  {
    run.history == Some(if w.call.Responded? && w.call.response.text != ""
                        then sent + [Message(Assistant, w.call.response.text, [], "")] else sent)
  }

  lemma {:induction false} ResponseHandsOn(setup: Setup, s: State, w: TurnWorld, r: Response)
    requires w.call == Responded(r) && s.messages != [] && AfterResponse(setup, s, w, r).0.Ended?
    requires EndsByItself(Some(AfterResponse(setup, s, w, r).0.run))
    ensures HandsOnLast(setup, s.messages, w, AfterResponse(setup, s, w, r).0.run)
  {
  }

  lemma {:induction false} LastTurnHandsOn(setup: Setup, s: State, w: TurnWorld)
    requires Sendable(s.messages) && TurnOf(setup, s, w).0.Ended? && EndsByItself(Some(TurnOf(setup, s, w).0.run))
    ensures MaySend(setup, s, w) && HandsOnLast(setup, Fitted(setup, s).messages, w, TurnOf(setup, s, w).0.run)
  {
    FittedKeeps(setup, s);
    var called := Called(Fitted(setup, s));
    assert called.messages != [];
    if w.call.Responded? {
      ResponseHandsOn(setup, Billed(called, w.call.response), w, w.call.response);
    }
  }

  /** The run ends by its own result, not because the budget is used up. */
  predicate EndsByItself(run: Option<Run>) {
    run.Some? && run.value.Result? && (run.value.ok || run.value.kind != Retry.BudgetError)
  }

  ghost predicate EndHandsOn(setup: Setup, record: Record, turns: seq<TurnWorld>) {
    && EndsByItself(record.run) && 0 < |record.sent| <= |turns|
    && HandsOnLast(setup, record.sent[|record.sent| - 1], turns[|record.sent| - 1], record.run.value)
  }

  lemma {:induction false} OneTurnBefore(setup: Setup, first: seq<Message>, turns: seq<TurnWorld>, rest: Record,
                                         record: Record)
    requires turns != [] && EndHandsOn(setup, rest, turns[1..])
    requires record.sent == [first] + rest.sent && record.run == rest.run
    ensures EndHandsOn(setup, record, turns)
  {
    var n := |rest.sent|;
    assert record.sent[n] == rest.sent[n - 1] && turns[n] == turns[1..][n - 1];
  }

  /** A run that succeeds, or fails by anything but the budget, hands on everything it sent and was told. */
  lemma {:induction false} EndHandsOnAll(setup: Setup, s: State, turns: seq<TurnWorld>)
    requires Sendable(s.messages) && EndsByItself(RecordFrom(setup, s, turns).run)
    ensures EndHandsOn(setup, RecordFrom(setup, s, turns), turns)
    decreases |turns|
  {
    TurnKeepsAll(setup, s, turns[0]);
    var turn := TurnOf(setup, s, turns[0]);
    if turn.0.Continues? {
      TurnGrows(setup, s, turns[0]);
      EndHandsOnAll(setup, turn.1, turns[1..]);
      OneTurnBefore(setup, Fitted(setup, s).messages, turns, RecordFrom(setup, turn.1, turns[1..]),
                    RecordFrom(setup, s, turns));
    } else {
      LastTurnHandsOn(setup, s, turns[0]);
    }
  }
}
