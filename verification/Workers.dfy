/** The worker's model and tool loop over one conversation. */
module Workers {
  import opened Domain
  import opened ToolBatches
  import opened Conversations
  import opened Retry
  import Budgets
  import C = CellRuns

  const MAX_TRUNCATIONS: nat := 3

  // What the model and the tools may do in one turn.

  datatype Response = Response(text: string, calls: seq<ToolCall>, truncated: bool, input: nat, output: nat,
    cost: Money)

  /** How a gateway call ends; `CallRaises` is any error that is not a provider error. */
  datatype CallEnd = CallWallTime | CallFailed(kind: ErrorKind) | CallRaises | Responded(response: Response)

  /** How parsing a final text against the output schema ends. */
  datatype Parse = Parsed | Rejected(reason: string) | NullDocument

  /** How the tools of a round end: with an answer for each call, or cut short after some batches. */
  datatype ToolsEnd = Answered | ToolsWallTime(batches: nat) | ToolsRaise

  datatype TurnWorld = TurnWorld(wallExpired: bool, call: CallEnd, parse: Parse, answer: ToolCall -> string,
    tools: ToolsEnd)

  /** What stays the same during a run. */
  datatype Setup = Setup(budget: Budget, window: nat, maxOutput: nat, hasSchema: bool,
                         estimate: seq<Message> -> nat, mutating: string -> bool)

  /** What the loop updates. */
  datatype State = State(messages: seq<Message>, calls: nat, rounds: nat, input: nat, output: nat, cost: Money,
                         repaired: bool, truncations: nat, elided: nat)

  type Run = C.WorkerRun<seq<Message>>

  function Plain(role: Role, content: string): Message { Message(role, content, [], "") }

  function SpendOf(s: State): Spend { Spend(s.input, s.output, s.cost, s.calls) }

  function HistoryOf(messages: seq<Message>): Option<seq<Message>> { if messages == [] then None else Some(messages) }

  function Failure(s: State, kind: ErrorKind): Run { C.Result(false, kind, SpendOf(s), HistoryOf(s.messages)) }

  /** The history with the final text, unless that is empty. */
  function WithFinal(s: State, text: string): State {
    if text == "" then s else s.(messages := s.messages + [Plain(Assistant, text)])
  }

  /** The conversation may be sent, kept as a checkpoint, or carried to another attempt. */
  predicate Sendable(messages: seq<Message>) { WellPaired(messages) && HasObjective(messages) }

  lemma {:induction false} AddPlain(messages: seq<Message>, role: Role, content: string)
    requires Sendable(messages) && (role.Assistant? || role.User?)
    ensures Sendable(messages + [Plain(role, content)])
  {
    var more := messages + [Plain(role, content)];
    assert more[..|messages|] == messages;
    SamePrefixSamePinned(messages, more);
  }

  // Answering the calls of a round.

  function Answers(calls: seq<ToolCall>, answer: ToolCall -> string): (m: seq<Message>)
    ensures |m| == |calls|
    ensures forall i :: 0 <= i < |calls| ==> m[i] == Message(Tool, answer(calls[i]), [], calls[i].id)
  {
    seq(|calls|, i requires 0 <= i < |calls| => Message(Tool, answer(calls[i]), [], calls[i].id))
  }

  /** Answering the first calls leaves the others waiting. */
  lemma {:induction false} AnswersLeave(waiting: seq<string>, messages: seq<Message>)
    requires |messages| <= |waiting|
    requires forall i :: 0 <= i < |messages| ==> messages[i].role.Tool? && messages[i].answers == waiting[i]
    ensures After(Some(waiting), messages) == Some(waiting[|messages|..])
  {
    if messages != [] {
      AnswersLeave(waiting, messages[..|messages| - 1]);
      assert waiting[|messages| - 1..][1..] == waiting[|messages|..];
    }
  }

  lemma {:induction false} RoundIsPaired(messages: seq<Message>, text: string, calls: seq<ToolCall>,
                                         answer: ToolCall -> string)
    requires Sendable(messages)
    ensures Sendable(messages + [Message(Assistant, text, calls, "")] + Answers(calls, answer))
  {
    var asked := messages + [Message(Assistant, text, calls, "")];
    var all := asked + Answers(calls, answer);
    assert asked[..|messages|] == messages;
    assert After(Some([]), asked) == Some(CallIds(calls));
    AfterAppend(Some([]), asked, Answers(calls, answer));
    AnswersLeave(CallIds(calls), Answers(calls, answer));
    assert CallIds(calls)[|calls|..] == [];
    assert all[..Pinned(messages)] == messages[..Pinned(messages)];
    SamePrefixSamePinned(messages, all);
  }

  // What a turn does, as functions of where it starts and of what the model and the tools do.

  datatype TurnEnd = Ended(run: Run) | Continues

  /** A run that ends hands on a conversation that may be sent again, unless the budget ended it. */
  predicate HandsOn(run: Run) {
    run.Result? && run.kind != BudgetError && run.history.Some? ==> Sendable(run.history.value)
  }

  /** The conversation and the total after compaction; the note tells the total. */
  function Fitted(setup: Setup, s: State): State {
    var compaction := CompactionOf(setup.estimate, setup.window, s.messages);
    var total := s.elided + compaction.1;
    s.(messages := if compaction.1 > 0 then NotedIfAny(compaction.0, total) else compaction.0, elided := total)
  }

  /** Tokens that the provider may still produce; not positive when the budget cannot cover the input. */
  function AvailableOutput(setup: Setup, s: State): int {
    if setup.budget.tokenLimit.Some?
    then setup.budget.tokenLimit.value - s.input - s.output - setup.estimate(s.messages)
    else setup.maxOutput
  }

  /** The provider bills no more input than estimated and no more output than asked for. */
  predicate Honest(setup: Setup, s: State, call: CallEnd) {
    call.Responded? ==>
      call.response.input <= setup.estimate(s.messages) &&
      call.response.output <= Min(AvailableOutput(setup, s), setup.maxOutput)
  }

  predicate OutOfCalls(b: Budget, s: State) { b.maxCalls > 0 && s.calls >= b.maxCalls }

  /** The run may not send anything more. */
  predicate Exhausted(b: Budget, s: State, w: TurnWorld) {
    w.wallExpired || OutOfCalls(b, s) || (b.maxToolRounds > 0 && s.rounds >= b.maxToolRounds)
  }

  /** No limit stands in the way of a request, once the conversation is fitted. */
  predicate MaySend(setup: Setup, s: State, w: TurnWorld) {
    !Exhausted(setup.budget, s, w) && AvailableOutput(setup, Fitted(setup, s)) > 0
  }

  /** A final text is not the end: it may be repaired once, or was truncated and may be tried again. */
  predicate AsksAgain(setup: Setup, s: State, r: Response, parse: Parse) {
    && !OutOfCalls(setup.budget, s)
    && if setup.hasSchema then parse.Rejected? && !s.repaired else r.truncated && s.truncations + 1 < 3
  }

  predicate Accepts(setup: Setup, r: Response, parse: Parse) {
    if setup.hasSchema then parse.Parsed? else !r.truncated
  }

  /** What the model is told after a truncated turn, shortened; the second wording is used from then on. */
  function Nudge(truncations: nat): string {
    if truncations <= 1 then "truncated: answer now" else "truncated again: act"
  }

  /** What the model is told, once, when its answer does not match the output schema; shortened too. */
  function RepairRequest(reason: string): string { "failed validation: " + reason }

  /** The state in which the model is asked again. */
  function Asked(setup: Setup, s: State, r: Response, parse: Parse): State
    requires setup.hasSchema ==> parse.Rejected?
  {
    if setup.hasSchema then
      var messages := s.messages + [Plain(Assistant, r.text)] + [Plain(User, RepairRequest(parse.reason))];
      s.(messages := messages, repaired := true)
    else
      var messages := WithFinal(s, r.text).messages + [Plain(User, Nudge(s.truncations + 1))];
      s.(messages := messages, truncations := s.truncations + 1)
  }

  function Judged(setup: Setup, s: State, r: Response, parse: Parse): (TurnEnd, State) {
    if AsksAgain(setup, s, r, parse) then (Continues, Asked(setup, s, r, parse))
    else
      var final := WithFinal(s, r.text);
      var accepted := C.Result(true, UnknownError(""), SpendOf(s), HistoryOf(final.messages));
      var kind := if setup.hasSchema then SchemaError else ProviderError;
      (Ended(if Accepts(setup, r, parse) then accepted else Failure(final, kind)), s)
  }

  /** Wall time ends the round before all its batches are answered. */
  predicate CutShort(setup: Setup, w: TurnWorld, calls: seq<ToolCall>) {
    w.tools.ToolsWallTime? && w.tools.batches < |BatchesOf(calls, setup.mutating)|
  }

  function AskedTools(s: State, r: Response): seq<Message> {
    s.messages + [Message(Assistant, r.text, r.calls, "")]
  }

  function AfterTools(setup: Setup, s: State, w: TurnWorld, r: Response): (TurnEnd, State) {
    if w.tools.ToolsRaise? then (Ended(C.RaisedError), s)
    else if CutShort(setup, w, r.calls) then
      var batches := BatchesOf(r.calls, setup.mutating)[..w.tools.batches];
      (Ended(Failure(s.(messages := AskedTools(s, r) + Answers(Concat(batches), w.answer)), BudgetError)), s)
    else
      var messages := AskedTools(s, r) + Answers(r.calls, w.answer);
      (Continues, s.(messages := messages, rounds := s.rounds + 1, truncations := 0))
  }

  function AfterResponse(setup: Setup, s: State, w: TurnWorld, r: Response): (TurnEnd, State) {
    if r.calls == [] then Judged(setup, s, r, w.parse) else AfterTools(setup, s, w, r)
  }

  function Called(s: State): State { s.(calls := s.calls + 1) }

  function Billed(s: State, r: Response): State {
    s.(input := s.input + r.input, output := s.output + r.output, cost := s.cost + r.cost)
  }

  /** After a request. */
  function AfterCall(setup: Setup, s: State, w: TurnWorld): (TurnEnd, State) {
    match w.call
    case CallWallTime => (Ended(Failure(s, BudgetError)), s)
    case CallFailed(kind) => (Ended(Failure(s, kind)), s)
    case CallRaises => (Ended(C.RaisedError), s)
    case Responded(r) => AfterResponse(setup, Billed(s, r), w, r)
  }

  function TurnOf(setup: Setup, s: State, w: TurnWorld): (TurnEnd, State) {
    if MaySend(setup, s, w) then AfterCall(setup, Called(Fitted(setup, s)), w)
    else
      var last := if Exhausted(setup.budget, s, w) then s else Fitted(setup, s);
      (Ended(Failure(last, BudgetError)), last)
  }

  // A run.

  /** What a run leaves: how it ended, the lists it sent, and the conversation after each finished tool round. */
  datatype Record = Record(run: Option<Run>, sent: seq<seq<Message>>, checkpoints: seq<seq<Message>>)

  function Preceded(sent: seq<seq<Message>>, checkpoints: seq<seq<Message>>, rest: Record): Record {
    Record(rest.run, sent + rest.sent, checkpoints + rest.checkpoints)
  }

  function SentIn(setup: Setup, s: State, w: TurnWorld): seq<seq<Message>> {
    if MaySend(setup, s, w) then [Fitted(setup, s).messages] else []
  }

  /** A run goes on after a tool round, with a checkpoint, and when the model is asked again, without one. */
  function KeptBetween(s: State, next: State): seq<seq<Message>> {
    if next.rounds > s.rounds then [next.messages] else []
  }

  /** A run from a state on; it has no end if the script ends first. */
  function RecordFrom(setup: Setup, s: State, turns: seq<TurnWorld>): Record
    decreases |turns|
  {
    if turns == [] then Record(None, [], [])
    else
      var turn := TurnOf(setup, s, turns[0]);
      if turn.0.Ended? then Record(Some(turn.0.run), SentIn(setup, s, turns[0]), [])
      else Preceded(SentIn(setup, s, turns[0]), KeptBetween(s, turn.1), RecordFrom(setup, turn.1, turns[1..]))
  }

  /** Every answer of the provider was honest. */
  predicate HonestFrom(setup: Setup, s: State, turns: seq<TurnWorld>)
    decreases |turns|
  {
    turns == [] ||
    var turn := TurnOf(setup, s, turns[0]);
    && (MaySend(setup, s, turns[0]) ==> Honest(setup, Called(Fitted(setup, s)), turns[0].call))
    && (turn.0.Continues? ==> HonestFrom(setup, turn.1, turns[1..]))
  }

  /** What one attempt is given, and what the model and the tools do in it. */
  datatype Script = Script(setup: Setup, profileError: Option<ErrorKind>, system: string, objective: string,
                           turns: seq<TurnWorld>)

  /** Where a run starts: the conversation handed to it, or the objective after the system prompt. */
  function Opening(system: string, objective: string, resume: Option<seq<Message>>): seq<Message> {
    if resume.Some? && resume.value != [] then resume.value
    else (if system != "" then [Plain(System, system)] else []) + [Plain(User, objective)]
  }

  lemma {:induction false} OpeningIsSendable(system: string, objective: string, resume: Option<seq<Message>>)
    requires resume.Some? && resume.value != [] ==> Sendable(resume.value)
    ensures Sendable(Opening(system, objective, resume))
  {
    if resume.None? || resume.value == [] {
      var m := Opening(system, objective, None);
      SystemsAre(m, |m| - 1);
      NoCallsNoWaiting(m);
    }
  }

  function Start(script: Script, resume: Option<seq<Message>>): State {
    State(Opening(script.system, script.objective, resume), 0, 0, 0, 0, 0.0, false, 0, 0)
  }

  function RecordOf(script: Script, resume: Option<seq<Message>>): Record {
    var start := Start(script, resume);
    if script.profileError.Some? then
      Record(Some(Failure(start.(messages := []), script.profileError.value)), [], [])
    else RecordFrom(script.setup, start, script.turns)
  }

  // The loop.

  /** Compaction before a turn. */
  method Fit(setup: Setup, s: State) returns (fitted: State)
    requires Sendable(s.messages)
    ensures fitted == Fitted(setup, s) && fitted == s.(messages := fitted.messages, elided := fitted.elided)
    ensures fitted.elided >= s.elided && Compacted(s.messages, fitted.messages, fitted.elided - s.elided, fitted.elided)
  {
    var messages, dropped := CompactAndNote(setup, s.messages, s.elided);
    fitted := s.(messages := messages, elided := s.elided + dropped);
  }

  /** Drops rounds and notes on the objective how many are gone altogether. */
  method CompactAndNote(setup: Setup, messages: seq<Message>, elided: nat) returns (after: seq<Message>, dropped: nat)
    requires Sendable(messages)
    ensures var compaction := CompactionOf(setup.estimate, setup.window, messages);
            && dropped == compaction.1
            && after == if dropped > 0 then NotedIfAny(compaction.0, elided + dropped) else compaction.0
    ensures Compacted(messages, after, dropped, elided + dropped)
  {
    ghost var steps;
    after, dropped, steps := CompactMessages(messages, setup.estimate, setup.window);
    if dropped > 0 {
      CompactedAndNoted(setup, steps, dropped, elided + dropped);
      after := NoteElision(after, elided + dropped);
    }
  }

  /** Exactly `n` rounds are gone, never the last three, and then the objective carries the note of the total. */
  ghost predicate Compacted(messages: seq<Message>, after: seq<Message>, n: nat, total: nat)
    requires HasObjective(messages)
  {
    && Sendable(after)
    && SpanCount(after) == SpanCount(messages) - n
    && if n == 0 then after == messages
       else SpanCount(after) >= MIN_RETAINED_SPANS && Objective(after) == Noted(Objective(messages), total)
  }

  lemma {:induction false} CompactedAndNoted(setup: Setup, steps: seq<seq<Message>>, dropped: nat, elided: nat)
    requires DropTrace(steps) && |steps| == dropped + 1 && Sendable(steps[0]) && dropped > 0
    requires forall k :: 0 <= k < dropped ==> CanDrop(setup.estimate, setup.window, steps[k])
    ensures HasObjective(steps[dropped]) && Compacted(steps[0], WithNote(steps[dropped], elided), dropped, elided)
  {
    var cut := CompactionKeeps(steps, dropped);
    var last := CompactionKeeps(steps, dropped - 1);
    assert CanDrop(setup.estimate, setup.window, steps[dropped - 1]);
    NoteKeeps(steps[dropped], elided);
    SameObjective(steps, dropped);
  }

  function Objective(messages: seq<Message>): string
    requires HasObjective(messages)
  {
    messages[Systems(messages)].content
  }

  lemma {:induction false} SameObjective(steps: seq<seq<Message>>, k: nat)
    requires DropTrace(steps) && k < |steps| && HasObjective(steps[0])
    ensures HasObjective(steps[k]) && Objective(steps[k]) == Objective(steps[0])
  {
    var cut := CompactionKeeps(steps, k);
    assert steps[k][Pinned(steps[0]) - 1] == steps[0][Pinned(steps[0]) - 1];
  }

  lemma {:induction false} NoteKeeps(messages: seq<Message>, elided: nat)
    requires Sendable(messages)
    ensures Sendable(WithNote(messages, elided)) && SpanCount(WithNote(messages, elided)) == SpanCount(messages)
    ensures Objective(WithNote(messages, elided)) == Noted(Objective(messages), elided)
    ensures Base(Objective(WithNote(messages, elided))) == Base(Objective(messages))
  {
    var i, noted := Pinned(messages) - 1, WithNote(messages, elided);
    ContentDoesNotPair(Some([]), messages, i, Noted(messages[i].content, elided));
    SystemsAre(noted, i);
    assert noted[i + 1..] == messages[i + 1..];
    SpansShift(messages, i + 1, noted, i + 1);
    NotesDoNotPileUp(messages[i].content, elided, elided);
  }

  lemma {:induction false} AnswersAppend(a: seq<ToolCall>, b: seq<ToolCall>, answer: ToolCall -> string)
    ensures Answers(a + b, answer) == Answers(a, answer) + Answers(b, answer)
  {
  }

  /** Runs the calls batch by batch; false if they were cut short, which leaves some calls unanswered. */
  method AnswerCalls(asked: seq<Message>, calls: seq<ToolCall>, w: TurnWorld, setup: Setup)
    returns (messages: seq<Message>, done: bool)
    ensures done <==> !CutShort(setup, w, calls)
    ensures messages ==
      asked + Answers(if done then calls else Concat(BatchesOf(calls, setup.mutating)[..w.tools.batches]), w.answer)
  {
    var batches := MakeBatches(calls, setup.mutating);
    messages, done := AnswerBatches(asked, batches, w);
  }

  method AnswerBatches(asked: seq<Message>, batches: seq<seq<ToolCall>>, w: TurnWorld)
    returns (messages: seq<Message>, done: bool)
    ensures done <==> !(w.tools.ToolsWallTime? && w.tools.batches < |batches|)
    ensures messages == asked + Answers(Concat(if done then batches else batches[..w.tools.batches]), w.answer)
  {
    messages := asked;
    assert asked + Answers([], w.answer) == asked;
    for j := 0 to |batches|
      invariant messages == asked + Answers(Concat(batches[..j]), w.answer)
      invariant w.tools.ToolsWallTime? ==> j <= w.tools.batches
    {
      if w.tools.ToolsWallTime? && w.tools.batches == j {
        return messages, false;
      }
      assert batches[..j + 1][..j] == batches[..j];
      AnswersAppend(Concat(batches[..j]), batches[j], w.answer);
      messages := messages + Answers(batches[j], w.answer);
    }
    assert batches[..|batches|] == batches;
    done := true;
  }

  /** A longer conversation that may be sent, and in which the user speaks last. */
  predicate GoesOnByUser(messages: seq<Message>, more: seq<Message>) {
    Sendable(more) && messages < more && more[|more| - 1].role.User?
  }

  /** What a final text leads to, whichever way it is judged. */
  ghost predicate FinalKeeps(setup: Setup, s: State, r: Response, parse: Parse, end: TurnEnd, next: State) {
    && (end.Continues? <==> AsksAgain(setup, s, r, parse))
    && match end
       case Ended(run) =>
         && HandsOn(run) && run.Result? && run.spend == SpendOf(s) && run.history == Some(WithFinal(s, r.text).messages)
         && (run.ok <==> Accepts(setup, r, parse))
         && (!run.ok ==> run.kind == if setup.hasSchema then SchemaError else ProviderError)
       case Continues =>
         && GoesOnByUser(s.messages, next.messages)
         && next == s.(messages := next.messages, repaired := s.repaired || setup.hasSchema,
                       truncations := if setup.hasSchema then s.truncations else s.truncations + 1)
  }

  /** The answer, and a request of the user's after it. */
  lemma {:induction false} AddRequest(s: State, text: string, request: string)
    requires Sendable(s.messages)
    ensures GoesOnByUser(s.messages, s.messages + [Plain(Assistant, text)] + [Plain(User, request)])
    ensures GoesOnByUser(s.messages, WithFinal(s, text).messages + [Plain(User, request)])
  {
    AddPlain(s.messages, Assistant, text);
    AddPlain(s.messages + [Plain(Assistant, text)], User, request);
    AddPlain(WithFinal(s, text).messages, User, request);
  }

  lemma {:induction false} AskedKeeps(setup: Setup, s: State, r: Response, parse: Parse)
    requires Sendable(s.messages) && (setup.hasSchema ==> parse.Rejected?)
    ensures GoesOnByUser(s.messages, Asked(setup, s, r, parse).messages)
  {
    if setup.hasSchema {
      AddRequest(s, r.text, RepairRequest(parse.reason));
    } else {
      AddRequest(s, r.text, Nudge(s.truncations + 1));
    }
  }

  lemma {:induction false} JudgedKeeps(setup: Setup, s: State, r: Response, parse: Parse)
    requires Sendable(s.messages)
    ensures var judged := Judged(setup, s, r, parse);
            FinalKeeps(setup, s, r, parse, judged.0, judged.1)
  {
    if AsksAgain(setup, s, r, parse) {
      AskedKeeps(setup, s, r, parse);
    } else {
      AddPlain(s.messages, Assistant, r.text);
    }
  }

  /** A final text, without tool calls: accepted, repaired once, nudged when truncated, or given up. */
  method TakeFinal(setup: Setup, s: State, r: Response, parse: Parse) returns (end: TurnEnd, next: State)
    requires Sendable(s.messages)
    ensures (end, next) == Judged(setup, s, r, parse) && FinalKeeps(setup, s, r, parse, end, next)
  {
    JudgedKeeps(setup, s, r, parse);
    if setup.hasSchema {
      end, next := TakeStructured(setup, s, r, parse);
    } else if r.truncated {
      end, next := TakeTruncated(setup, s, r, parse);
    } else {
      next := s;
      end := Ended(C.Result(true, UnknownError(""), SpendOf(s), HistoryOf(WithFinal(s, r.text).messages)));
    }
  }

  method TakeStructured(setup: Setup, s: State, r: Response, parse: Parse) returns (end: TurnEnd, next: State)
    requires setup.hasSchema
    ensures (end, next) == Judged(setup, s, r, parse)
  {
    var final := WithFinal(s, r.text);
    next := s;
    if parse.Rejected? && !s.repaired {
      if OutOfCalls(setup.budget, s) {
        return Ended(Failure(final, SchemaError)), next;
      }
      var messages := s.messages + [Plain(Assistant, r.text)];
      messages := messages + [Plain(User, RepairRequest(parse.reason))];
      return Continues, s.(messages := messages, repaired := true);
    }
    if parse.Parsed? {
      return Ended(C.Result(true, UnknownError(""), SpendOf(s), HistoryOf(final.messages))), next;
    }
    end := Ended(Failure(final, SchemaError));
  }

  method TakeTruncated(setup: Setup, s: State, r: Response, parse: Parse) returns (end: TurnEnd, next: State)
    requires !setup.hasSchema && r.truncated
    ensures (end, next) == Judged(setup, s, r, parse)
  {
    var final := WithFinal(s, r.text);
    var truncations := s.truncations + 1;
    if OutOfCalls(setup.budget, s) || truncations >= MAX_TRUNCATIONS {
      return Ended(Failure(final, ProviderError)), s;
    }
    end, next := Continues,
      s.(messages := final.messages + [Plain(User, Nudge(truncations))], truncations := truncations);
  }

  /** After the provider answered: tool calls are run, a final text is judged. */
  method TakeResponse(setup: Setup, s: State, w: TurnWorld, r: Response) returns (end: TurnEnd, next: State)
    requires Sendable(s.messages)
    ensures (end, next) == AfterResponse(setup, s, w, r)
    ensures end.Continues? ==> Sendable(next.messages)
    ensures end.Ended? ==> HandsOn(end.run) && (end.run.Result? ==> end.run.spend == SpendOf(next))
    ensures SpendOf(next) == SpendOf(s) && next.calls == s.calls && next.elided == s.elided
    ensures r.calls == [] ==> (end.Continues? <==> AsksAgain(setup, s, r, w.parse)) && next.rounds == s.rounds
    ensures r.calls != [] ==> (end.Continues? <==> !w.tools.ToolsRaise? && !CutShort(setup, w, r.calls))
    ensures r.calls != [] && end.Continues? ==>
      && next.rounds == s.rounds + 1 && next.truncations == 0 && next.repaired == s.repaired
      && next.messages == s.messages + [Message(Assistant, r.text, r.calls, "")] + Answers(r.calls, w.answer)
  {
    AfterResponseKeeps(setup, s, w, r);
    if r.calls == [] {
      end, next := TakeFinal(setup, s, r, w.parse);
      return;
    }
    next := s;
    if w.tools.ToolsRaise? {
      return Ended(C.RaisedError), next;
    }
    var asked := s.messages + [Message(Assistant, r.text, r.calls, "")];
    var messages, done := AnswerCalls(asked, r.calls, w, setup);
    if !done {
      return Ended(Failure(s.(messages := messages), BudgetError)), next;
    }
    next := s.(messages := messages, rounds := s.rounds + 1, truncations := 0);
    end := Continues;
  }

  /** The request, and what follows from how it ends. */
  method Send(setup: Setup, s: State, w: TurnWorld) returns (end: TurnEnd, next: State)
    requires Sendable(s.messages)
    ensures (end, next) == AfterCall(setup, s, w)
  {
    next := s;
    match w.call
    case CallWallTime =>
      end := Ended(Failure(s, BudgetError));
    case CallFailed(kind) =>
      end := Ended(Failure(s, kind));
    case CallRaises =>
      end := Ended(C.RaisedError);
    case Responded(r) =>
      end, next := TakeResponse(setup, Billed(s, r), w, r);
  }

  /** Time, calls and tool rounds are left, and more tokens than the input is estimated to take. */
  predicate LimitsAllow(setup: Setup, s: State, w: TurnWorld, input: nat) {
    && !w.wallExpired
    && (setup.budget.maxCalls == 0 || s.calls < setup.budget.maxCalls)
    && (setup.budget.maxToolRounds == 0 || s.rounds < setup.budget.maxToolRounds)
    && if setup.budget.tokenLimit.Some? then s.input + s.output + input < setup.budget.tokenLimit.value
       else setup.maxOutput > 0
  }

  /** One pass of the loop. */
  method Turn(setup: Setup, s: State, w: TurnWorld) returns (end: TurnEnd, next: State, sent: seq<seq<Message>>)
    requires Sendable(s.messages)
    ensures (end, next) == TurnOf(setup, s, w)
    ensures sent == SentIn(setup, s, w)
    ensures TurnKeeps(setup, s, end, next, sent)
    // A list is sent exactly when no limit is reached: wall time, calls, tool rounds, and tokens for its input.
    ensures sent != [] ==> |sent| == 1 && LimitsAllow(setup, s, w, setup.estimate(sent[0]))
    ensures sent == [] ==> !LimitsAllow(setup, s, w, setup.estimate(Fitted(setup, s).messages))
    ensures sent != [] && w.call.CallFailed? ==> end == Ended(Failure(next, w.call.kind))
  {
    TurnKeepsAll(setup, s, w);
    next, sent := s, [];
    if Exhausted(setup.budget, s, w) {
      return Ended(Failure(s, BudgetError)), next, sent;
    }
    var fitted := Fit(setup, s);
    if AvailableOutput(setup, fitted) <= 0 {
      return Ended(Failure(fitted, BudgetError)), fitted, sent;
    }
    sent := [fitted.messages];
    end, next := Send(setup, Called(fitted), w);
  }

  lemma {:induction false} PrecededTwice(sent: seq<seq<Message>>, more: seq<seq<Message>>,
                                         checkpoints: seq<seq<Message>>, kept: seq<seq<Message>>, rest: Record)
    ensures Preceded(sent, checkpoints, Preceded(more, kept, rest)) == Preceded(sent + more, checkpoints + kept, rest)
  {
    assert sent + (more + rest.sent) == sent + more + rest.sent;
    assert checkpoints + (kept + rest.checkpoints) == checkpoints + kept + rest.checkpoints;
  }

  /** The loop of a run, over a script of turns. */
  method RunTurns(setup: Setup, start: State, turns: seq<TurnWorld>)
    returns (run: Option<Run>, sent: seq<seq<Message>>, checkpoints: seq<seq<Message>>)
    requires Sendable(start.messages)
    ensures Record(run, sent, checkpoints) == RecordFrom(setup, start, turns)
  {
    var s := start;
    sent, checkpoints := [], [];
    for i := 0 to |turns|
      invariant Sendable(s.messages)
      invariant RecordFrom(setup, start, turns) == Preceded(sent, checkpoints, RecordFrom(setup, s, turns[i..]))
    {
      var end, next, more := Turn(setup, s, turns[i]);
      assert turns[i..][1..] == turns[i + 1..];
      if end.Ended? {
        return Some(end.run), sent + more, checkpoints;
      }
      ghost var rest := RecordFrom(setup, next, turns[i + 1..]);
      PrecededTwice(sent, more, checkpoints, KeptBetween(s, next), rest);
      sent, checkpoints := sent + more, checkpoints + KeptBetween(s, next);
      s := next;
    }
    run := None;
  }

  // What is sent first.

  /** The objective after the system prompt, if there is one. */
  ghost predicate AsksFor(system: string, objective: string, messages: seq<Message>) {
    && messages != [] && messages[|messages| - 1] == Message(User, objective, [], "")
    && |messages| == (if system == "" then 1 else 2)
    && (system != "" ==> messages[0] == Message(System, system, [], ""))
  }

  /** The same messages, but for what the objective says. */
  ghost predicate Retold(messages: seq<Message>, retold: seq<Message>, objective: string)
    requires HasObjective(messages)
  {
    && |retold| == |messages|
    && (forall i :: 0 <= i < |messages| && i != Systems(messages) ==> retold[i] == messages[i])
    && retold[Systems(messages)] == Message(User, objective, messages[Systems(messages)].calls,
                                            messages[Systems(messages)].answers)
  }

  /** A conversation over the window, after its oldest rounds were dropped one by one while there was need and room. */
  ghost predicate ShrunkTo(setup: Setup, steps: seq<seq<Message>>, messages: seq<Message>, first: seq<Message>) {
    && DropTrace(steps) && steps[0] == messages && HasObjective(messages)
    && (forall k :: 0 <= k < |steps| - 1 ==> CanDrop(setup.estimate, setup.window, steps[k]))
    && var n, last := |steps| - 1, steps[|steps| - 1];
       && !CanDrop(setup.estimate, setup.window, last)
       && if n == 0 then first == messages
          else HasObjective(last) && Retold(last, first, Noted(Objective(messages), n))
  }

  /** A run begins where the conversation handed to it ends, shortened if it must be, or else with the objective. */
  ghost predicate BeginsWith(script: Script, resume: Option<seq<Message>>, first: seq<Message>) {
    if resume.None? || resume.value == [] then AsksFor(script.system, script.objective, first)
    else if !Triggers(script.setup.estimate, script.setup.window, resume.value) then first == resume.value
    else exists steps :: ShrunkTo(script.setup, steps, resume.value, first)
  }

  /** One compaction, as a history of drops. */
  lemma {:induction false} FittedIsShrunk(setup: Setup, s: State)
    requires Sendable(s.messages) && Triggers(setup.estimate, setup.window, s.messages) && s.elided == 0
    ensures exists steps :: ShrunkTo(setup, steps, s.messages, Fitted(setup, s).messages)
  {
    var steps := ShrunkTrace(setup.estimate, setup.window, s.messages);
    var n := |steps| - 1;
    SameObjective(steps, n);
    ShrunkCannotDrop(setup.estimate, setup.window, s.messages);
    assert ShrunkTo(setup, steps, s.messages, Fitted(setup, s).messages);
  }

  lemma {:induction false} ShrunkCannotDrop(estimate: seq<Message> -> nat, window: nat, messages: seq<Message>)
    ensures !CanDrop(estimate, window, Shrunk(estimate, window, messages).0)
    decreases |messages|
  {
    if CanDrop(estimate, window, messages) {
      FirstSpan(messages);
      ShrunkCannotDrop(estimate, window, DropFirst(messages));
    }
  }

  /** The objective alone has no rounds to drop. */
  lemma {:induction false} NothingToDrop(setup: Setup, system: string, objective: string, s: State)
    requires AsksFor(system, objective, s.messages)
    ensures Fitted(setup, s).messages == s.messages
  {
    SystemsAre(s.messages, |s.messages| - 1);
    assert SpanCount(s.messages) == 0;
  }

  lemma {:induction false} FirstSent(script: Script, resume: Option<seq<Message>>)
    requires resume.Some? && resume.value != [] ==> Sendable(resume.value)
    ensures var sent := RecordOf(script, resume).sent; sent != [] ==> BeginsWith(script, resume, sent[0])
  {
    var start, sent := Start(script, resume), RecordOf(script, resume).sent;
    if sent != [] {
      FirstIsFitted(script.setup, start, script.turns);
      if resume.None? || resume.value == [] {
        NothingToDrop(script.setup, script.system, script.objective, start);
      } else if Triggers(script.setup.estimate, script.setup.window, resume.value) {
        FittedIsShrunk(script.setup, start);
      }
    }
  }

  lemma {:induction false} FirstIsFitted(setup: Setup, s: State, turns: seq<TurnWorld>)
    requires RecordFrom(setup, s, turns).sent != []
    ensures RecordFrom(setup, s, turns).sent[0] == Fitted(setup, s).messages
  {
  }

  /**
   * A run from the conversation handed to it, or from the objective. What it sends, keeps and ends with is what the
   * functions above say, and that keeps the promises of a run.
   */
  method RunWorker(script: Script, resume: Option<seq<Message>>)
    returns (run: Option<Run>, sent: seq<seq<Message>>, checkpoints: seq<seq<Message>>)
    requires resume.Some? && resume.value != [] ==> Sendable(resume.value)
    ensures Record(run, sent, checkpoints) == RecordOf(script, resume)
    ensures RunKeeps(script, resume, Record(run, sent, checkpoints))
    ensures sent != [] ==> BeginsWith(script, resume, sent[0])
  {
    RunKeepsAll(script, resume);
    FirstSent(script, resume);
    var start := Start(script, resume);
    if script.profileError.Some? {
      return Some(Failure(start.(messages := []), script.profileError.value)), [], [];
    }
    OpeningIsSendable(script.system, script.objective, resume);
    run, sent, checkpoints := RunTurns(script.setup, start, script.turns);
  }

  // What turns keep.

  /** The limits on calls and tool rounds. */
  predicate WithinCounts(b: Budget, s: State) {
    && (b.maxCalls > 0 ==> s.calls <= b.maxCalls)
    && (b.maxToolRounds > 0 ==> s.rounds <= b.maxToolRounds)
  }

  /** What one turn keeps and what it adds to the lists sent. */
  ghost predicate TurnKeeps(setup: Setup, s: State, end: TurnEnd, next: State, sent: seq<seq<Message>>) {
    && (forall m :: m in sent ==> Sendable(m))
    && next.calls == s.calls + |sent|
    && (sent == [] ==> end.Ended? && end.run.Result? && !end.run.ok && end.run.kind == BudgetError)
    && (WithinCounts(setup.budget, s) ==> WithinCounts(setup.budget, next))
    && (end.Continues? ==> Sendable(next.messages))
    && (end.Ended? ==> HandsOn(end.run) && (end.run.Result? ==> end.run.spend == SpendOf(next)))
  }

  lemma {:induction false} FittedKeeps(setup: Setup, s: State)
    requires Sendable(s.messages)
    ensures var fitted := Fitted(setup, s);
            && fitted == s.(messages := fitted.messages, elided := fitted.elided) && fitted.elided >= s.elided
            && Compacted(s.messages, fitted.messages, fitted.elided - s.elided, fitted.elided)
  {
    var compaction := CompactionOf(setup.estimate, setup.window, s.messages);
    if Triggers(setup.estimate, setup.window, s.messages) && compaction.1 > 0 {
      var steps := ShrunkTrace(setup.estimate, setup.window, s.messages);
      CompactedAndNoted(setup, steps, compaction.1, s.elided + compaction.1);
    } else if Triggers(setup.estimate, setup.window, s.messages) {
      var steps := ShrunkTrace(setup.estimate, setup.window, s.messages);
    }
  }

  lemma {:induction false} AfterResponseKeeps(setup: Setup, s: State, w: TurnWorld, r: Response)
    requires Sendable(s.messages)
    ensures var after := AfterResponse(setup, s, w, r);
            && (after.0.Continues? ==> Sendable(after.1.messages))
            && (after.0.Ended? ==>
                 HandsOn(after.0.run) && (after.0.run.Result? ==> after.0.run.spend == SpendOf(after.1)))
            && SpendOf(after.1) == SpendOf(s) && after.1.calls == s.calls && after.1.elided == s.elided
            && after.1.rounds <= s.rounds + 1
            && (after.0.Continues? ==> s.messages <= after.1.messages)
  {
    if r.calls == [] {
      JudgedKeeps(setup, s, r, w.parse);
    } else {
      RoundIsPaired(s.messages, r.text, r.calls, w.answer);
    }
  }

  lemma {:induction false} TurnKeepsAll(setup: Setup, s: State, w: TurnWorld)
    requires Sendable(s.messages)
    ensures var turn := TurnOf(setup, s, w);
            TurnKeeps(setup, s, turn.0, turn.1, SentIn(setup, s, w))
  {
    FittedKeeps(setup, s);
    var called := Called(Fitted(setup, s));
    if MaySend(setup, s, w) && w.call.Responded? {
      AfterResponseKeeps(setup, Billed(called, w.call.response), w, w.call.response);
    }
  }

  /** An honest answer keeps the tokens within the limit. */
  predicate WithinTokens(b: Budget, s: State) { b.tokenLimit.Some? ==> s.input + s.output <= b.tokenLimit.value }

  lemma {:induction false} TurnKeepsTokens(setup: Setup, s: State, w: TurnWorld)
    requires Sendable(s.messages) && WithinTokens(setup.budget, s)
    requires MaySend(setup, s, w) ==> Honest(setup, Called(Fitted(setup, s)), w.call)
    ensures WithinTokens(setup.budget, TurnOf(setup, s, w).1)
  {
    FittedKeeps(setup, s);
    var called := Called(Fitted(setup, s));
    if MaySend(setup, s, w) && w.call.Responded? {
      AfterResponseKeeps(setup, Billed(called, w.call.response), w, w.call.response);
    }
  }

  /** The objective with the note that `n` rounds are gone, if any are. */
  function NotedBy(objective: string, n: nat): string { if n == 0 then objective else Noted(objective, n) }

  /** The conversation tells how many rounds are gone altogether. */
  predicate TellsTotal(objective: string, s: State) {
    HasObjective(s.messages) && Objective(s.messages) == NotedBy(objective, s.elided)
  }

  lemma {:induction false} TurnTellsTotal(setup: Setup, s: State, w: TurnWorld, objective: string)
    requires Sendable(s.messages) && TellsTotal(objective, s)
    ensures TellsTotal(objective, Fitted(setup, s))
    ensures var turn := TurnOf(setup, s, w); turn.0.Continues? ==> TellsTotal(objective, turn.1)
  {
    FittedKeeps(setup, s);
    NotesDoNotPileUp(objective, s.elided, Fitted(setup, s).elided);
    var turn := TurnOf(setup, s, w);
    if turn.0.Continues? {
      var called := Called(Fitted(setup, s));
      AfterResponseKeeps(setup, Billed(called, w.call.response), w, w.call.response);
      ObjectiveOfLonger(called.messages, turn.1.messages);
    }
  }

  lemma {:induction false} ObjectiveOfLonger(messages: seq<Message>, more: seq<Message>)
    requires HasObjective(messages) && messages <= more
    ensures HasObjective(more) && Objective(more) == Objective(messages)
  {
    assert more[..|messages|] == messages;
    SamePrefixSamePinned(messages, more);
  }

  // What whole runs keep.

  /** Everything sent is well paired and pinned, and tells on the objective what is gone. */
  ghost predicate AllSendable(objective: string, lists: seq<seq<Message>>) {
    forall m :: m in lists ==> Sendable(m) && exists n: nat :: Objective(m) == NotedBy(objective, n)
  }

  lemma {:induction false} ListsAreSendable(setup: Setup, s: State, turns: seq<TurnWorld>, objective: string)
    requires Sendable(s.messages) && TellsTotal(objective, s)
    ensures var record := RecordFrom(setup, s, turns);
            AllSendable(objective, record.sent) && AllSendable(objective, record.checkpoints)
    decreases |turns|
  {
    if turns != [] {
      TurnKeepsAll(setup, s, turns[0]);
      TurnTellsTotal(setup, s, turns[0], objective);
      FittedKeeps(setup, s);
      var turn := TurnOf(setup, s, turns[0]);
      if turn.0.Continues? {
        ListsAreSendable(setup, turn.1, turns[1..], objective);
      }
    }
  }

  lemma {:induction false} RunCountsCalls(setup: Setup, s: State, turns: seq<TurnWorld>)
    requires Sendable(s.messages) && WithinCounts(setup.budget, s)
    ensures var record := RecordFrom(setup, s, turns);
            && (setup.budget.maxCalls > 0 ==> s.calls + |record.sent| <= setup.budget.maxCalls)
            && (record.run.Some? ==> HandsOn(record.run.value))
            && (record.run.Some? && record.run.value.Result? ==>
                 record.run.value.spend.calls == s.calls + |record.sent|)
    decreases |turns|
  {
    if turns != [] {
      TurnKeepsAll(setup, s, turns[0]);
      var turn := TurnOf(setup, s, turns[0]);
      if turn.0.Continues? {
        RunCountsCalls(setup, turn.1, turns[1..]);
      }
    }
  }

  lemma {:induction false} RunKeepsTokens(setup: Setup, s: State, turns: seq<TurnWorld>)
    requires Sendable(s.messages) && WithinTokens(setup.budget, s) && HonestFrom(setup, s, turns)
    ensures var run := RecordFrom(setup, s, turns).run;
            run.Some? && run.value.Result? && setup.budget.tokenLimit.Some? ==>
            run.value.spend.Tokens() <= setup.budget.tokenLimit.value
    decreases |turns|
  {
    if turns != [] {
      TurnKeepsAll(setup, s, turns[0]);
      TurnKeepsTokens(setup, s, turns[0]);
      var turn := TurnOf(setup, s, turns[0]);
      if turn.0.Continues? {
        RunKeepsTokens(setup, turn.1, turns[1..]);
      }
    }
  }

  /** The promises of a whole run. */
  ghost predicate RunKeeps(script: Script, resume: Option<seq<Message>>, record: Record) {
    var b, start := script.setup.budget, Start(script, resume);
    && HasObjective(start.messages)
    && AllSendable(Objective(start.messages), record.sent) && AllSendable(Objective(start.messages), record.checkpoints)
    && (record.run.Some? ==> HandsOn(record.run.value))
    && (b.maxCalls > 0 ==> |record.sent| <= b.maxCalls)
    && (record.run.Some? && record.run.value.Result? ==>
          && record.run.value.spend.calls == |record.sent|
          && (b.tokenLimit.Some? && HonestFrom(script.setup, start, script.turns) ==>
                record.run.value.spend.Tokens() <= b.tokenLimit.value))
    // Nothing is sent only if the run could not begin.
    && (record.sent == [] <==>
          script.profileError.Some? || script.turns == [] || !MaySend(script.setup, start, script.turns[0]))
  }

  lemma {:induction false} RunKeepsAll(script: Script, resume: Option<seq<Message>>)
    requires resume.Some? && resume.value != [] ==> Sendable(resume.value)
    ensures RunKeeps(script, resume, RecordOf(script, resume))
  {
    OpeningIsSendable(script.system, script.objective, resume);
    var start := Start(script, resume);
    ListsAreSendable(script.setup, start, script.turns, Objective(start.messages));
    RunCountsCalls(script.setup, start, script.turns);
    if HonestFrom(script.setup, start, script.turns) {
      RunKeepsTokens(script.setup, start, script.turns);
    }
  }

  lemma {:induction false} RunHandsOn(script: Script, resume: Option<seq<Message>>)
    requires resume.Some? && resume.value != [] ==> Sendable(resume.value)
    ensures var record := RecordOf(script, resume);
            && (record.run.Some? ==> HandsOn(record.run.value))
            && (forall m :: m in record.sent ==> Sendable(m)) && (forall m :: m in record.checkpoints ==> Sendable(m))
  {
    RunKeepsAll(script, resume);
  }

  /** The turn that a run ends in, and the state it begins in. */
  function LastTurn(setup: Setup, s: State, turns: seq<TurnWorld>): Option<(State, TurnWorld)>
    decreases |turns|
  {
    if turns == [] then None
    else
      var turn := TurnOf(setup, s, turns[0]);
      if turn.0.Ended? then Some((s, turns[0])) else LastTurn(setup, turn.1, turns[1..])
  }

  /** A limit stops the turn: before the request, while the provider answers, or while tools run. */
  predicate LimitStops(setup: Setup, s: State, w: TurnWorld) {
    || !MaySend(setup, s, w) || w.call.CallWallTime? || w.call == CallFailed(BudgetError)
    || (w.call.Responded? && w.call.response.calls != [] && CutShort(setup, w, w.call.response.calls))
  }

  predicate IsBudgetFailure(run: Run) { run.Result? && !run.ok && run.kind == BudgetError }

  /** A run fails by budget exactly when a limit stops its last turn. */
  lemma {:induction false} BudgetFailureIff(setup: Setup, s: State, turns: seq<TurnWorld>)
    ensures var run, last := RecordFrom(setup, s, turns).run, LastTurn(setup, s, turns);
            && (run.Some? <==> last.Some?)
            && (run.Some? ==> (IsBudgetFailure(run.value) <==> LimitStops(setup, last.value.0, last.value.1)))
    decreases |turns|
  {
    if turns != [] {
      var turn := TurnOf(setup, s, turns[0]);
      if turn.0.Continues? {
        BudgetFailureIff(setup, turn.1, turns[1..]);
      }
    }
  }

  // Costs come from calls.

  lemma {:induction false} TurnIsPaidByCall(setup: Setup, s: State, w: TurnWorld)
    requires Budgets.PaidByCall(SpendOf(s))
    ensures var turn := TurnOf(setup, s, w);
            && Budgets.PaidByCall(SpendOf(turn.1))
            && (turn.0.Ended? && turn.0.run.Result? ==> Budgets.PaidByCall(turn.0.run.spend))
  {
  }

  lemma {:induction false} RunIsPaidByCall(setup: Setup, s: State, turns: seq<TurnWorld>)
    requires Budgets.PaidByCall(SpendOf(s))
    ensures var run := RecordFrom(setup, s, turns).run;
            run.Some? && run.value.Result? ==> Budgets.PaidByCall(run.value.spend)
    decreases |turns|
  {
    if turns != [] {
      TurnIsPaidByCall(setup, s, turns[0]);
      var turn := TurnOf(setup, s, turns[0]);
      if turn.0.Continues? {
        RunIsPaidByCall(setup, turn.1, turns[1..]);
      }
    }
  }

  /** The runs of a worker, each over some script and from some conversation. */
  ghost predicate AreRuns(runs: seq<Run>, scripts: seq<Script>, resumes: seq<Option<seq<Message>>>) {
    |scripts| == |resumes| == |runs| &&
    forall n :: 0 <= n < |runs| ==> RecordOf(scripts[n], resumes[n]).run == Some(runs[n])
  }

  function SpendsOf(runs: seq<Run>): (spends: seq<Spend>)
    ensures |spends| == |runs| && forall n :: 0 <= n < |runs| ==> spends[n] == C.SpendOf(runs[n])
  {
    seq(|runs|, n requires 0 <= n < |runs| => C.SpendOf(runs[n]))
  }

  /** Whatever workers ran before a resume, seeding its authority from their usage loses nothing. */
  lemma {:induction false} SeedLosesNothing(runs: seq<Run>, scripts: seq<Script>,
                                            resumes: seq<Option<seq<Message>>>, b: Budget)
    requires AreRuns(runs, scripts, resumes)
    ensures var usage := SumSpend(SpendsOf(runs));
            && Budgets.Seeded(usage) == Budgets.RecordAll(SpendsOf(runs))
            && Budgets.AuthorityRemaining(b, Budgets.Seeded(usage)) == Remaining(b, usage)
  {
    forall n | 0 <= n < |runs| ensures Budgets.PaidByCall(SpendsOf(runs)[n]) {
      RunIsPaidByCall(scripts[n].setup, Start(scripts[n], resumes[n]), scripts[n].turns);
      assert RecordOf(scripts[n], resumes[n]).run == Some(runs[n]);
    }
    Budgets.SeedAgrees(b, SpendsOf(runs));
  }

  // Across attempts.

  predicate ResumesSendable(attempts: seq<C.Attempt<seq<Message>>>, k: nat)
    requires k < |attempts|
  {
    attempts[k].resume.Some? ==> Sendable(attempts[k].resume.value)
  }

  /** Every attempt's worker is a run over some script, from the conversation that the attempt was given. */
  ghost predicate RunBy(world: C.CellWorld<seq<Message>>, attempts: seq<C.Attempt<seq<Message>>>, scripts: seq<Script>)
  {
    |scripts| == |attempts| &&
    forall n :: 0 <= n < |attempts| ==> RecordOf(scripts[n], attempts[n].resume).run == Some(world.worker(n))
  }

  lemma {:induction false} CarryKeepsSendable(world: C.CellWorld<seq<Message>>, checkpoint: Option<seq<Message>>,
                                              attempts: seq<C.Attempt<seq<Message>>>, k: nat)
    requires C.Carried(world, checkpoint, attempts) && k < |attempts|
    requires checkpoint.Some? ==> Sendable(checkpoint.value)
    requires forall n: nat {:trigger ResumesSendable(attempts, n)} ::
      n < |attempts| && ResumesSendable(attempts, n) ==> HandsOn(world.worker(n))
    ensures ResumesSendable(attempts, k)
  {
    if k > 0 {
      CarryKeepsSendable(world, checkpoint, attempts, k - 1);
      assert C.CarriedFrom(world.worker(k - 1), attempts[k].resume);
    }
  }

  /** Whatever attempts a cell makes, each starts from a conversation that may be sent, and sends only such. */
  lemma {:induction false} CarriedConversationsAreSendable(
      world: C.CellWorld<seq<Message>>, checkpoint: Option<seq<Message>>,
      attempts: seq<C.Attempt<seq<Message>>>, scripts: seq<Script>, k: nat)
    requires C.Carried(world, checkpoint, attempts) && RunBy(world, attempts, scripts) && k < |attempts|
    requires checkpoint.Some? ==> Sendable(checkpoint.value)
    ensures attempts[k].resume.Some? ==> Sendable(attempts[k].resume.value)
    ensures forall m :: m in RecordOf(scripts[k], attempts[k].resume).sent ==> Sendable(m)
  {
    forall n: nat | n < |attempts| && ResumesSendable(attempts, n) ensures HandsOn(world.worker(n)) {
      RunHandsOn(scripts[n], attempts[n].resume);
      assert RecordOf(scripts[n], attempts[n].resume).run == Some(world.worker(n));
    }
    CarryKeepsSendable(world, checkpoint, attempts, k);
    assert ResumesSendable(attempts, k);
    RunHandsOn(scripts[k], attempts[k].resume);
  }
}
