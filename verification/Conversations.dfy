/** Message histories: pairing of tool calls with their results, and compaction that keeps it. */
module Conversations {
  import opened Domain
  import opened ToolBatches

  datatype Role = System | User | Assistant | Tool

  /** `answers` is the id of the call that a tool message answers. */
  datatype Message = Message(role: Role, content: string, calls: seq<ToolCall>, answers: string)

  /** Compaction starts above 78 percent of the window and aims for 62 percent. */
  function TriggerAt(window: nat): real { window as real * 0.78 }

  function TargetOf(window: nat): real { window as real * 0.62 }

  const MIN_RETAINED_SPANS: nat := 3

  // Pairing.

  function CallIds(calls: seq<ToolCall>): (ids: seq<string>)
    ensures |ids| == |calls|
  {
    seq(|calls|, i requires 0 <= i < |calls| => calls[i].id)
  }

  /** The calls still to be answered after one more message; none if the message must not stand there. */
  function Next(waiting: Option<seq<string>>, m: Message): Option<seq<string>> {
    match waiting
    case None => None
    case Some(ids) =>
      if m.role.Tool? then (if ids != [] && ids[0] == m.answers then Some(ids[1..]) else None)
      else if ids != [] then None
      else Some(if m.role.Assistant? then CallIds(m.calls) else [])
  }

  function After(waiting: Option<seq<string>>, messages: seq<Message>): Option<seq<string>> {
    if messages == [] then waiting else Next(After(waiting, messages[..|messages| - 1]), messages[|messages| - 1])
  }

  /** Each assistant tool call is answered, in order, by the tool messages directly after it. */
  predicate WellPaired(messages: seq<Message>) {
    After(Some([]), messages) == Some([])
  }

  lemma {:induction false} AfterAppend(waiting: Option<seq<string>>, a: seq<Message>, b: seq<Message>)
    ensures After(waiting, a + b) == After(After(waiting, a), b)
  {
    if b == [] {
      assert a + b == a;
    } else {
      assert (a + b)[..|a + b| - 1] == a + b[..|b| - 1];
      AfterAppend(waiting, a, b[..|b| - 1]);
    }
  }

  lemma {:induction false} BrokenStaysBroken(messages: seq<Message>)
    ensures After(None, messages) == None
  {
    if messages != [] {
      BrokenStaysBroken(messages[..|messages| - 1]);
    }
  }

  /** What pairing means message by message: the results of an assistant message are the ones right after it. */
  lemma {:induction false} PairedMeans(messages: seq<Message>, i: nat)
    requires WellPaired(messages) && i < |messages| && messages[i].role.Assistant?
    ensures i + |messages[i].calls| < |messages|
    ensures forall k :: 0 <= k < |messages[i].calls| ==>
      messages[i + 1 + k].role.Tool? && messages[i + 1 + k].answers == messages[i].calls[k].id
    ensures i + 1 + |messages[i].calls| < |messages| ==> !messages[i + 1 + |messages[i].calls|].role.Tool?
  {
    PairedTail(messages, i);
    AnsweredNext(CallIds(messages[i].calls), messages[i + 1..]);
  }

  /** After an assistant message, exactly its calls wait for the rest of the conversation. */
  lemma {:induction false} PairedTail(messages: seq<Message>, i: nat)
    requires WellPaired(messages) && i < |messages| && messages[i].role.Assistant?
    ensures After(Some(CallIds(messages[i].calls)), messages[i + 1..]) == Some([])
  {
    var before, rest := messages[..i + 1], messages[i + 1..];
    assert messages == before + rest;
    AfterAppend(Some([]), before, rest);
    BrokenStaysBroken(rest);
    assert before[..i] == messages[..i] && before[i] == messages[i];
  }

  lemma {:induction false} AnsweredNext(ids: seq<string>, rest: seq<Message>)
    requires After(Some(ids), rest) == Some([])
    ensures |ids| <= |rest|
    ensures forall k :: 0 <= k < |ids| ==> rest[k].role.Tool? && rest[k].answers == ids[k]
    ensures |ids| < |rest| ==> !rest[|ids|].role.Tool?
    decreases |ids|
  {
    if rest != [] {
      var first, more := [rest[0]], rest[1..];
      assert rest == first + more && first[..0] == [];
      AfterAppend(Some(ids), first, more);
      BrokenStaysBroken(more);
      if ids != [] {
        AnsweredNext(ids[1..], more);
      }
    }
  }

  // Spans: one turn and the tool results that answer it.

  /** The first position from `i` on that is not a system message. */
  function SkipSystems(messages: seq<Message>, i: nat): (n: nat)
    requires i <= |messages|
    ensures i <= n <= |messages|
    ensures forall k :: i <= k < n ==> messages[k].role.System?
    ensures n < |messages| ==> !messages[n].role.System?
    decreases |messages| - i
  {
    if i < |messages| && messages[i].role.System? then SkipSystems(messages, i + 1) else i
  }

  /** The pinned prefix: leading system messages, then one user message if it comes next. */
  function Systems(messages: seq<Message>): (n: nat)
    ensures n <= |messages|
  {
    SkipSystems(messages, 0)
  }

  function Pinned(messages: seq<Message>): (n: nat)
    ensures n <= |messages|
  {
    var n := Systems(messages);
    if n < |messages| && messages[n].role.User? then n + 1 else n
  }

  /** The first position from `i` on that is not a tool message. */
  function SkipTools(messages: seq<Message>, i: nat): (end: nat)
    requires i <= |messages|
    ensures i <= end <= |messages|
    ensures forall k :: i <= k < end ==> messages[k].role.Tool?
    ensures end < |messages| ==> !messages[end].role.Tool?
    decreases |messages| - i
  {
    if i < |messages| && messages[i].role.Tool? then SkipTools(messages, i + 1) else i
  }

  function SpansFrom(messages: seq<Message>, start: nat): (spans: seq<(nat, nat)>)
    requires start <= |messages|
    ensures forall s :: s in spans ==> start <= s.0 < s.1 <= |messages|
    ensures spans == [] <==> start == |messages|
    decreases |messages| - start
  {
    if start == |messages| then []
    else
      var end := SkipTools(messages, start + 1);
      [(start, end)] + SpansFrom(messages, end)
  }

  method EvictableSpans(messages: seq<Message>) returns (pinned: nat, spans: seq<(nat, nat)>)
    ensures pinned == Pinned(messages) && spans == SpansFrom(messages, pinned)
  {
    pinned := 0;
    while pinned < |messages| && messages[pinned].role.System?
      invariant pinned <= |messages| && forall i :: 0 <= i < pinned ==> messages[i].role.System?
    {
      pinned := pinned + 1;
    }
    SystemsAre(messages, pinned);
    if pinned < |messages| && messages[pinned].role.User? {
      pinned := pinned + 1;
    }
    spans := [];
    var start := pinned;
    while start < |messages|
      invariant start <= |messages|
      invariant spans + SpansFrom(messages, start) == SpansFrom(messages, pinned)
    {
      var end := EndOfSpan(messages, start);
      Reassociate(spans, (start, end), SpansFrom(messages, end));
      spans := spans + [(start, end)];
      start := end;
    }
    assert spans + [] == spans;
  }

  method EndOfSpan(messages: seq<Message>, start: nat) returns (end: nat)
    requires start < |messages|
    ensures end == SkipTools(messages, start + 1)
  {
    end := start + 1;
    while end < |messages| && messages[end].role.Tool?
      invariant start + 1 <= end <= |messages| && SkipTools(messages, start + 1) == SkipTools(messages, end)
    {
      end := end + 1;
    }
  }

  lemma {:induction false} Reassociate<T>(a: seq<T>, x: T, b: seq<T>)
    ensures a + ([x] + b) == (a + [x]) + b
  {
  }

  lemma {:induction false} SystemsAre(messages: seq<Message>, n: nat)
    requires n <= |messages| && forall i :: 0 <= i < n ==> messages[i].role.System?
    requires n < |messages| ==> !messages[n].role.System?
    ensures Systems(messages) == n
  {
  }

  // Compaction.

  /** The pinned prefix ends in the user's objective. */
  predicate HasObjective(messages: seq<Message>) {
    Systems(messages) < |messages| && messages[Systems(messages)].role.User?
  }

  /** The messages without the first span. */
  function DropFirst(messages: seq<Message>): seq<Message>
    requires Pinned(messages) < |messages|
  {
    messages[..Pinned(messages)] + messages[SkipTools(messages, Pinned(messages) + 1)..]
  }

  /** One drop leads from one conversation to the next. */
  ghost predicate Drops(messages: seq<Message>, next: seq<Message>) {
    Pinned(messages) < |messages| && next == DropFirst(messages)
  }

  /** The conversations that a compaction goes through. */
  ghost predicate DropTrace(steps: seq<seq<Message>>) {
    |steps| >= 1 && forall k :: 0 <= k < |steps| - 1 ==> Drops(steps[k], steps[k + 1])
  }

  function SpanCount(messages: seq<Message>): nat { |SpansFrom(messages, Pinned(messages))| }

  lemma {:induction false} SamePrefixSamePinned(messages: seq<Message>, other: seq<Message>)
    requires HasObjective(messages) && Pinned(messages) <= |other|
    requires messages[..Pinned(messages)] == other[..Pinned(messages)]
    ensures HasObjective(other) && Pinned(other) == Pinned(messages) && Systems(other) == Systems(messages)
  {
    var n := Systems(messages);
    assert other[n] == messages[..n + 1][n];
    forall i | 0 <= i < n ensures other[i].role.System? {
      assert other[i] == messages[..n + 1][i];
    }
    SystemsAre(other, n);
  }

  /** Spans only depend on what is at and after their start. */
  lemma {:induction false} SpansShift(messages: seq<Message>, start: nat, other: seq<Message>, at: nat)
    requires start <= |messages| && at <= |other| && messages[start..] == other[at..]
    ensures |SpansFrom(messages, start)| == |SpansFrom(other, at)|
    decreases |messages| - start
  {
    assert |messages| - start == |other| - at;
    if start < |messages| {
      ToolsShift(messages, start + 1, other, at + 1);
      var end, end2 := SkipTools(messages, start + 1), SkipTools(other, at + 1);
      assert messages[end..] == messages[start..][end - start..];
      assert other[end2..] == other[at..][end2 - at..];
      SpansShift(messages, end, other, end2);
    }
  }

  lemma {:induction false} ToolsShift(messages: seq<Message>, i: nat, other: seq<Message>, j: nat)
    requires 0 < i <= |messages| && 0 < j <= |other| && messages[i - 1..] == other[j - 1..]
    ensures SkipTools(messages, i) - i == SkipTools(other, j) - j
    decreases |messages| - i
  {
    assert |messages| - i == |other| - j;
    if i < |messages| {
      assert messages[i] == messages[i - 1..][1] && other[j] == other[j - 1..][1];
      assert messages[i..] == messages[i - 1..][1..] && other[j..] == other[j - 1..][1..];
      ToolsShift(messages, i + 1, other, j + 1);
    }
  }

  lemma {:induction false} OneSpanLess(messages: seq<Message>, m: seq<Message>, p: nat, end: nat)
    requires p < |messages| && end == SkipTools(messages, p + 1) && p <= |m| && m[p..] == messages[end..]
    ensures |SpansFrom(m, p)| == |SpansFrom(messages, p)| - 1
  {
    SpansShift(messages, end, m, p);
  }

  lemma {:induction false} PinnedHasNoCalls(messages: seq<Message>)
    ensures forall i :: 0 <= i < Pinned(messages) ==> messages[i].role.System? || messages[i].role.User?
  {
  }

  /** One drop: the objective stays, one span goes, and pairing is kept. */
  lemma {:induction false} DropKeeps(messages: seq<Message>)
    requires HasObjective(messages) && Pinned(messages) < |messages|
    ensures var m := DropFirst(messages);
            && |m| < |messages| && HasObjective(m) && Pinned(m) == Pinned(messages)
            && m[..Pinned(m)] == messages[..Pinned(messages)]
            && |SpansFrom(m, Pinned(m))| == |SpansFrom(messages, Pinned(messages))| - 1
            && (WellPaired(messages) ==> WellPaired(m))
  {
    var p := Pinned(messages);
    var end := SkipTools(messages, p + 1);
    var m := messages[..p] + messages[end..];
    assert m == DropFirst(messages);
    assert m[..p] == messages[..p] && m[p..] == messages[end..];
    SamePrefixSamePinned(messages, m);
    OneSpanLess(messages, m, p, end);
    if WellPaired(messages) {
      PinnedHasNoCalls(messages);
      DropKeepsPairing(messages, p, end);
    }
  }

  /** Cutting from one turn to another keeps pairing: nothing is waiting where a message is not a tool result. */
  lemma {:induction false} DropKeepsPairing(messages: seq<Message>, p: nat, end: nat)
    requires WellPaired(messages) && p <= end <= |messages|
    requires end < |messages| ==> !messages[end].role.Tool?
    requires forall i :: 0 <= i < p ==> messages[i].role.System? || messages[i].role.User?
    ensures WellPaired(messages[..p] + messages[end..])
  {
    NothingWaits(messages, end);
    NoCallsNoWaiting(messages[..p]);
    AfterAppend(Some([]), messages[..p], messages[end..]);
    AfterAppend(Some([]), messages[..end], messages[end..]);
    assert messages == messages[..end] + messages[end..];
  }

  lemma {:induction false} NothingWaits(messages: seq<Message>, i: nat)
    requires WellPaired(messages) && i <= |messages| && (i < |messages| ==> !messages[i].role.Tool?)
    ensures After(Some([]), messages[..i]) == Some([])
  {
    if i == |messages| {
      assert messages[..i] == messages;
    } else {
      var first, more := [messages[i]], messages[i + 1..];
      assert messages == messages[..i] + (first + more) && first[..0] == [];
      AfterAppend(Some([]), messages[..i], first + more);
      AfterAppend(After(Some([]), messages[..i]), first, more);
      BrokenStaysBroken(more);
    }
  }

  lemma {:induction false} NoCallsNoWaiting(messages: seq<Message>)
    requires forall i :: 0 <= i < |messages| ==> messages[i].role.System? || messages[i].role.User?
    ensures After(Some([]), messages) == Some([])
  {
    if messages != [] {
      NoCallsNoWaiting(messages[..|messages| - 1]);
    }
  }

  /** What dropping spans leaves: the pinned prefix and a tail of whole spans. */
  ghost predicate CutAt(messages: seq<Message>, m: seq<Message>, cut: nat) {
    var p := Pinned(messages);
    p <= cut <= |messages| && m == messages[..p] + messages[cut..] && HasObjective(m) && Pinned(m) == p
  }

  /** Compaction as a whole: the objective stays, whole spans go, and pairing is kept. */
  lemma {:induction false} CompactionKeeps(steps: seq<seq<Message>>, k: nat) returns (cut: nat)
    requires DropTrace(steps) && k < |steps| && HasObjective(steps[0])
    ensures CutAt(steps[0], steps[k], cut)
    ensures SpanCount(steps[k]) == SpanCount(steps[0]) - k
    ensures WellPaired(steps[0]) ==> WellPaired(steps[k])
  {
    if k == 0 {
      cut := Pinned(steps[0]);
      CutNothing(steps[0]);
    } else {
      var before := CompactionKeeps(steps, k - 1);
      assert Drops(steps[k - 1], steps[k - 1 + 1]);
      cut := OneMoreDrop(steps[0], steps[k - 1], before);
    }
  }

  lemma {:induction false} CutNothing(messages: seq<Message>)
    requires HasObjective(messages)
    ensures CutAt(messages, messages, Pinned(messages))
  {
    var cut := Pinned(messages);
    assert messages == messages[..cut] + messages[cut..];
  }

  lemma {:induction false} OneMoreDrop(messages: seq<Message>, m: seq<Message>, before: nat) returns (cut: nat)
    requires CutAt(messages, m, before) && Pinned(m) < |m|
    ensures CutAt(messages, DropFirst(m), cut)
    ensures SpanCount(DropFirst(m)) == SpanCount(m) - 1
    ensures WellPaired(m) ==> WellPaired(DropFirst(m))
  {
    DropKeeps(m);
    cut := CutFurther(messages, m, Pinned(messages), before);
  }

  lemma {:induction false} CutFurther(messages: seq<Message>, m: seq<Message>, p: nat, before: nat) returns (cut: nat)
    requires p <= before <= |messages| && m == messages[..p] + messages[before..] && Pinned(m) == p < |m|
    ensures p <= cut <= |messages| && DropFirst(m) == messages[..p] + messages[cut..]
  {
    var end := SkipTools(m, p + 1);
    cut := before + (end - p);
    assert m[..p] == messages[..p] && m[end..] == messages[cut..];
  }

  predicate Triggers(estimate: seq<Message> -> nat, window: nat, messages: seq<Message>) {
    estimate(messages) as real > TriggerAt(window)
  }

  /** Still above the target, with a span to spare. */
  predicate CanDrop(estimate: seq<Message> -> nat, window: nat, messages: seq<Message>) {
    estimate(messages) as real > TargetOf(window) && SpanCount(messages) > MIN_RETAINED_SPANS
  }

  /** The conversation after dropping while it may, and how many rounds went. */
  function Shrunk(estimate: seq<Message> -> nat, window: nat, messages: seq<Message>): (seq<Message>, nat)
    decreases |messages|
  {
    if !CanDrop(estimate, window, messages) then (messages, 0)
    else
      FirstSpan(messages);
      var rest := Shrunk(estimate, window, DropFirst(messages));
      (rest.0, rest.1 + 1)
  }

  function CompactionOf(estimate: seq<Message> -> nat, window: nat, messages: seq<Message>): (seq<Message>, nat) {
    if Triggers(estimate, window, messages) then Shrunk(estimate, window, messages) else (messages, 0)
  }

  /**
   * Drops the oldest whole rounds until the estimate fits; tells how many. The history `steps` shows that no
   * round was dropped needlessly.
   */
  method CompactMessages(messages: seq<Message>, estimate: seq<Message> -> nat, window: nat)
    returns (kept: seq<Message>, dropped: nat, ghost steps: seq<seq<Message>>)
    ensures DropTrace(steps) && |steps| == dropped + 1 && steps[0] == messages && steps[dropped] == kept
    ensures if Triggers(estimate, window, messages) then !CanDrop(estimate, window, kept) else dropped == 0
    ensures forall k :: 0 <= k < dropped ==> CanDrop(estimate, window, steps[k])
    ensures (kept, dropped) == CompactionOf(estimate, window, messages)
  {
    kept, dropped, steps := messages, 0, [messages];
    if !Triggers(estimate, window, messages) {
      return;
    }
    while estimate(kept) as real > TargetOf(window)
      invariant DropTrace(steps) && |steps| == dropped + 1 && steps[0] == messages && steps[dropped] == kept
      invariant forall k :: 0 <= k < dropped ==> CanDrop(estimate, window, steps[k])
      decreases |kept|
    {
      var shorter := DropOldest(kept);
      if shorter.None? {
        break;
      }
      kept, dropped, steps := shorter.value, dropped + 1, steps + [shorter.value];
    }
    TraceGivesShrunk(estimate, window, steps, 0);
  }

  /** The conversations that `Shrunk` goes through. */
  lemma {:induction false} ShrunkTrace(estimate: seq<Message> -> nat, window: nat, messages: seq<Message>)
    returns (steps: seq<seq<Message>>)
    ensures var shrunk := Shrunk(estimate, window, messages);
            && DropTrace(steps) && |steps| == shrunk.1 + 1 && steps[0] == messages && steps[shrunk.1] == shrunk.0
            && forall k :: 0 <= k < shrunk.1 ==> CanDrop(estimate, window, steps[k])
    decreases |messages|
  {
    steps := [messages];
    if CanDrop(estimate, window, messages) {
      FirstSpan(messages);
      var rest := ShrunkTrace(estimate, window, DropFirst(messages));
      steps := steps + rest;
      assert forall k :: 0 < k < |steps| ==> steps[k] == rest[k - 1];
    }
  }

  /** Dropping while one may, and then not any more, gives what `Shrunk` computes. */
  lemma {:induction false} TraceGivesShrunk(estimate: seq<Message> -> nat, window: nat, steps: seq<seq<Message>>,
                                            k: nat)
    requires DropTrace(steps) && k < |steps| && !CanDrop(estimate, window, steps[|steps| - 1])
    requires forall i :: 0 <= i < |steps| - 1 ==> CanDrop(estimate, window, steps[i])
    ensures Shrunk(estimate, window, steps[k]) == (steps[|steps| - 1], |steps| - 1 - k)
    decreases |steps| - k
  {
    if k + 1 < |steps| {
      TraceGivesShrunk(estimate, window, steps, k + 1);
      assert Drops(steps[k], steps[k + 1]);
    }
  }

  /** The conversation without its oldest span, if there are spans to spare. */
  method DropOldest(messages: seq<Message>) returns (shorter: Option<seq<Message>>)
    ensures shorter.None? <==> SpanCount(messages) <= MIN_RETAINED_SPANS
    ensures shorter.Some? ==> Drops(messages, shorter.value) && |shorter.value| < |messages|
  {
    var pinned, spans := EvictableSpans(messages);
    if |spans| <= MIN_RETAINED_SPANS {
      return None;
    }
    FirstSpan(messages);
    shorter := Some(messages[..spans[0].0] + messages[spans[0].1..]);
  }

  lemma {:induction false} FirstSpan(messages: seq<Message>)
    requires SpanCount(messages) > 0
    ensures var spans := SpansFrom(messages, Pinned(messages));
            Pinned(messages) < |messages| && spans[0].0 < spans[0].1 <= |messages| &&
            messages[..spans[0].0] + messages[spans[0].1..] == DropFirst(messages)
  {
  }

  // The note about dropped rounds, on the objective.

  const SENTINEL: string := "\n\n[context management:"

  /** The text before the first sentinel. */
  function Base(s: string): string {
    if s == "" || SENTINEL <= s then "" else [s[0]] + Base(s[1..])
  }

  function Decimal(n: nat): string {
    if n < 10 then [('0' as int + n) as char] else Decimal(n / 10) + [('0' as int + n % 10) as char]
  }

  /** What the note says after the sentinel; its wording is shortened here. */
  function Advice(elided: nat): string { " " + Decimal(elided) + " dropped]" }

  function Noted(content: string, elided: nat): string {
    Base(content) + SENTINEL + Advice(elided)
  }

  /** The conversation with the note on its objective. */
  function WithNote(messages: seq<Message>, elided: nat): seq<Message>
    requires HasObjective(messages)
  {
    var i := Pinned(messages) - 1;
    messages[i := messages[i].(content := Noted(messages[i].content, elided))]
  }

  lemma {:induction false} ObjectiveIsLastPinned(messages: seq<Message>)
    ensures HasObjective(messages) <==> Pinned(messages) > 0 && messages[Pinned(messages) - 1].role.User?
  {
  }

  /** The note goes on the user's objective; without one there is none. */
  function NotedIfAny(messages: seq<Message>, elided: nat): seq<Message> {
    if HasObjective(messages) then WithNote(messages, elided) else messages
  }

  method NoteElision(messages: seq<Message>, elided: nat) returns (noted: seq<Message>)
    ensures noted == NotedIfAny(messages, elided)
  {
    var pinned, _ := EvictableSpans(messages);
    ObjectiveIsLastPinned(messages);
    if pinned == 0 || !messages[pinned - 1].role.User? {
      return messages;
    }
    var objective := messages[pinned - 1];
    noted := messages[pinned - 1 := objective.(content := Noted(objective.content, elided))];
  }

  lemma {:induction false} BaseIsPrefix(s: string)
    ensures Base(s) <= s && Base(Base(s)) == Base(s)
  {
    if s != "" && !(SENTINEL <= s) {
      BaseIsPrefix(s[1..]);
      var b := Base(s);
      assert b[1..] == Base(s[1..]);
      assert SENTINEL <= b ==> SENTINEL <= s;
    }
  }

  /** The sentinel cannot overlap itself: only its first two characters are line breaks. */
  lemma {:induction false} SentinelHasNoBorder(d: nat)
    requires 0 < d < |SENTINEL|
    ensures SENTINEL[d] != SENTINEL[0] || (d + 1 < |SENTINEL| && SENTINEL[d + 1] != SENTINEL[1])
  {
  }

  lemma {:induction false} NoEarlierSentinel(b: string, rest: string)
    requires b != "" && !(SENTINEL <= b)
    ensures !(SENTINEL <= b + SENTINEL + rest)
  {
    var s, d := b + SENTINEL + rest, |b|;
    if d < |SENTINEL| {
      SentinelHasNoBorder(d);
      assert s[d] == SENTINEL[0] && s[d + 1] == SENTINEL[1];
    } else {
      assert s[..|SENTINEL|] == b[..|SENTINEL|];
    }
  }

  lemma {:induction false} BaseOfNoted(b: string, rest: string)
    requires Base(b) == b
    ensures Base(b + SENTINEL + rest) == b
  {
    var s := b + SENTINEL + rest;
    if b == "" {
      assert s == SENTINEL + rest;
    } else {
      NoEarlierSentinel(b, rest);
      assert s[1..] == b[1..] + SENTINEL + rest;
      BaseOfNoted(b[1..], rest);
    }
  }

  /** A later note replaces an earlier one: notes never pile up. */
  lemma {:induction false} NotesDoNotPileUp(content: string, first: nat, second: nat)
    ensures Noted(Noted(content, first), second) == Noted(content, second)
    ensures Base(Noted(content, first)) == Base(content)
  {
    BaseIsPrefix(content);
    BaseOfNoted(Base(content), Advice(first));
  }

  function ValueOf(digits: string): int {
    if digits == "" then 0 else 10 * ValueOf(digits[..|digits| - 1]) + (digits[|digits| - 1] as int - '0' as int)
  }

  lemma {:induction false} DecimalReads(n: nat)
    ensures ValueOf(Decimal(n)) == n
  {
    if n < 10 {
      assert Decimal(n)[..0] == "";
    } else {
      DecimalReads(n / 10);
      assert Decimal(n)[..|Decimal(n)| - 1] == Decimal(n / 10);
    }
  }

  /** The note tells how many rounds are gone: different numbers give different notes. */
  lemma {:induction false} NoteTellsNumber(content: string, m: nat, n: nat)
    requires Noted(content, m) == Noted(content, n)
    ensures m == n
  {
    var start := |Base(content) + SENTINEL|;
    assert Noted(content, m)[start..] == Advice(m) && Noted(content, n)[start..] == Advice(n);
    assert |Advice(m)| == |Decimal(m)| + 10 && |Advice(n)| == |Decimal(n)| + 10;
    assert Advice(m)[1..|Decimal(m)| + 1] == Decimal(m) && Advice(n)[1..|Decimal(n)| + 1] == Decimal(n);
    DecimalReads(m);
    DecimalReads(n);
  }

  /**
   * A conversation of at most 78 percent of the window is left alone; any other is cut until it takes at most 62
   * percent or has three rounds, and after an objective the last three rounds stay.
   */
  lemma {:induction false} CompactionBounds(estimate: seq<Message> -> nat, window: nat, messages: seq<Message>)
    ensures var compaction := CompactionOf(estimate, window, messages);
            if 100 * estimate(messages) <= 78 * window then compaction == (messages, 0)
            else
              && (100 * estimate(compaction.0) <= 62 * window || SpanCount(compaction.0) <= 3)
              && (HasObjective(messages) && compaction.1 > 0 ==> SpanCount(compaction.0) >= 3)
  {
    if Triggers(estimate, window, messages) {
      ShrunkBounds(estimate, window, messages);
    }
  }

  /** Compaction begins above 78 percent, and drops a round only above 62 percent, with more than three to keep. */
  lemma {:induction false} CompactsWhen(estimate: seq<Message> -> nat, window: nat, messages: seq<Message>)
    ensures Triggers(estimate, window, messages) <==> 100 * estimate(messages) > 78 * window
    ensures CanDrop(estimate, window, messages) <==>
            100 * estimate(messages) > 62 * window && SpanCount(messages) > 3
  {
  }

  lemma {:induction false} ShrunkBounds(estimate: seq<Message> -> nat, window: nat, messages: seq<Message>)
    ensures var shrunk := Shrunk(estimate, window, messages);
            && (100 * estimate(shrunk.0) <= 62 * window || SpanCount(shrunk.0) <= 3)
            && (HasObjective(messages) && shrunk.1 > 0 ==> SpanCount(shrunk.0) >= 3)
    decreases |messages|
  {
    if CanDrop(estimate, window, messages) {
      FirstSpan(messages);
      ShrunkBounds(estimate, window, DropFirst(messages));
      if HasObjective(messages) {
        DropKeeps(messages);
      }
    }
  }

  /** Pairing does not look at contents. */
  lemma {:induction false} ContentDoesNotPair(waiting: Option<seq<string>>, messages: seq<Message>, i: nat,
                                              content: string)
    requires i < |messages|
    ensures After(waiting, messages[i := messages[i].(content := content)]) == After(waiting, messages)
  {
    var front, other := messages[..|messages| - 1], messages[i := messages[i].(content := content)];
    if i == |messages| - 1 {
      assert other[..|other| - 1] == front;
    } else {
      assert other[..|other| - 1] == front[i := front[i].(content := content)];
      ContentDoesNotPair(waiting, front, i, content);
    }
  }
}
