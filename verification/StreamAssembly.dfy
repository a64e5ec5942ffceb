/** Folding streamed deltas into one response. */
module StreamAssembly {
  import opened Domain

  datatype Usage = Usage(input: nat, output: nat)

  datatype FinishReason = EndTurn | ToolUse | MaxTokens | StopSequence

  datatype Delta =
    | TextDelta(text: string)
    | ToolDelta(index: int, id: string, name: string, signature: string, fragment: string)
    | UsageDelta(usage: Usage)
    | FinishDelta(reason: FinishReason)

  /** The part of a response that a delta belongs to. */
  datatype Channel = TextChannel | ToolChannel(index: int) | UsageChannel | FinishChannel

  function ChannelOf(d: Delta): Channel {
    match d
    case TextDelta(_) => TextChannel
    case ToolDelta(i, _, _, _, _) => ToolChannel(i)
    case UsageDelta(_) => UsageChannel
    case FinishDelta(_) => FinishChannel
  }

  /** The deltas of one channel, in order. */
  function Part(deltas: seq<Delta>, c: Channel): seq<Delta> {
    if deltas == [] then []
    else
      var before := Part(deltas[..|deltas| - 1], c);
      if ChannelOf(deltas[|deltas| - 1]) == c then before + [deltas[|deltas| - 1]] else before
  }

  lemma {:induction false} PartIsOfChannel(deltas: seq<Delta>, c: Channel)
    ensures forall d :: d in Part(deltas, c) ==> ChannelOf(d) == c
    ensures forall d :: d in deltas && ChannelOf(d) == c ==> d in Part(deltas, c)
  {
    if deltas != [] {
      PartIsOfChannel(deltas[..|deltas| - 1], c);
      assert deltas == deltas[..|deltas| - 1] + [deltas[|deltas| - 1]];
    }
  }

  // What each part says.

  function TextOf(part: seq<Delta>): string {
    if part == [] then ""
    else
      var before := TextOf(part[..|part| - 1]);
      if part[|part| - 1].TextDelta? then before + part[|part| - 1].text else before
  }

  /** What is known of one tool call. */
  datatype Buffer = Buffer(id: string, name: string, args: string, signature: string)

  const NO_BUFFER := Buffer("", "", "", "")

  /** A later value replaces an earlier one unless it is empty. */
  function Latest(before: string, now: string): string { if now != "" then now else before }

  function Grow(b: Buffer, d: Delta): Buffer {
    if d.ToolDelta?
    then Buffer(Latest(b.id, d.id), Latest(b.name, d.name), b.args + d.fragment, Latest(b.signature, d.signature))
    else b
  }

  function Assemble(part: seq<Delta>): Buffer {
    if part == [] then NO_BUFFER else Grow(Assemble(part[..|part| - 1]), part[|part| - 1])
  }

  function UsageOf(part: seq<Delta>): Usage {
    if part != [] && part[|part| - 1].UsageDelta? then part[|part| - 1].usage else Usage(0, 0)
  }

  function FinishOf(part: seq<Delta>): FinishReason {
    if part != [] && part[|part| - 1].FinishDelta? then part[|part| - 1].reason else EndTurn
  }

  /** The indices of tool calls that a stream mentions. */
  predicate Mentions(deltas: seq<Delta>, index: int) { Part(deltas, ToolChannel(index)) != [] }

  // The response: the calls in the order of their indices.

  /** A call before its arguments are parsed; one without an id is given one. */
  datatype Call = Call(id: string, name: string, args: string, signature: string)

  datatype Response = Response(text: string, calls: seq<Call>, finish: FinishReason, usage: Usage)

  predicate Ascending(s: seq<int>) {
    forall i, j :: 0 <= i < j < |s| ==> s[i] < s[j]
  }

  function CallOf(b: Buffer, index: int, newId: int -> string): Call {
    Call(if b.id != "" then b.id else newId(index), b.name, b.args, b.signature)
  }

  /** What a stream of deltas means. `order` lists the indices it mentions, ascending. */
  ghost predicate Means(deltas: seq<Delta>, newId: int -> string, order: seq<int>, r: Response) {
    && r.text == TextOf(Part(deltas, TextChannel))
    && r.usage == UsageOf(Part(deltas, UsageChannel)) && r.finish == FinishOf(Part(deltas, FinishChannel))
    && Ascending(order) && (forall i :: i in order <==> Mentions(deltas, i))
    && |r.calls| == |order|
    && forall k :: 0 <= k < |order| ==>
         r.calls[k] == CallOf(Assemble(Part(deltas, ToolChannel(order[k]))), order[k], newId)
  }

  /** What the assembler holds after some deltas. */
  ghost predicate Holds(deltas: seq<Delta>, text: string, tools: map<int, Buffer>, usage: Usage,
                        finish: Option<FinishReason>)
  {
    && text == TextOf(Part(deltas, TextChannel))
    && usage == UsageOf(Part(deltas, UsageChannel))
    && (if finish.Some? then finish.value else EndTurn) == FinishOf(Part(deltas, FinishChannel))
    && (forall i :: i in tools <==> Mentions(deltas, i))
    && forall i :: i in tools ==> tools[i] == Assemble(Part(deltas, ToolChannel(i)))
  }

  lemma {:induction false} PartSnoc(deltas: seq<Delta>, d: Delta, c: Channel)
    ensures Part(deltas + [d], c) == if ChannelOf(d) == c then Part(deltas, c) + [d] else Part(deltas, c)
  {
    assert (deltas + [d])[..|deltas|] == deltas;
  }

  lemma {:induction false} SnocMeans(part: seq<Delta>, d: Delta)
    ensures TextOf(part + [d]) == if d.TextDelta? then TextOf(part) + d.text else TextOf(part)
    ensures Assemble(part + [d]) == Grow(Assemble(part), d)
  {
    assert (part + [d])[..|part|] == part;
  }

  class StreamAssembler {
    var text: string
    var tools: map<int, Buffer>
    var usage: Usage
    var finish: Option<FinishReason>
    /** The deltas folded so far. */
    ghost var deltas: seq<Delta>

    ghost predicate Valid()
      reads this
    {
      Holds(deltas, text, tools, usage, finish)
    }

    constructor ()
      ensures Valid() && deltas == []
    {
      text, tools, usage, finish, deltas := "", map[], Usage(0, 0), None, [];
    }

    method Update(d: Delta)
      requires Valid()
      modifies this
      ensures Valid() && deltas == old(deltas) + [d]
    {
      match d
      case TextDelta(_) => TakeText(d);
      case ToolDelta(_, _, _, _, _) => TakeTool(d);
      case UsageDelta(_) => TakeUsage(d);
      case FinishDelta(_) => TakeFinish(d);
    }

    method TakeText(d: Delta)
      requires Valid() && d.TextDelta?
      modifies this
      ensures Valid() && deltas == old(deltas) + [d]
    {
      HoldsText(deltas, d, text, tools, usage, finish);
      text, deltas := text + d.text, deltas + [d];
    }

    method TakeTool(d: Delta)
      requires Valid() && d.ToolDelta?
      modifies this
      ensures Valid() && deltas == old(deltas) + [d]
    {
      HoldsTool(deltas, d, text, tools, usage, finish);
      var buffer := if d.index in tools then tools[d.index] else NO_BUFFER;
      tools, deltas := tools[d.index := Grow(buffer, d)], deltas + [d];
    }

    method TakeUsage(d: Delta)
      requires Valid() && d.UsageDelta?
      modifies this
      ensures Valid() && deltas == old(deltas) + [d]
    {
      HoldsUsage(deltas, d, text, tools, usage, finish);
      usage, deltas := d.usage, deltas + [d];
    }

    method TakeFinish(d: Delta)
      requires Valid() && d.FinishDelta?
      modifies this
      ensures Valid() && deltas == old(deltas) + [d]
    {
      HoldsFinish(deltas, d, text, tools, usage, finish);
      finish, deltas := Some(d.reason), deltas + [d];
    }

    method Build(newId: int -> string) returns (r: Response, ghost order: seq<int>)
      requires Valid()
      ensures Means(deltas, newId, order, r)
    {
      var indices := SortedIndices(tools.Keys);
      order := indices;
      forall k | 0 <= k < |indices| ensures indices[k] in tools {
        assert indices[k] in indices;
      }
      var calls := [];
      for k := 0 to |indices|
        invariant |calls| == k
        invariant forall j :: 0 <= j < k ==> calls[j] == CallOf(tools[indices[j]], indices[j], newId)
      {
        calls := calls + [CallOf(tools[indices[k]], indices[k], newId)];
      }
      r := Response(text, calls, if finish.Some? then finish.value else EndTurn, usage);
    }
  }

  /** One more delta changes the part of its own channel and no other. */
  lemma {:induction false} PartsAfter(before: seq<Delta>, d: Delta)
    ensures Part(before + [d], TextChannel) == if d.TextDelta? then Part(before, TextChannel) + [d]
      else Part(before, TextChannel)
    ensures Part(before + [d], UsageChannel) == if d.UsageDelta? then Part(before, UsageChannel) + [d]
      else Part(before, UsageChannel)
    ensures Part(before + [d], FinishChannel) == if d.FinishDelta? then Part(before, FinishChannel) + [d]
      else Part(before, FinishChannel)
    ensures forall i :: ToolSame(before, d, i) || (d.ToolDelta? && d.index == i)
    ensures d.ToolDelta? ==> Part(before + [d], ToolChannel(d.index)) == Part(before, ToolChannel(d.index)) + [d]
  {
    PartSnoc(before, d, TextChannel);
    PartSnoc(before, d, UsageChannel);
    PartSnoc(before, d, FinishChannel);
    forall i ensures ToolSame(before, d, i) || (d.ToolDelta? && d.index == i) {
      PartSnoc(before, d, ToolChannel(i));
    }
    if d.ToolDelta? {
      PartSnoc(before, d, ToolChannel(d.index));
    }
  }

  /** The delta leaves what is known of one call as it was. */
  ghost predicate ToolSame(before: seq<Delta>, d: Delta, i: int) {
    Part(before + [d], ToolChannel(i)) == Part(before, ToolChannel(i))
  }

  lemma {:induction false} OtherToolsSame(before: seq<Delta>, d: Delta, tools: map<int, Buffer>)
    requires !d.ToolDelta?
    requires forall i :: i in tools <==> Mentions(before, i)
    requires forall i :: i in tools ==> tools[i] == Assemble(Part(before, ToolChannel(i)))
    ensures forall i :: i in tools <==> Mentions(before + [d], i)
    ensures forall i :: i in tools ==> tools[i] == Assemble(Part(before + [d], ToolChannel(i)))
  {
    PartsAfter(before, d);
    forall i ensures i in tools <==> Mentions(before + [d], i) {
      assert ToolSame(before, d, i);
    }
    forall i | i in tools ensures tools[i] == Assemble(Part(before + [d], ToolChannel(i))) {
      assert ToolSame(before, d, i);
    }
  }

  lemma {:induction false} HoldsText(before: seq<Delta>, d: Delta, text: string, tools: map<int, Buffer>, usage: Usage,
                                     finish: Option<FinishReason>)
    requires Holds(before, text, tools, usage, finish) && d.TextDelta?
    ensures Holds(before + [d], text + d.text, tools, usage, finish)
  {
    PartsAfter(before, d);
    OtherToolsSame(before, d, tools);
    SnocMeans(Part(before, TextChannel), d);
  }

  lemma {:induction false} HoldsUsage(before: seq<Delta>, d: Delta, text: string, tools: map<int, Buffer>, usage: Usage,
                                      finish: Option<FinishReason>)
    requires Holds(before, text, tools, usage, finish) && d.UsageDelta?
    ensures Holds(before + [d], text, tools, d.usage, finish)
  {
    PartsAfter(before, d);
    OtherToolsSame(before, d, tools);
  }

  lemma {:induction false} HoldsFinish(before: seq<Delta>, d: Delta, text: string, tools: map<int, Buffer>,
                                       usage: Usage, finish: Option<FinishReason>)
    requires Holds(before, text, tools, usage, finish) && d.FinishDelta?
    ensures Holds(before + [d], text, tools, usage, Some(d.reason))
  {
    PartsAfter(before, d);
    OtherToolsSame(before, d, tools);
  }

  lemma {:induction false} ToolGrows(before: seq<Delta>, d: Delta, tools: map<int, Buffer>)
    requires d.ToolDelta?
    requires forall i :: i in tools <==> Mentions(before, i)
    requires forall i :: i in tools ==> tools[i] == Assemble(Part(before, ToolChannel(i)))
    ensures var grown := tools[d.index := Grow(if d.index in tools then tools[d.index] else NO_BUFFER, d)];
            && (forall i :: i in grown <==> Mentions(before + [d], i))
            && (forall i :: i in grown ==> grown[i] == Assemble(Part(before + [d], ToolChannel(i))))
  {
    PartsAfter(before, d);
    SnocMeans(Part(before, ToolChannel(d.index)), d);
    var grown := tools[d.index := Grow(if d.index in tools then tools[d.index] else NO_BUFFER, d)];
    assert d.index !in tools ==> !Mentions(before, d.index);
    forall i ensures i in grown <==> Mentions(before + [d], i) {
      assert i != d.index ==> ToolSame(before, d, i);
    }
    forall i | i in grown ensures grown[i] == Assemble(Part(before + [d], ToolChannel(i))) {
      assert i != d.index ==> ToolSame(before, d, i);
    }
  }

  lemma {:induction false} HoldsTool(before: seq<Delta>, d: Delta, text: string, tools: map<int, Buffer>, usage: Usage,
                                     finish: Option<FinishReason>)
    requires Holds(before, text, tools, usage, finish) && d.ToolDelta?
    ensures Holds(before + [d], text, tools[d.index := Grow(if d.index in tools then tools[d.index] else NO_BUFFER, d)],
      usage, finish)
  {
    PartsAfter(before, d);
    ToolGrows(before, d, tools);
  }

  // Sorting the indices.

  lemma {:induction false} HasElement(s: set<int>)
    ensures s == {} || exists x :: x in s
  {
    if forall x :: x !in s {
      assert s == {};
    }
  }

  method Least(s: set<int>) returns (least: int)
    requires s != {}
    ensures least in s && forall x :: x in s ==> least <= x
  {
    HasElement(s);
    least :| least in s;
    var left := s - {least};
    while left != {}
      invariant left <= s && least in s && forall x :: x in s && x !in left ==> least <= x
      decreases |left|
    {
      HasElement(left);
      var x :| x in left;
      if x < least {
        least := x;
      }
      left := left - {x};
    }
  }

  method SortedIndices(s: set<int>) returns (order: seq<int>)
    ensures Ascending(order) && forall i :: i in order <==> i in s
  {
    order := [];
    var left := s;
    while left != {}
      invariant left <= s && Ascending(order)
      invariant forall i :: i in order <==> i in s && i !in left
      invariant forall i, j :: i in order && j in left ==> i < j
      decreases |left|
    {
      var least := Least(left);
      AscendingSnoc(order, least);
      order := order + [least];
      left := left - {least};
    }
  }

  lemma {:induction false} AscendingSnoc(s: seq<int>, x: int)
    requires Ascending(s) && forall i :: i in s ==> i < x
    ensures Ascending(s + [x])
  {
    forall i, j | 0 <= i < j < |s + [x]| ensures (s + [x])[i] < (s + [x])[j] {
      assert s[i] in s;
    }
  }

  lemma {:induction false} FrontMembers(s: seq<int>)
    requires Ascending(s) && s != []
    ensures forall x :: x in s[..|s| - 1] <==> x in s && x < s[|s| - 1]
    ensures forall x :: x in s ==> x <= s[|s| - 1]
  {
    var front, last := s[..|s| - 1], s[|s| - 1];
    assert s == front + [last];
    forall x | x in front ensures x < last {
      var i :| 0 <= i < |front| && front[i] == x;
      assert s[i] < s[|s| - 1];
    }
  }

  /** There is only one ascending list of a set. */
  lemma {:induction false} AscendingIsUnique(a: seq<int>, b: seq<int>)
    requires Ascending(a) && Ascending(b) && forall x :: x in a <==> x in b
    ensures a == b
  {
    assert a != [] ==> a[|a| - 1] in a;
    assert b != [] ==> b[|b| - 1] in b;
    if a != [] {
      FrontMembers(a);
      FrontMembers(b);
      var frontA, frontB := a[..|a| - 1], b[..|b| - 1];
      assert a[|a| - 1] == b[|b| - 1];
      forall x ensures x in frontA <==> x in frontB {
        assert x in frontA <==> x in a && x < a[|a| - 1];
        assert x in frontB <==> x in b && x < b[|b| - 1];
      }
      AscendingIsUnique(frontA, frontB);
      assert a == frontA + [a[|a| - 1]] && b == frontB + [b[|b| - 1]];
    }
  }

  // The response does not depend on how the parts are interleaved or cut.

  /** Two streams that say the same, part by part. */
  ghost predicate SayTheSame(a: seq<Delta>, b: seq<Delta>) {
    && TextOf(Part(a, TextChannel)) == TextOf(Part(b, TextChannel))
    && UsageOf(Part(a, UsageChannel)) == UsageOf(Part(b, UsageChannel))
    && FinishOf(Part(a, FinishChannel)) == FinishOf(Part(b, FinishChannel))
    && forall i :: (Mentions(a, i) <==> Mentions(b, i)) &&
         Assemble(Part(a, ToolChannel(i))) == Assemble(Part(b, ToolChannel(i)))
  }

  lemma {:induction false} SameSayingSameResponse(a: seq<Delta>, b: seq<Delta>, newId: int -> string,
                                                  orderA: seq<int>, orderB: seq<int>, ra: Response, rb: Response)
    requires SayTheSame(a, b) && Means(a, newId, orderA, ra) && Means(b, newId, orderB, rb)
    ensures ra == rb
  {
    forall i ensures i in orderA <==> i in orderB {
      assert Mentions(a, i) <==> Mentions(b, i);
    }
    AscendingIsUnique(orderA, orderB);
    forall k | 0 <= k < |ra.calls| ensures ra.calls[k] == rb.calls[k] {
      assert Mentions(a, orderA[k]) <==> Mentions(b, orderA[k]);
    }
    assert ra.calls == rb.calls;
  }

  lemma {:induction false} PartAppend(a: seq<Delta>, b: seq<Delta>, c: Channel)
    ensures Part(a + b, c) == Part(a, c) + Part(b, c)
  {
    if b == [] {
      assert a + b == a && Part(a, c) + [] == Part(a, c);
    } else {
      var front, last := b[..|b| - 1], b[|b| - 1];
      assert (a + b)[..|a + b| - 1] == a + front;
      PartAppend(a, front, c);
      assert Part(a, c) + (Part(front, c) + [last]) == (Part(a, c) + Part(front, c)) + [last];
    }
  }

  lemma {:induction false} PartOfOne(d: Delta, c: Channel)
    ensures Part([d], c) == if ChannelOf(d) == c then [d] else []
  {
    PartSnoc([], d, c);
    assert [] + [d] == [d];
  }

  /** Interleaving: streams with the same parts say the same. */
  lemma {:induction false} SamePartsSaySame(a: seq<Delta>, b: seq<Delta>)
    requires forall c :: Part(a, c) == Part(b, c)
    ensures SayTheSame(a, b)
  {
    forall i ensures Mentions(a, i) <==> Mentions(b, i) {
      assert Part(a, ToolChannel(i)) == Part(b, ToolChannel(i));
    }
  }

  /** Deltas of different parts may change places. */
  lemma {:induction false} NeighboursMaySwap(before: seq<Delta>, x: Delta, y: Delta, after: seq<Delta>)
    requires ChannelOf(x) != ChannelOf(y)
    ensures SayTheSame(before + [x, y] + after, before + [y, x] + after)
  {
    forall c ensures Part(before + [x, y] + after, c) == Part(before + [y, x] + after, c) {
      PartAppend(before + [x, y], after, c);
      PartAppend(before + [y, x], after, c);
      PartAppend(before, [x, y], c);
      PartAppend(before, [y, x], c);
      SwapPart(x, y, c);
    }
    SamePartsSaySame(before + [x, y] + after, before + [y, x] + after);
  }

  lemma {:induction false} SwapPart(x: Delta, y: Delta, c: Channel)
    requires ChannelOf(x) != ChannelOf(y)
    ensures Part([x, y], c) == Part([y, x], c)
  {
    assert [x, y] == [x] + [y] && [y, x] == [y] + [x];
    PartAppend([x], [y], c);
    PartAppend([y], [x], c);
    PartOfOne(x, c);
    PartOfOne(y, c);
    assert [x] + [] == [x] == [] + [x] && [y] + [] == [y] == [] + [y];
  }

  /** The pieces of one delta: a text cut in two, or arguments cut in two with the header on the first piece. */
  function Pieces(d: Delta, cut: nat): seq<Delta>
    requires d.TextDelta? ==> cut <= |d.text|
    requires d.ToolDelta? ==> cut <= |d.fragment|
  {
    match d
    case TextDelta(t) => [TextDelta(t[..cut]), TextDelta(t[cut..])]
    case ToolDelta(i, id, name, signature, f) =>
      [ToolDelta(i, id, name, signature, f[..cut]), ToolDelta(i, "", "", "", f[cut..])]
    case _ => [d]
  }

  lemma {:induction false} TextAppend(a: seq<Delta>, b: seq<Delta>)
    ensures TextOf(a + b) == TextOf(a) + TextOf(b)
  {
    if b == [] {
      assert a + b == a && TextOf(a) + "" == TextOf(a);
    } else {
      assert (a + b)[..|a + b| - 1] == a + b[..|b| - 1];
      TextAppend(a, b[..|b| - 1]);
    }
  }

  function GrowAll(b: Buffer, part: seq<Delta>): Buffer {
    if part == [] then b else Grow(GrowAll(b, part[..|part| - 1]), part[|part| - 1])
  }

  lemma {:induction false} AssembleAppend(a: seq<Delta>, b: seq<Delta>)
    ensures Assemble(a + b) == GrowAll(Assemble(a), b)
  {
    if b == [] {
      assert a + b == a;
    } else {
      assert (a + b)[..|a + b| - 1] == a + b[..|b| - 1];
      AssembleAppend(a, b[..|b| - 1]);
    }
  }

  /** Growing by a delta or by its pieces is the same. */
  lemma {:induction false} GrowByPieces(b: Buffer, d: Delta, cut: nat)
    requires d.ToolDelta? && cut <= |d.fragment|
    ensures Grow(Grow(b, Pieces(d, cut)[0]), Pieces(d, cut)[1]) == Grow(b, d)
  {
    assert b.args + d.fragment[..cut] + d.fragment[cut..] == b.args + d.fragment;
  }

  /** Two streams that differ only in one channel. */
  ghost predicate SameBut(a: seq<Delta>, b: seq<Delta>, c: Channel) {
    forall other :: other != c ==> Part(a, other) == Part(b, other)
  }

  lemma {:induction false} CutsChangeOneChannel(before: seq<Delta>, d: Delta, cut: nat, after: seq<Delta>)
    requires (d.TextDelta? && cut <= |d.text|) || (d.ToolDelta? && cut <= |d.fragment|)
    ensures SameBut(before + [d] + after, before + Pieces(d, cut) + after, ChannelOf(d))
  {
    var a, b := before + [d] + after, before + Pieces(d, cut) + after;
    forall c | c != ChannelOf(d) ensures Part(a, c) == Part(b, c) {
      ThreeParts(before, [d], after, c);
      ThreeParts(before, Pieces(d, cut), after, c);
      PartOfOne(d, c);
      PartOfPieces(d, cut, c);
    }
  }

  lemma {:induction false} ChangedChannel(before: seq<Delta>, d: Delta, cut: nat, after: seq<Delta>)
    requires (d.TextDelta? && cut <= |d.text|) || (d.ToolDelta? && cut <= |d.fragment|)
    ensures var c := ChannelOf(d);
            && Part(before + [d] + after, c) == Part(before, c) + [d] + Part(after, c)
            && Part(before + Pieces(d, cut) + after, c) == Part(before, c) + Pieces(d, cut) + Part(after, c)
  {
    var c := ChannelOf(d);
    ThreeParts(before, [d], after, c);
    ThreeParts(before, Pieces(d, cut), after, c);
    PartOfOne(d, c);
    PartOfPieces(d, cut, c);
  }

  lemma {:induction false} SameButText(a: seq<Delta>, b: seq<Delta>)
    requires SameBut(a, b, TextChannel) && TextOf(Part(a, TextChannel)) == TextOf(Part(b, TextChannel))
    ensures SayTheSame(a, b)
  {
    forall i ensures Part(a, ToolChannel(i)) == Part(b, ToolChannel(i)) {
    }
  }

  lemma {:induction false} SameButTool(a: seq<Delta>, b: seq<Delta>, index: int)
    requires SameBut(a, b, ToolChannel(index)) && Mentions(a, index) && Mentions(b, index)
    requires Assemble(Part(a, ToolChannel(index))) == Assemble(Part(b, ToolChannel(index)))
    ensures SayTheSame(a, b)
  {
    forall i ensures i != index ==> Part(a, ToolChannel(i)) == Part(b, ToolChannel(i)) {
      assert i != index ==> ToolChannel(i) != ToolChannel(index);
    }
  }

  /** Fragmentation: a delta may be cut anywhere. */
  lemma {:induction false} CutsSayTheSame(before: seq<Delta>, d: Delta, cut: nat, after: seq<Delta>)
    requires (d.TextDelta? && cut <= |d.text|) || (d.ToolDelta? && cut <= |d.fragment|)
    ensures SayTheSame(before + [d] + after, before + Pieces(d, cut) + after)
  {
    var a, b := before + [d] + after, before + Pieces(d, cut) + after;
    CutsChangeOneChannel(before, d, cut, after);
    ChangedChannel(before, d, cut, after);
    if d.TextDelta? {
      CutText(Part(before, TextChannel), d, cut, Part(after, TextChannel));
      SameButText(a, b);
    } else {
      CutTool(Part(before, ToolChannel(d.index)), d, cut, Part(after, ToolChannel(d.index)));
      SameButTool(a, b, d.index);
    }
  }

  lemma {:induction false} ThreeParts(a: seq<Delta>, b: seq<Delta>, d: seq<Delta>, c: Channel)
    ensures Part(a + b + d, c) == Part(a, c) + Part(b, c) + Part(d, c)
  {
    PartAppend(a + b, d, c);
    PartAppend(a, b, c);
  }

  lemma {:induction false} PartOfPieces(d: Delta, cut: nat, c: Channel)
    requires (d.TextDelta? && cut <= |d.text|) || (d.ToolDelta? && cut <= |d.fragment|)
    ensures Part(Pieces(d, cut), c) == if ChannelOf(d) == c then Pieces(d, cut) else []
  {
    var p := Pieces(d, cut);
    assert p == [p[0]] + [p[1]];
    PartAppend([p[0]], [p[1]], c);
    PartOfOne(p[0], c);
    PartOfOne(p[1], c);
  }

  lemma {:induction false} CutText(before: seq<Delta>, d: Delta, cut: nat, after: seq<Delta>)
    requires d.TextDelta? && cut <= |d.text|
    ensures TextOf(before + [d] + after) == TextOf(before + Pieces(d, cut) + after)
  {
    TextAppend(before + [d], after);
    TextAppend(before + Pieces(d, cut), after);
    TwoTexts(before, d, cut);
  }

  lemma {:induction false} TwoTexts(before: seq<Delta>, d: Delta, cut: nat)
    requires d.TextDelta? && cut <= |d.text|
    ensures TextOf(before + [d]) == TextOf(before + Pieces(d, cut))
  {
    SnocMeans(before, d);
    var p := Pieces(d, cut);
    assert before + p == (before + [p[0]]) + [p[1]];
    SnocMeans(before, p[0]);
    SnocMeans(before + [p[0]], p[1]);
    Rejoin(TextOf(before), d.text, cut);
  }

  lemma {:induction false} Rejoin(before: string, text: string, cut: nat)
    requires cut <= |text|
    ensures before + text[..cut] + text[cut..] == before + text
  {
    assert text[..cut] + text[cut..] == text;
  }

  lemma {:induction false} CutTool(before: seq<Delta>, d: Delta, cut: nat, after: seq<Delta>)
    requires d.ToolDelta? && cut <= |d.fragment|
    ensures Assemble(before + [d] + after) == Assemble(before + Pieces(d, cut) + after)
  {
    AssembleAppend(before + [d], after);
    AssembleAppend(before + Pieces(d, cut), after);
    SnocMeans(before, d);
    var p := Pieces(d, cut);
    assert before + p == (before + [p[0]]) + [p[1]];
    SnocMeans(before, p[0]);
    SnocMeans(before + [p[0]], p[1]);
    GrowByPieces(Assemble(before), d, cut);
  }

  // Any fragmentation at all.

  function FragmentsOf(ps: seq<Delta>): string {
    if ps == [] then ""
    else FragmentsOf(ps[..|ps| - 1]) + if ps[|ps| - 1].ToolDelta? then ps[|ps| - 1].fragment else ""
  }

  /** The pieces of a delta, however many: together they spell it, and the first one carries the header of a call. */
  ghost predicate Spell(d: Delta, ps: seq<Delta>) {
    match d
    case TextDelta(text) => ps != [] && TextOf(ps) == text && forall p :: p in ps ==> p.TextDelta?
    case ToolDelta(index, id, name, signature, fragment) =>
      && ps != [] && FragmentsOf(ps) == fragment
      && (forall k :: 0 <= k < |ps| ==> ps[k].ToolDelta? && ps[k].index == index)
      && ps[0].id == id && ps[0].name == name && ps[0].signature == signature
      && forall k :: 0 < k < |ps| ==> ps[k].id == "" && ps[k].name == "" && ps[k].signature == ""
    case _ => ps == [d]
  }

  function Flatten(parts: seq<seq<Delta>>): seq<Delta> {
    if parts == [] then [] else Flatten(parts[..|parts| - 1]) + parts[|parts| - 1]
  }

  lemma {:induction false} PartOfSpelling(d: Delta, ps: seq<Delta>, c: Channel)
    requires forall p :: p in ps ==> ChannelOf(p) == ChannelOf(d)
    ensures Part(ps, c) == if ChannelOf(d) == c then ps else []
  {
    if ps != [] {
      var front, last := ps[..|ps| - 1], ps[|ps| - 1];
      assert ps == front + [last];
      PartOfSpelling(d, front, c);
    }
  }

  lemma {:induction false} SpellingChannel(d: Delta, ps: seq<Delta>)
    requires Spell(d, ps)
    ensures ps != [] && forall p :: p in ps ==> ChannelOf(p) == ChannelOf(d)
  {
  }

  /** A buffer grows by the pieces of a call as by the call. */
  lemma {:induction false} GrowBySpelling(b: Buffer, d: Delta, ps: seq<Delta>, n: nat)
    requires d.ToolDelta? && Spell(d, ps) && 0 < n <= |ps|
    ensures GrowAll(b, ps[..n]) == Grow(b, d.(fragment := FragmentsOf(ps[..n])))
  {
    assert ps[..n][..n - 1] == ps[..n - 1];
    if n > 1 {
      GrowBySpelling(b, d, ps, n - 1);
      assert b.args + FragmentsOf(ps[..n - 1]) + ps[n - 1].fragment ==
        b.args + (FragmentsOf(ps[..n - 1]) + ps[n - 1].fragment);
    } else {
      assert ps[..0] == [] && "" + ps[0].fragment == ps[0].fragment;
    }
  }

  lemma {:induction false} PartsGrow(a: seq<Delta>, d: Delta, ps: seq<Delta>, c: Channel)
    requires Spell(d, ps)
    ensures Part(a + ps, c) == if ChannelOf(d) == c then Part(a, c) + ps else Part(a, c)
  {
    SpellingChannel(d, ps);
    PartAppend(a, ps, c);
    PartOfSpelling(d, ps, c);
    assert Part(a, c) + [] == Part(a, c);
  }

  lemma {:induction false} ToolSpells(a: seq<Delta>, b: seq<Delta>, d: Delta, ps: seq<Delta>, i: int)
    requires (Mentions(a, i) <==> Mentions(b, i)) &&
      Assemble(Part(a, ToolChannel(i))) == Assemble(Part(b, ToolChannel(i)))
    requires Spell(d, ps)
    ensures Mentions(a + [d], i) <==> Mentions(b + ps, i)
    ensures Assemble(Part(a + [d], ToolChannel(i))) == Assemble(Part(b + ps, ToolChannel(i)))
  {
    var c := ToolChannel(i);
    PartSnoc(a, d, c);
    PartsGrow(b, d, ps, c);
    if ChannelOf(d) == c {
      SpellingChannel(d, ps);
      SnocMeans(Part(a, c), d);
      AssembleAppend(Part(b, c), ps);
      GrowBySpelling(Assemble(Part(b, c)), d, ps, |ps|);
      assert ps[..|ps|] == ps;
    }
  }

  lemma {:induction false} TextSpells(a: seq<Delta>, b: seq<Delta>, d: Delta, ps: seq<Delta>)
    requires TextOf(Part(a, TextChannel)) == TextOf(Part(b, TextChannel)) && Spell(d, ps)
    ensures TextOf(Part(a + [d], TextChannel)) == TextOf(Part(b + ps, TextChannel))
  {
    PartSnoc(a, d, TextChannel);
    PartsGrow(b, d, ps, TextChannel);
    if d.TextDelta? {
      SnocMeans(Part(a, TextChannel), d);
      TextAppend(Part(b, TextChannel), ps);
    }
  }

  lemma {:induction false} UsageSpells(a: seq<Delta>, b: seq<Delta>, d: Delta, ps: seq<Delta>)
    requires UsageOf(Part(a, UsageChannel)) == UsageOf(Part(b, UsageChannel)) && Spell(d, ps)
    ensures UsageOf(Part(a + [d], UsageChannel)) == UsageOf(Part(b + ps, UsageChannel))
  {
    PartSnoc(a, d, UsageChannel);
    PartsGrow(b, d, ps, UsageChannel);
  }

  lemma {:induction false} FinishSpells(a: seq<Delta>, b: seq<Delta>, d: Delta, ps: seq<Delta>)
    requires FinishOf(Part(a, FinishChannel)) == FinishOf(Part(b, FinishChannel)) && Spell(d, ps)
    ensures FinishOf(Part(a + [d], FinishChannel)) == FinishOf(Part(b + ps, FinishChannel))
  {
    PartSnoc(a, d, FinishChannel);
    PartsGrow(b, d, ps, FinishChannel);
  }

  /** However a response is fragmented, delta by delta, it says the same. */
  lemma {:induction false} FragmentsSayTheSame(deltas: seq<Delta>, parts: seq<seq<Delta>>)
    requires |parts| == |deltas| && forall k :: 0 <= k < |deltas| ==> Spell(deltas[k], parts[k])
    ensures SayTheSame(deltas, Flatten(parts))
  {
    if deltas != [] {
      var n := |deltas| - 1;
      var a, b := deltas[..n], Flatten(parts[..n]);
      FragmentsSayTheSame(a, parts[..n]);
      assert deltas == a + [deltas[n]];
      TextSpells(a, b, deltas[n], parts[n]);
      UsageSpells(a, b, deltas[n], parts[n]);
      FinishSpells(a, b, deltas[n], parts[n]);
      forall i ensures (Mentions(deltas, i) <==> Mentions(b + parts[n], i)) &&
                       Assemble(Part(deltas, ToolChannel(i))) == Assemble(Part(b + parts[n], ToolChannel(i))) {
        assert Mentions(a, i) <==> Mentions(b, i);
        ToolSpells(a, b, deltas[n], parts[n], i);
      }
    }
  }

  /** Fragments that are then interleaved in any way that keeps each channel's order still say the same. */
  lemma {:induction false} FragmentsMayInterleave(deltas: seq<Delta>, parts: seq<seq<Delta>>, stream: seq<Delta>)
    requires |parts| == |deltas| && forall k :: 0 <= k < |deltas| ==> Spell(deltas[k], parts[k])
    requires forall c :: Part(stream, c) == Part(Flatten(parts), c)
    ensures SayTheSame(deltas, stream)
  {
    FragmentsSayTheSame(deltas, parts);
    SamePartsSaySame(Flatten(parts), stream);
    forall i ensures (Mentions(deltas, i) <==> Mentions(stream, i)) &&
                     Assemble(Part(deltas, ToolChannel(i))) == Assemble(Part(stream, ToolChannel(i))) {
      assert Mentions(deltas, i) <==> Mentions(Flatten(parts), i);
      assert Mentions(Flatten(parts), i) <==> Mentions(stream, i);
    }
  }
}
