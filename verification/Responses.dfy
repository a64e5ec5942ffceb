/** What an assembled response contains, told from the deltas of its stream. */
module Responses {
  import opened Domain
  import opened StreamAssembly

  predicate OfCall(d: Delta, index: int) { d.ToolDelta? && d.index == index }

  /** All text, in order. */
  function TextSaid(deltas: seq<Delta>): string {
    if deltas == [] then ""
    else TextSaid(deltas[..|deltas| - 1]) + if deltas[|deltas| - 1].TextDelta? then deltas[|deltas| - 1].text else ""
  }

  /** All argument fragments of one call, in order. */
  function ArgsSaid(deltas: seq<Delta>, index: int): string {
    if deltas == [] then ""
    else
      ArgsSaid(deltas[..|deltas| - 1], index) +
      if OfCall(deltas[|deltas| - 1], index) then deltas[|deltas| - 1].fragment else ""
  }

  /** What may be said of a call more than once. */
  datatype Field = IdField | NameField | SignatureField

  function ValueOf(d: Delta, field: Field): string {
    if !d.ToolDelta? then ""
    else match field case IdField => d.id case NameField => d.name case SignatureField => d.signature
  }

  /** A delta says something of a call, and no later one says otherwise. */
  ghost predicate SaidLast(deltas: seq<Delta>, index: int, field: Field, at: nat) {
    && at < |deltas| && Says(deltas[at], index, field)
    && forall j :: at < j < |deltas| ==> !Says(deltas[j], index, field)
  }

  predicate Says(d: Delta, index: int, field: Field) { OfCall(d, index) && ValueOf(d, field) != "" }

  ghost predicate NeverSaid(deltas: seq<Delta>, index: int, field: Field) {
    forall d :: d in deltas ==> !Says(d, index, field)
  }

  function Known(b: Buffer, field: Field): string {
    match field case IdField => b.id case NameField => b.name case SignatureField => b.signature
  }

  function BufferOf(deltas: seq<Delta>, index: int): Buffer { Assemble(Part(deltas, ToolChannel(index))) }

  lemma {:induction false} BufferSnoc(deltas: seq<Delta>, d: Delta, index: int)
    ensures BufferOf(deltas + [d], index) ==
            if OfCall(d, index) then Grow(BufferOf(deltas, index), d) else BufferOf(deltas, index)
  {
    PartSnoc(deltas, d, ToolChannel(index));
    SnocMeans(Part(deltas, ToolChannel(index)), d);
  }

  lemma {:induction false} KnownAfter(deltas: seq<Delta>, d: Delta, index: int, field: Field)
    ensures Known(BufferOf(deltas + [d], index), field) ==
            if Says(d, index, field) then ValueOf(d, field) else Known(BufferOf(deltas, index), field)
  {
    BufferSnoc(deltas, d, index);
  }

  /** What is known of a call is what was said last. */
  lemma {:induction false} KnownIsSaidLast(deltas: seq<Delta>, index: int, field: Field)
    ensures NeverSaid(deltas, index, field) ==> Known(BufferOf(deltas, index), field) == ""
    ensures forall at: nat :: SaidLast(deltas, index, field, at) ==>
      Known(BufferOf(deltas, index), field) == ValueOf(deltas[at], field)
  {
    if deltas != [] {
      var front, last := deltas[..|deltas| - 1], deltas[|deltas| - 1];
      assert deltas == front + [last];
      KnownIsSaidLast(front, index, field);
      KnownAfter(front, last, index, field);
      forall at: nat | SaidLast(deltas, index, field, at)
        ensures Known(BufferOf(deltas, index), field) == ValueOf(deltas[at], field)
      {
        if at < |front| {
          assert front[at] == deltas[at] && SaidLast(front, index, field, at);
        }
      }
    }
  }

  lemma {:induction false} ArgsAreSaid(deltas: seq<Delta>, index: int)
    ensures BufferOf(deltas, index).args == ArgsSaid(deltas, index)
  {
    if deltas != [] {
      var front, last := deltas[..|deltas| - 1], deltas[|deltas| - 1];
      assert deltas == front + [last];
      ArgsAreSaid(front, index);
      BufferSnoc(front, last, index);
    }
  }

  lemma {:induction false} TextIsSaid(deltas: seq<Delta>)
    ensures TextOf(Part(deltas, TextChannel)) == TextSaid(deltas)
  {
    if deltas != [] {
      var front, last := deltas[..|deltas| - 1], deltas[|deltas| - 1];
      assert deltas == front + [last];
      TextIsSaid(front);
      PartSnoc(front, last, TextChannel);
      SnocMeans(Part(front, TextChannel), last);
    }
  }

  /** The text of a response is all the text of its stream. */
  lemma {:induction false} ResponseText(deltas: seq<Delta>, newId: int -> string, order: seq<int>, r: Response)
    requires Means(deltas, newId, order, r)
    ensures r.text == TextSaid(deltas)
  {
    TextIsSaid(deltas);
  }

  /**
   * A call has all the argument fragments of its index, and the id, name and signature that were given last; one that
   * was never given an id gets one.
   */
  lemma {:induction false} ResponseCall(deltas: seq<Delta>, newId: int -> string, order: seq<int>, r: Response, k: nat)
    requires Means(deltas, newId, order, r) && k < |order|
    ensures r.calls[k].args == ArgsSaid(deltas, order[k])
    ensures NeverSaid(deltas, order[k], IdField) ==> r.calls[k].id == newId(order[k])
    ensures NeverSaid(deltas, order[k], NameField) ==> r.calls[k].name == ""
    ensures NeverSaid(deltas, order[k], SignatureField) ==> r.calls[k].signature == ""
    ensures forall at: nat :: SaidLast(deltas, order[k], IdField, at) ==> r.calls[k].id == deltas[at].id
    ensures forall at: nat :: SaidLast(deltas, order[k], NameField, at) ==> r.calls[k].name == deltas[at].name
    ensures forall at: nat :: SaidLast(deltas, order[k], SignatureField, at) ==>
      r.calls[k].signature == deltas[at].signature
  {
    var index := order[k];
    assert r.calls[k] == CallOf(BufferOf(deltas, index), index, newId);
    ArgsAreSaid(deltas, index);
    KnownIsSaidLast(deltas, index, IdField);
    KnownIsSaidLast(deltas, index, NameField);
    KnownIsSaidLast(deltas, index, SignatureField);
  }

  /** The last delta of a channel. */
  ghost predicate LastIn(deltas: seq<Delta>, c: Channel, at: nat) {
    && at < |deltas| && ChannelOf(deltas[at]) == c && forall j :: at < j < |deltas| ==> ChannelOf(deltas[j]) != c
  }

  function LastDelta(deltas: seq<Delta>, c: Channel): Option<Delta> {
    if deltas == [] then None
    else if ChannelOf(deltas[|deltas| - 1]) == c then Some(deltas[|deltas| - 1])
    else LastDelta(deltas[..|deltas| - 1], c)
  }

  lemma {:induction false} LastDeltaMeans(deltas: seq<Delta>, c: Channel)
    ensures LastDelta(deltas, c).None? <==> forall d :: d in deltas ==> ChannelOf(d) != c
    ensures forall at: nat :: LastIn(deltas, c, at) ==> LastDelta(deltas, c) == Some(deltas[at])
  {
    if deltas != [] {
      var front, last := deltas[..|deltas| - 1], deltas[|deltas| - 1];
      assert deltas == front + [last] && forall j :: 0 <= j < |front| ==> front[j] == deltas[j];
      LastDeltaMeans(front, c);
      forall at: nat | LastIn(deltas, c, at) ensures LastDelta(deltas, c) == Some(deltas[at]) {
        assert at < |front| ==> LastIn(front, c, at);
      }
    }
  }

  lemma {:induction false} PartEnds(deltas: seq<Delta>, c: Channel)
    ensures match LastDelta(deltas, c)
            case None => Part(deltas, c) == []
            case Some(d) => Part(deltas, c) != [] && Part(deltas, c)[|Part(deltas, c)| - 1] == d
  {
    if deltas != [] {
      PartEnds(deltas[..|deltas| - 1], c);
    }
  }

  /** Usage and finish reason are those reported last; without any, nothing was used and the turn ended. */
  lemma {:induction false} ResponseEnd(deltas: seq<Delta>, newId: int -> string, order: seq<int>, r: Response)
    requires Means(deltas, newId, order, r)
    ensures forall at: nat :: LastIn(deltas, UsageChannel, at) ==> r.usage == deltas[at].usage
    ensures (forall d :: d in deltas ==> !d.UsageDelta?) ==> r.usage == Usage(0, 0)
    ensures forall at: nat :: LastIn(deltas, FinishChannel, at) ==> r.finish == deltas[at].reason
    ensures (forall d :: d in deltas ==> !d.FinishDelta?) ==> r.finish == EndTurn
  {
    LastDeltaMeans(deltas, UsageChannel);
    LastDeltaMeans(deltas, FinishChannel);
    PartEnds(deltas, UsageChannel);
    PartEnds(deltas, FinishChannel);
  }

  // A response, told as a stream and assembled again.

  function ToolsOf(calls: seq<Call>, indices: seq<int>): (deltas: seq<Delta>)
    requires |calls| == |indices|
    ensures |deltas| == |calls|
    ensures forall k :: 0 <= k < |deltas| ==>
      deltas[k] == ToolDelta(indices[k], calls[k].id, calls[k].name, calls[k].signature, calls[k].args)
  {
    seq(|calls|, k requires 0 <= k < |calls| =>
      ToolDelta(indices[k], calls[k].id, calls[k].name, calls[k].signature, calls[k].args))
  }

  function StreamOf(r: Response, indices: seq<int>): seq<Delta>
    requires |r.calls| == |indices|
  {
    [TextDelta(r.text)] + ToolsOf(r.calls, indices) + [UsageDelta(r.usage), FinishDelta(r.finish)]
  }

  lemma {:induction false} PartOfTools(calls: seq<Call>, indices: seq<int>, c: Channel, n: nat)
    requires |calls| == |indices| && Ascending(indices) && n <= |calls|
    ensures var part := Part(ToolsOf(calls, indices)[..n], c);
            && (part != [] ==> c.ToolChannel? && c.index in indices[..n])
            && forall k :: 0 <= k < n && c == ToolChannel(indices[k]) ==> part == [ToolsOf(calls, indices)[k]]
  {
    var tools := ToolsOf(calls, indices);
    if n > 0 {
      PartOfTools(calls, indices, c, n - 1);
      assert tools[..n] == tools[..n - 1] + [tools[n - 1]];
      PartSnoc(tools[..n - 1], tools[n - 1], c);
      assert indices[..n] == indices[..n - 1] + [indices[n - 1]];
      if c == ToolChannel(indices[n - 1]) {
        assert forall k :: 0 <= k < n - 1 ==> indices[k] < indices[n - 1];
        assert c.index !in indices[..n - 1];
      }
    }
  }

  lemma {:induction false} PartOfEnd(usage: Usage, finish: FinishReason, c: Channel)
    ensures Part([UsageDelta(usage), FinishDelta(finish)], c) ==
            if c.UsageChannel? then [UsageDelta(usage)] else if c.FinishChannel? then [FinishDelta(finish)] else []
  {
    var u, f := UsageDelta(usage), FinishDelta(finish);
    assert [u, f] == [u] + [f];
    PartAppend([u], [f], c);
    PartOfOne(u, c);
    PartOfOne(f, c);
  }

  lemma {:induction false} PartOfStream(r: Response, indices: seq<int>, c: Channel)
    requires |r.calls| == |indices|
    ensures Part(StreamOf(r, indices), c) ==
            (if c.TextChannel? then [TextDelta(r.text)] else []) + Part(ToolsOf(r.calls, indices), c) +
            (if c.UsageChannel? then [UsageDelta(r.usage)]
             else if c.FinishChannel? then [FinishDelta(r.finish)] else [])
  {
    var text, tools, end := [TextDelta(r.text)], ToolsOf(r.calls, indices),
                            [UsageDelta(r.usage), FinishDelta(r.finish)];
    PartAppend(text + tools, end, c);
    PartAppend(text, tools, c);
    PartOfEnd(r.usage, r.finish, c);
    PartOfOne(TextDelta(r.text), c);
  }

  lemma {:induction false} ToolsAreTools(calls: seq<Call>, indices: seq<int>, c: Channel)
    requires |calls| == |indices| && Ascending(indices)
    ensures var part := Part(ToolsOf(calls, indices), c);
            && (part != [] ==> c.ToolChannel? && c.index in indices)
            && forall k :: 0 <= k < |calls| && c == ToolChannel(indices[k]) ==> part == [ToolsOf(calls, indices)[k]]
  {
    PartOfTools(calls, indices, c, |calls|);
    assert ToolsOf(calls, indices)[..|calls|] == ToolsOf(calls, indices) && indices[..|calls|] == indices;
  }

  /** Every response is assembled from its own stream. */
  lemma {:induction false} RoundTrip(r: Response, indices: seq<int>, newId: int -> string)
    requires |r.calls| == |indices| && Ascending(indices) && forall c :: c in r.calls ==> c.id != ""
    ensures Means(StreamOf(r, indices), newId, indices, r)
  {
    TextRoundTrip(r, indices);
    EndRoundTrip(r, indices);
    forall k | 0 <= k < |indices|
      ensures r.calls[k] == CallOf(Assemble(Part(StreamOf(r, indices), ToolChannel(indices[k]))), indices[k], newId)
    {
      CallRoundTrip(r, indices, newId, k);
    }
    forall i ensures i in indices <==> Mentions(StreamOf(r, indices), i) {
      MentionsRoundTrip(r, indices, i);
    }
  }

  lemma {:induction false} TextRoundTrip(r: Response, indices: seq<int>)
    requires |r.calls| == |indices| && Ascending(indices)
    ensures TextOf(Part(StreamOf(r, indices), TextChannel)) == r.text
  {
    PartOfStream(r, indices, TextChannel);
    ToolsAreTools(r.calls, indices, TextChannel);
    SnocMeans([], TextDelta(r.text));
    assert [] + [TextDelta(r.text)] == [TextDelta(r.text)] && "" + r.text == r.text;
  }

  lemma {:induction false} EndRoundTrip(r: Response, indices: seq<int>)
    requires |r.calls| == |indices| && Ascending(indices)
    ensures UsageOf(Part(StreamOf(r, indices), UsageChannel)) == r.usage
    ensures FinishOf(Part(StreamOf(r, indices), FinishChannel)) == r.finish
  {
    PartOfStream(r, indices, UsageChannel);
    PartOfStream(r, indices, FinishChannel);
    ToolsAreTools(r.calls, indices, UsageChannel);
    ToolsAreTools(r.calls, indices, FinishChannel);
  }

  lemma {:induction false} CallRoundTrip(r: Response, indices: seq<int>, newId: int -> string, k: nat)
    requires |r.calls| == |indices| && Ascending(indices) && k < |indices| && r.calls[k].id != ""
    ensures r.calls[k] == CallOf(Assemble(Part(StreamOf(r, indices), ToolChannel(indices[k]))), indices[k], newId)
  {
    ToolsAreTools(r.calls, indices, ToolChannel(indices[k]));
    PartOfStream(r, indices, ToolChannel(indices[k]));
    var d := ToolsOf(r.calls, indices)[k];
    assert [] + [d] + [] == [d];
    OneDelta(d);
  }

  lemma {:induction false} MentionsRoundTrip(r: Response, indices: seq<int>, i: int)
    requires |r.calls| == |indices| && Ascending(indices)
    ensures i in indices <==> Mentions(StreamOf(r, indices), i)
  {
    ToolsAreTools(r.calls, indices, ToolChannel(i));
    PartOfStream(r, indices, ToolChannel(i));
    if i in indices {
      var k :| 0 <= k < |indices| && indices[k] == i;
    }
  }

  lemma {:induction false} OneDelta(d: Delta)
    requires d.ToolDelta?
    ensures Assemble([d]) == Buffer(d.id, d.name, d.fragment, d.signature)
  {
    assert [d][..0] == [] && "" + d.fragment == d.fragment;
  }
}
