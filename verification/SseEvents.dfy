/** Grouping the lines of a server-sent event stream into events, as the gateway does it. */
module SseEvents {
  import opened Domain
  import opened Text
  import opened StreamLines

  /** An event before its payload is parsed: its name and its data lines joined by line feeds. */
  datatype Event = Event(name: string, raw: string)

  /** The pending name and data lines, and the events so far. */
  datatype Grouping = Grouping(name: string, data: seq<string>, events: seq<Event>)

  const EMPTY := Grouping("", [], [])

  function Join(data: seq<string>): string {
    if data == [] then ""
    else if |data| == 1 then data[0]
    else Join(data[..|data| - 1]) + "\n" + data[|data| - 1]
  }

  /** An empty line ends a pending event; without data it changes nothing, and a pending name stays. */
  function Dispatch(g: Grouping): Grouping {
    if g.data == [] then g else Grouping("", [], g.events + [Event(g.name, Join(g.data))])
  }

  function TakeLine(g: Grouping, line: string): Grouping {
    if line == "" then Dispatch(g)
    else if StartsWith(line, ":") then g
    else if StartsWith(line, "event:") then g.(name := Strip(line[6..]))
    else if StartsWith(line, "data:") then g.(data := g.data + [Strip(line[5..])])
    else g
  }

  function TakeLines(g: Grouping, lines: seq<string>): Grouping {
    if lines == [] then g else TakeLine(TakeLines(g, lines[..|lines| - 1]), lines[|lines| - 1])
  }

  /** The events of a stream: an event still pending at its end is dispatched. */
  function EventsOf(lines: seq<string>): seq<Event> { Dispatch(TakeLines(EMPTY, lines)).events }

  method GroupEvents(lines: seq<string>) returns (events: seq<Event>)
    ensures events == EventsOf(lines)
  {
    var name, data := "", [];
    events := [];
    for i := 0 to |lines|
      invariant Grouping(name, data, events) == TakeLines(EMPTY, lines[..i])
    {
      var line := lines[i];
      assert lines[..i + 1][..i] == lines[..i];
      if line == "" {
        if data != [] {
          events := events + [Event(name, Join(data))];
          name, data := "", [];
        }
        continue;
      }
      if StartsWith(line, ":") {
        continue;
      }
      if StartsWith(line, "event:") {
        name := Strip(line[6..]);
        continue;
      }
      if StartsWith(line, "data:") {
        data := data + [Strip(line[5..])];
      }
    }
    assert lines[..|lines|] == lines;
    if data != [] {
      events := events + [Event(name, Join(data))];
    }
  }

  /** The whole reader: the events depend on the text alone, not on the chunks it came in. */
  method SseStream(chunks: seq<string>) returns (events: seq<Event>)
    ensures events == EventsOf(Lines(Concat(chunks)))
  {
    var lines := ReadChunks(chunks);
    events := GroupEvents(lines);
  }

  lemma {:induction false} TakeAppend(g: Grouping, a: seq<string>, b: seq<string>)
    ensures TakeLines(g, a + b) == TakeLines(TakeLines(g, a), b)
  {
    if b == [] {
      assert a + b == a;
    } else {
      assert (a + b)[..|a + b| - 1] == a + b[..|b| - 1];
      TakeAppend(g, a, b[..|b| - 1]);
    }
  }

  /** Comment lines change nothing, wherever they stand. */
  lemma {:induction false} CommentsAreIgnored(before: seq<string>, comment: string, after: seq<string>)
    requires StartsWith(comment, ":")
    ensures EventsOf(before + [comment] + after) == EventsOf(before + after)
  {
    TakeAppend(EMPTY, before + [comment], after);
    TakeAppend(EMPTY, before, after);
    assert (before + [comment])[..|before|] == before;
  }

  // Encoding and reading back.

  /** An event as a producer means it: at least one line of data, nothing to strip. */
  predicate Encodable(name: string, data: seq<string>) {
    data != [] && Trimmed(name) && forall d :: d in data ==> Trimmed(d)
  }

  function DataLines(data: seq<string>): seq<string> {
    if data == [] then [] else DataLines(data[..|data| - 1]) + ["data: " + data[|data| - 1]]
  }

  /** The lines of an event; one without a name has no `event:` line. */
  function Encode(name: string, data: seq<string>): seq<string> {
    (if name == "" then [] else ["event: " + name]) + DataLines(data) + [""]
  }

  function EncodeAll(events: seq<(string, seq<string>)>): seq<string> {
    if events == [] then []
    else EncodeAll(events[..|events| - 1]) + Encode(events[|events| - 1].0, events[|events| - 1].1)
  }

  function Meant(events: seq<(string, seq<string>)>): seq<Event> {
    if events == [] then []
    else Meant(events[..|events| - 1]) + [Event(events[|events| - 1].0, Join(events[|events| - 1].1))]
  }

  lemma {:induction false} StripAfterSpace(s: string)
    requires Trimmed(s)
    ensures Strip([' '] + s) == s
  {
    assert ([' '] + s)[1..] == s;
    StripKeepsTrimmed(s);
  }

  lemma {:induction false} TakeName(g: Grouping, name: string)
    requires Trimmed(name)
    ensures TakeLine(g, "event: " + name) == g.(name := name)
  {
    var line := "event: " + name;
    assert line[..6] == "event:" && line[6..] == [' '] + name;
    assert line[..1] == "e";
    StripAfterSpace(name);
  }

  lemma {:induction false} TakeDataLine(g: Grouping, d: string)
    requires Trimmed(d)
    ensures TakeLine(g, "data: " + d) == g.(data := g.data + [d])
  {
    var line := "data: " + d;
    assert line[..5] == "data:" && line[5..] == [' '] + d;
    assert line[..1] == "d";
    assert |line| >= 6 ==> line[..6][0] == 'd';
    StripAfterSpace(d);
  }

  lemma {:induction false} TakeData(g: Grouping, data: seq<string>)
    requires forall d :: d in data ==> Trimmed(d)
    ensures TakeLines(g, DataLines(data)) == g.(data := g.data + data)
  {
    if data == [] {
      assert g.data + data == g.data;
    } else {
      var front, last := data[..|data| - 1], data[|data| - 1];
      assert last in data;
      TakeData(g, front);
      OneDataLine(g.(data := g.data + front), DataLines(front), last, g);
      assert g.data + data == (g.data + front) + [last];
    }
  }

  lemma {:induction false} OneDataLine(before: Grouping, lines: seq<string>, d: string, g: Grouping)
    requires Trimmed(d) && TakeLines(g, lines) == before
    ensures TakeLines(g, lines + ["data: " + d]) == before.(data := before.data + [d])
  {
    TakeAppend(g, lines, ["data: " + d]);
    OneLine(before, "data: " + d);
    TakeDataLine(before, d);
  }

  lemma {:induction false} OneLine(g: Grouping, line: string)
    ensures TakeLines(g, [line]) == TakeLine(g, line)
  {
    assert [line][..0] == [];
  }

  lemma {:induction false} TakeEncoded(events: seq<Event>, name: string, data: seq<string>)
    requires Encodable(name, data)
    ensures TakeLines(Grouping("", [], events), Encode(name, data)) ==
      Grouping("", [], events + [Event(name, Join(data))])
  {
    var g := Grouping("", [], events);
    var head := if name == "" then [] else ["event: " + name];
    TakeAppend(g, head + DataLines(data), [""]);
    TakeAppend(g, head, DataLines(data));
    if name != "" {
      OneLine(g, "event: " + name);
      TakeName(g, name);
    }
    var named := Grouping(name, [], events);
    assert TakeLines(g, head) == named;
    TakeData(named, data);
    assert [] + data == data;
    OneLine(Grouping(name, data, events), "");
  }

  /** What a producer encodes is what the reader yields. */
  lemma {:induction false} RoundTrip(events: seq<(string, seq<string>)>)
    requires forall e :: e in events ==> Encodable(e.0, e.1)
    ensures TakeLines(EMPTY, EncodeAll(events)) == Grouping("", [], Meant(events))
    ensures EventsOf(EncodeAll(events)) == Meant(events)
  {
    if events != [] {
      var front, last := events[..|events| - 1], events[|events| - 1];
      RoundTrip(front);
      assert last in events;
      TakeAppend(EMPTY, EncodeAll(front), Encode(last.0, last.1));
      TakeEncoded(Meant(front), last.0, last.1);
    }
  }

  /** The same over the wire: for any mix of LF, CR and CR LF breaks and any chunks, the events come back. */
  lemma {:induction false} WireRoundTrip(events: seq<(string, seq<string>)>, text: string, pieces: seq<Piece>)
    requires forall e :: e in events ==> Encodable(e.0, e.1)
    requires IsCut(text, pieces) && LinesOf(pieces) == EncodeAll(events)
    ensures EventsOf(Lines(text)) == Meant(events)
  {
    LinesAreThoseOfTheCut(text, pieces);
    RoundTrip(events);
  }

  // Every way of writing an event: spacing is free, and the last empty line may be missing.

  /** A line that sets a field, whatever white space stands around the value. */
  predicate Sets(line: string, field: string, value: string) {
    StartsWith(line, field) && Strip(line[|field|..]) == value
  }

  predicate SetData(lines: seq<string>, data: seq<string>) {
    |lines| == |data| && forall i :: 0 <= i < |data| ==> Sets(lines[i], "data:", data[i])
  }

  /** The lines of an event, up to its empty line. */
  predicate Written(lines: seq<string>, name: string, data: seq<string>) {
    if name == "" then SetData(lines, data)
    else lines != [] && Sets(lines[0], "event:", name) && SetData(lines[1..], data)
  }

  function Terminated(blocks: seq<seq<string>>): seq<string> {
    if blocks == [] then [] else Terminated(blocks[..|blocks| - 1]) + blocks[|blocks| - 1] + [""]
  }

  lemma {:induction false} TakeSet(g: Grouping, line: string, value: string)
    ensures Sets(line, "data:", value) ==> TakeLine(g, line) == g.(data := g.data + [value])
    ensures Sets(line, "event:", value) ==> TakeLine(g, line) == g.(name := value)
  {
    if Sets(line, "data:", value) {
      assert line[0] == line[..5][0] == 'd';
      assert !StartsWith(line, "event:") by {
        if |line| >= 6 {
          assert line[..6][0] == 'd';
        }
      }
    }
    if Sets(line, "event:", value) {
      assert line[0] == line[..6][0] == 'e';
    }
  }

  lemma {:induction false} TakeAllSet(g: Grouping, lines: seq<string>, data: seq<string>)
    requires SetData(lines, data)
    ensures TakeLines(g, lines) == g.(data := g.data + data)
  {
    if data == [] {
      assert g.data + data == g.data;
    } else {
      var n := |data| - 1;
      TakeAllSet(g, lines[..n], data[..n]);
      TakeSet(g.(data := g.data + data[..n]), lines[n], data[n]);
      assert g.data + data[..n] + [data[n]] == g.data + data;
    }
  }

  lemma {:induction false} TakeNamed(g: Grouping, lines: seq<string>, name: string, data: seq<string>)
    requires lines != [] && Sets(lines[0], "event:", name) && SetData(lines[1..], data)
    ensures TakeLines(g, lines) == Grouping(name, g.data + data, g.events)
  {
    var line, rest := lines[0], lines[1..];
    TakeAppend(g, [line], rest);
    OneLine(g, line);
    TakeSet(g, line, name);
    TakeAllSet(g.(name := name), rest, data);
    assert [line] + rest == lines;
  }

  lemma {:induction false} TakeWritten(g: Grouping, lines: seq<string>, name: string, data: seq<string>)
    requires Written(lines, name, data) && g.name == ""
    ensures TakeLines(g, lines) == Grouping(name, g.data + data, g.events)
  {
    if name == "" {
      TakeAllSet(g, lines, data);
    } else {
      TakeNamed(g, lines, name, data);
    }
  }

  /** However the events were written, the reader yields what was meant. */
  lemma {:induction false} AnyWritingRoundTrip(events: seq<(string, seq<string>)>, blocks: seq<seq<string>>)
    requires |blocks| == |events|
    requires forall i :: 0 <= i < |events| ==> events[i].1 != [] && Written(blocks[i], events[i].0, events[i].1)
    ensures TakeLines(EMPTY, Terminated(blocks)) == Grouping("", [], Meant(events))
    ensures EventsOf(Terminated(blocks)) == Meant(events)
  {
    if events != [] {
      var n := |events| - 1;
      AnyWritingRoundTrip(events[..n], blocks[..n]);
      TakeAppend(EMPTY, Terminated(blocks[..n]) + blocks[n], [""]);
      TakeAppend(EMPTY, Terminated(blocks[..n]), blocks[n]);
      TakeWritten(Grouping("", [], Meant(events[..n])), blocks[n], events[n].0, events[n].1);
      assert [] + events[n].1 == events[n].1;
      OneLine(Grouping(events[n].0, events[n].1, Meant(events[..n])), "");
    }
  }

  /** An event that is still pending when the stream ends is not lost. */
  lemma {:induction false} PendingRoundTrip(events: seq<(string, seq<string>)>, blocks: seq<seq<string>>,
                                            lines: seq<string>)
    requires |blocks| == |events| && lines + [""] == Terminated(blocks)
    requires forall i :: 0 <= i < |events| ==> events[i].1 != [] && Written(blocks[i], events[i].0, events[i].1)
    ensures EventsOf(lines) == Meant(events)
  {
    AnyWritingRoundTrip(events, blocks);
    TakeAppend(EMPTY, lines, [""]);
    OneLine(TakeLines(EMPTY, lines), "");
  }

  /** The lines of a text, broken at line feeds alone. */
  function Broken(s: string): (lines: seq<string>)
    ensures lines != []
  {
    if s == "" then [""]
    else
      var before, c := Broken(s[..|s| - 1]), s[|s| - 1];
      if c == '\n' then before + [""] else before[..|before| - 1] + [before[|before| - 1] + [c]]
  }

  /** The same lines, with more at the end of the last one. */
  function Longer(lines: seq<string>, more: string): seq<string>
    requires lines != []
  {
    lines[..|lines| - 1] + [lines[|lines| - 1] + more]
  }

  lemma {:induction false} LongerTwice(lines: seq<string>, more: string, c: char)
    requires lines != []
    ensures Longer(lines, more) != [] && Longer(Longer(lines, more), [c]) == Longer(lines, more + [c])
    ensures Longer(lines, "") == lines
  {
    var last := lines[|lines| - 1];
    assert last + (more + [c]) == last + more + [c] && last + "" == last;
  }

  lemma {:induction false} BrokenSnoc(s: string, c: char)
    ensures Broken(s + [c]) == if c == '\n' then Broken(s) + [""] else Longer(Broken(s), [c])
  {
    assert (s + [c])[..|s|] == s;
  }

  lemma {:induction false} BrokenOneMore(s: string, front: string, c: char)
    requires Broken(s + front) == Longer(Broken(s), front) && c != '\n'
    ensures Broken(s + (front + [c])) == Longer(Broken(s), front + [c])
  {
    BrokenSnoc(s + front, c);
    LongerTwice(Broken(s), front, c);
    assert s + front + [c] == s + (front + [c]);
  }

  lemma {:induction false} BrokenAppend(s: string, more: string)
    requires '\n' !in more
    ensures Broken(s + more) == Longer(Broken(s), more)
  {
    if more == "" {
      LongerTwice(Broken(s), "", 'x');
      assert s + more == s;
    } else {
      var front, c := more[..|more| - 1], more[|more| - 1];
      BrokenAppend(s, front);
      assert front + [c] == more && c in more;
      BrokenOneMore(s, front, c);
    }
  }

  lemma {:induction false} BrokenLine(s: string, line: string)
    requires '\n' !in line
    ensures Broken(s + "\n" + line) == Broken(s) + [line]
  {
    var lines := Broken(s) + [""];
    BrokenSnoc(s, '\n');
    assert s + "\n" == s + ['\n'];
    BrokenAppend(s + "\n", line);
    assert "" + line == line && lines[..|lines| - 1] == Broken(s);
  }

  /** The data of an event are its lines, in order. */
  lemma {:induction false} JoinIsBroken(data: seq<string>)
    requires data != [] && forall d :: d in data ==> '\n' !in d
    ensures Broken(Join(data)) == data
  {
    var n := |data| - 1;
    assert data[n] in data;
    if n == 0 {
      BrokenAppend("", data[0]);
      assert "" + data[0] == data[0] && Longer([""], data[0]) == data;
    } else {
      JoinIsBroken(data[..n]);
      BrokenLine(Join(data[..n]), data[n]);
    }
  }

  // Names across empty lines. The standard would clear a name at every empty line.

  /** An empty line leaves no name exactly when there was none or an event was pending. */
  lemma {:induction false} EmptyLineClearsIff(g: Grouping)
    ensures TakeLine(g, "").name == "" <==> g.name == "" || g.data != []
  {
  }

  predicate DeclaresName(line: string) { line != "" && !StartsWith(line, ":") && StartsWith(line, "event:") }

  /** The last name declared in a list of lines. */
  function NameIn(lines: seq<string>): Option<string> {
    if lines == [] then None
    else
      var last := lines[|lines| - 1];
      if DeclaresName(last) then Some(Strip(last[6..])) else NameIn(lines[..|lines| - 1])
  }

  lemma {:induction false} NameAfter(g: Grouping, lines: seq<string>)
    requires "" !in lines
    ensures TakeLines(g, lines).name == if NameIn(lines).Some? then NameIn(lines).value else g.name
  {
    if lines != [] {
      var front := lines[..|lines| - 1];
      assert lines == front + [lines[|lines| - 1]];
      NameAfter(g, front);
    }
  }

  /** The name of the event that follows an empty line: its own, or one that was left pending before that line. */
  lemma {:induction false} NameOfNext(before: seq<string>, after: seq<string>)
    requires "" !in after
    ensures var g, h := TakeLines(EMPTY, before), TakeLines(EMPTY, before + [""] + after);
            h.name == if NameIn(after).Some? then NameIn(after).value else if g.data == [] then g.name else ""
  {
    var g := TakeLines(EMPTY, before);
    TakeAppend(EMPTY, before + [""], after);
    TakeAppend(EMPTY, before, [""]);
    OneLine(g, "");
    NameAfter(Dispatch(g), after);
  }

  /**
   * The event that an empty line or the end of the stream dispatches carries a name declared before an earlier empty
   * line exactly when none was declared since, and one was pending there without data.
   */
  lemma {:induction false} OldNameIff(before: seq<string>, after: seq<string>)
    requires "" !in after && TakeLines(EMPTY, before + [""] + after).data != []
    ensures var g, h := TakeLines(EMPTY, before), TakeLines(EMPTY, before + [""] + after);
            && |Dispatch(h).events| == |h.events| + 1
            && (NameIn(after).Some? ==> Dispatch(h).events[|h.events|].name == NameIn(after).value)
            && (NameIn(after).None? ==>
                  && (Dispatch(h).events[|h.events|].name != "" <==> g.name != "" && g.data == [])
                  && (g.data == [] ==> Dispatch(h).events[|h.events|].name == g.name))
  {
    NameOfNext(before, after);
  }

  /** A name without data survives an empty line, where the standard would drop it. */
  lemma {:induction false} NameOutlivesEmptyLine()
    ensures EventsOf(["event: a", "", "data: b", ""]) == [Event("a", "b")]
  {
    var a, b := ["event: a", ""], ["data: b", ""];
    assert ["event: a", "", "data: b", ""] == (["event: a"] + [""]) + (["data: b"] + [""]);
    TakeAppend(EMPTY, ["event: a"] + [""], ["data: b"] + [""]);
    TakeAppend(EMPTY, ["event: a"], [""]);
    OneLine(EMPTY, "event: a");
    TakeName(EMPTY, "a");
    assert "event: a" == "event: " + "a" && "data: b" == "data: " + "b";
    var named := Grouping("a", [], []);
    OneLine(named, "");
    TakeAppend(named, ["data: b"], [""]);
    OneLine(named, "data: b");
    TakeDataLine(named, "b");
    OneLine(Grouping("a", ["b"], []), "");
  }
}
