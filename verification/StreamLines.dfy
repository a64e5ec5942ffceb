/** Splitting a streamed text into lines, whatever the chunks it arrives in. */
module StreamLines {
  import opened Domain

  predicate IsBreak(c: char) { c == '\n' || c == '\r' }

  predicate NoBreaks(s: string) { forall i :: 0 <= i < |s| ==> !IsBreak(s[i]) }

  // Reading a text one character at a time. A CR ends its line, but an LF right after it belongs to the same break.

  datatype Scan = Scan(lines: seq<string>, current: string, halfBreak: bool)

  const START := Scan([], "", false)

  /** A line whose break turns out to be complete. */
  function Settle(s: Scan): Scan {
    if s.halfBreak then Scan(s.lines + [s.current], "", false) else s
  }

  function PlainStep(s: Scan, c: char): Scan {
    if c == '\n' then Scan(s.lines + [s.current], "", false)
    else if c == '\r' then Scan(s.lines, s.current, true)
    else Scan(s.lines, s.current + [c], false)
  }

  function Step(s: Scan, c: char): Scan {
    if s.halfBreak && c == '\n' then Settle(s) else PlainStep(Settle(s), c)
  }

  function Read(s: Scan, text: string): Scan {
    if text == "" then s else Step(Read(s, text[..|text| - 1]), text[|text| - 1])
  }

  /** What a chunk reader keeps: the unfinished line, with the CR that may be half a break. */
  function Rest(s: Scan): string { if s.halfBreak then s.current + ['\r'] else s.current }

  /** The lines once the text is over: an unfinished line counts if it is not empty. */
  function Finish(s: Scan): seq<string> {
    if s.halfBreak || s.current != "" then s.lines + [s.current] else s.lines
  }

  /** The lines of a whole text. */
  function Lines(text: string): seq<string> { Finish(Read(START, text)) }

  lemma {:induction false} ReadAppend(s: Scan, a: string, b: string)
    ensures Read(s, a + b) == Read(Read(s, a), b)
  {
    if b == "" {
      assert a + b == a;
    } else {
      assert (a + b)[..|a + b| - 1] == a + b[..|b| - 1];
      ReadAppend(s, a, b[..|b| - 1]);
    }
  }

  // The splitter looks ahead by one character and cuts the text in place.

  /** The reader's state at `index`, seen by the splitter: lines so far, and the current line from `start`. */
  ghost predicate At(text: string, final: bool, lines: seq<string>, start: nat, index: nat)
    requires start <= index <= |text|
  {
    var s := Read(START, text[..index]);
    && Settle(s) == Scan(lines, text[start..index], false)
    && (s.halfBreak ==> if index < |text| then text[index] != '\n' else final)
  }

  lemma {:induction false} OneStep(text: string, index: nat)
    requires index < |text|
    ensures Read(START, text[..index + 1]) == Step(Read(START, text[..index]), text[index])
  {
    assert text[..index + 1][..index] == text[..index];
  }

  lemma {:induction false} PlainCharacter(text: string, final: bool, lines: seq<string>, start: nat, index: nat)
    requires start <= index < |text| && At(text, final, lines, start, index) && !IsBreak(text[index])
    ensures At(text, final, lines, start, index + 1)
  {
    OneStep(text, index);
    assert text[start..index + 1] == text[start..index] + [text[index]];
  }

  lemma {:induction false} LineFeed(text: string, final: bool, lines: seq<string>, start: nat, index: nat)
    requires start <= index < |text| && At(text, final, lines, start, index) && text[index] == '\n'
    ensures At(text, final, lines + [text[start..index]], index + 1, index + 1)
  {
    OneStep(text, index);
  }

  lemma {:induction false} CarriageReturn(text: string, final: bool, lines: seq<string>, start: nat, index: nat)
    requires start <= index < |text| && At(text, final, lines, start, index) && text[index] == '\r'
    ensures Read(START, text[..index + 1]) == Scan(lines, text[start..index], true)
    ensures var next := if index + 1 < |text| && text[index + 1] == '\n' then index + 2 else index + 1;
            (next == |text| && next == index + 1 ==> final) ==>
              At(text, final, lines + [text[start..index]], next, next)
  {
    OneStep(text, index);
    if index + 1 < |text| && text[index + 1] == '\n' {
      OneStep(text, index + 1);
    }
  }

  method SplitStreamLines(text: string, final: bool) returns (lines: seq<string>, rest: string)
    ensures !final ==> lines == Read(START, text).lines && rest == Rest(Read(START, text))
    ensures final ==> lines == Lines(text) && rest == ""
  {
    lines := [];
    var start, index := 0, 0;
    while index < |text|
      invariant start <= index <= |text| && At(text, final, lines, start, index)
    {
      if text[index] == '\n' {
        LineFeed(text, final, lines, start, index);
        lines := lines + [text[start..index]];
        index := index + 1;
        start := index;
        continue;
      }
      if text[index] == '\r' {
        CarriageReturn(text, final, lines, start, index);
        if index + 1 == |text| && !final {
          assert text[..index + 1] == text && text[start..] == text[start..index] + ['\r'];
          break;
        }
        lines := lines + [text[start..index]];
        index := index + (if index + 1 < |text| && text[index + 1] == '\n' then 2 else 1);
        start := index;
        continue;
      }
      PlainCharacter(text, final, lines, start, index);
      index := index + 1;
    }
    rest := text[start..];
    if index == |text| {
      assert text[..index] == text && text[start..index] == rest;
    }
    if final && rest != "" {
      lines := lines + [rest];
      rest := "";
    }
  }

  // Chunks.

  function Concat(chunks: seq<string>): string {
    if chunks == [] then "" else Concat(chunks[..|chunks| - 1]) + chunks[|chunks| - 1]
  }

  /** An unfinished line has no break in it. */
  lemma {:induction false} CurrentHasNoBreaks(text: string)
    ensures NoBreaks(Read(START, text).current)
  {
    if text != "" {
      CurrentHasNoBreaks(text[..|text| - 1]);
    }
  }

  lemma {:induction false} ReadPlain(s: Scan, text: string)
    requires NoBreaks(text) && !s.halfBreak
    ensures Read(s, text) == Scan(s.lines, s.current + text, false)
  {
    if text == "" {
      assert s.current + text == s.current;
    } else {
      ReadPlain(s, text[..|text| - 1]);
      assert s.current + text == (s.current + text[..|text| - 1]) + [text[|text| - 1]];
    }
  }

  /** Reading what was kept leads back to the state it was kept from. */
  lemma {:induction false} RereadRest(s: Scan)
    requires NoBreaks(s.current)
    ensures Read(Scan([], "", false), Rest(s)) == Scan([], s.current, s.halfBreak)
  {
    ReadPlain(START, s.current);
    assert "" + s.current == s.current;
    if s.halfBreak {
      assert Rest(s)[..|s.current|] == s.current;
    }
  }

  /** Lines already read only stand before those that follow. */
  lemma {:induction false} LinesStandBefore(done: seq<string>, s: Scan, text: string)
    ensures Read(Scan(done + s.lines, s.current, s.halfBreak), text) ==
            Scan(done + Read(s, text).lines, Read(s, text).current, Read(s, text).halfBreak)
  {
    if text != "" {
      var front, last := text[..|text| - 1], text[|text| - 1];
      LinesStandBefore(done, s, front);
      StepStandsBefore(done, Read(s, front), last);
    }
  }

  lemma {:induction false} StepStandsBefore(done: seq<string>, s: Scan, c: char)
    ensures Step(Scan(done + s.lines, s.current, s.halfBreak), c) ==
            Scan(done + Step(s, c).lines, Step(s, c).current, Step(s, c).halfBreak)
  {
    assert done + (s.lines + [s.current]) == (done + s.lines) + [s.current];
    assert done + (s.lines + [s.current] + [""]) == (done + s.lines) + [s.current] + [""];
  }

  /** A chunk read after what was kept continues the reading of the whole text. */
  lemma {:induction false} Continue(before: string, chunk: string)
    ensures var s := Read(START, before);
            var more := Read(START, Rest(s) + chunk);
            Read(START, before + chunk) == Scan(s.lines + more.lines, more.current, more.halfBreak)
  {
    var s := Read(START, before);
    CurrentHasNoBreaks(before);
    RereadRest(s);
    ReadAppend(START, before, chunk);
    ReadAppend(START, Rest(s), chunk);
    LinesStandBefore(s.lines, Scan([], s.current, s.halfBreak), chunk);
    assert s.lines + [] == s.lines;
  }

  /** The line reader: for every way of cutting a text into chunks, the lines of the whole text. */
  method ReadChunks(chunks: seq<string>) returns (lines: seq<string>)
    ensures lines == Lines(Concat(chunks))
  {
    lines := [];
    var buffered := "";
    for i := 0 to |chunks|
      invariant lines == Read(START, Concat(chunks[..i])).lines && buffered == Rest(Read(START, Concat(chunks[..i])))
    {
      assert chunks[..i + 1][..i] == chunks[..i];
      Continue(Concat(chunks[..i]), chunks[i]);
      var more;
      more, buffered := SplitStreamLines(buffered + chunks[i], false);
      lines := lines + more;
    }
    assert chunks[..|chunks|] == chunks;
    Continue(Concat(chunks), "");
    assert Concat(chunks) + "" == Concat(chunks);
    var last, _ := SplitStreamLines(buffered + "", true);
    lines := lines + last;
  }

  // The line rule itself, independently of how lines are found: section 9.2.5 of the WHATWG HTML standard.

  /** A line and the break that ends it; only the last line may lack one, and then it is not empty. */
  datatype Piece = Piece(line: string, end: string)

  /** The text begins with this piece: a line up to its first break, or all of the text if there is none. */
  predicate Begins(text: string, p: Piece) {
    var n := |p.line| + |p.end|;
    && n <= |text| && text[..n] == p.line + p.end && NoBreaks(p.line)
    && (p.end == "\n" || p.end == "\r" || p.end == "\r\n" || (p.end == "" && p.line != "" && n == |text|))
    && (p.end == "\r" ==> n == |text| || text[n] != '\n')
  }

  predicate IsCut(text: string, pieces: seq<Piece>)
    decreases |pieces|
  {
    if pieces == [] then text == ""
    else Begins(text, pieces[0]) && IsCut(text[|pieces[0].line| + |pieces[0].end|..], pieces[1..])
  }

  function LinesOf(pieces: seq<Piece>): seq<string> {
    if pieces == [] then [] else [pieces[0].line] + LinesOf(pieces[1..])
  }

  /** Reading one piece: its line is complete, or will be at the end of the text. */
  lemma {:induction false} ReadPiece(s: Scan, p: Piece)
    requires !s.halfBreak && s.current == "" && NoBreaks(p.line)
    requires p.end == "\n" || p.end == "\r" || p.end == "\r\n" || p.end == ""
    ensures Read(s, p.line + p.end) ==
      if p.end == "" then Scan(s.lines, p.line, false)
      else if p.end == "\r" then Scan(s.lines, p.line, true)
      else Scan(s.lines + [p.line], "", false)
  {
    ReadPlain(s, p.line);
    assert s.current + p.line == p.line;
    ReadAppend(s, p.line, p.end);
    ReadBreak(Scan(s.lines, p.line, false), p.end);
    if p.end == "" {
      assert p.line + p.end == p.line;
    }
  }

  lemma {:induction false} ReadBreak(s: Scan, end: string)
    requires !s.halfBreak && (end == "\n" || end == "\r" || end == "\r\n" || end == "")
    ensures Read(s, end) ==
      if end == "" then s
      else if end == "\r" then Scan(s.lines, s.current, true)
      else Scan(s.lines + [s.current], "", false)
  {
    if end == "\r\n" {
      assert end[..1] == "\r";
      ReadBreak(s, "\r");
    } else if end != "" {
      assert end[..0] == "";
    }
  }

  /** After a complete break that is not followed by LF, reading goes on as from a settled line. */
  lemma {:induction false} ReadSettled(s: Scan, text: string)
    requires s.halfBreak && text != "" && text[0] != '\n'
    ensures Read(s, text) == Read(Settle(s), text)
  {
    if |text| == 1 {
      assert text[..0] == "";
    } else {
      ReadSettled(s, text[..|text| - 1]);
    }
  }

  /** Reading past a piece with a complete break: its line is there, and reading goes on afresh. */
  lemma {:induction false} ReadPast(s: Scan, text: string, p: Piece)
    requires Begins(text, p) && !s.halfBreak && s.current == "" && p.end != ""
    ensures var n := |p.line| + |p.end|;
            Finish(Read(s, text)) == Finish(Read(Scan(s.lines + [p.line], "", false), text[n..]))
  {
    var n := |p.line| + |p.end|;
    ReadPiece(s, p);
    assert text == text[..n] + text[n..];
    ReadAppend(s, text[..n], text[n..]);
    if p.end == "\r" && text[n..] != "" {
      ReadSettled(Read(s, text[..n]), text[n..]);
    }
  }

  lemma {:induction false} ReadLast(s: Scan, text: string, p: Piece)
    requires Begins(text, p) && !s.halfBreak && s.current == "" && p.end == ""
    ensures Finish(Read(s, text)) == s.lines + [p.line]
    ensures text[|p.line| + |p.end|..] == ""
  {
    ReadPiece(s, p);
    assert text == text[..|text|] == p.line + p.end;
  }

  lemma {:induction false} LineFirst(done: seq<string>, line: string, more: seq<string>)
    ensures (done + [line]) + more == done + ([line] + more)
  {
  }

  /** There is only one way to cut a text into lines, and its lines are those found. */
  lemma {:induction false} CutGivesLines(s: Scan, text: string, pieces: seq<Piece>)
    requires IsCut(text, pieces) && !s.halfBreak && s.current == ""
    ensures Finish(Read(s, text)) == s.lines + LinesOf(pieces)
    decreases |pieces|
  {
    if pieces == [] {
      assert s.lines + [] == s.lines;
    } else if pieces[0].end == "" {
      ReadLast(s, text, pieces[0]);
      NothingToCut(pieces[1..]);
    } else {
      var p := pieces[0];
      var rest := text[|p.line| + |p.end|..];
      CutGivesLines(Scan(s.lines + [p.line], "", false), rest, pieces[1..]);
      ReadPast(s, text, p);
      LineFirst(s.lines, p.line, LinesOf(pieces[1..]));
    }
  }

  lemma {:induction false} NothingToCut(pieces: seq<Piece>)
    requires IsCut("", pieces)
    ensures pieces == []
  {
  }

  /** So for every text the lines are those of its cut. */
  lemma {:induction false} LinesAreThoseOfTheCut(text: string, pieces: seq<Piece>)
    requires IsCut(text, pieces)
    ensures Lines(text) == LinesOf(pieces)
  {
    CutGivesLines(START, text, pieces);
    assert [] + LinesOf(pieces) == LinesOf(pieces);
  }

  lemma {:induction false} CutExists(text: string, b: nat) returns (pieces: seq<Piece>)
    requires b <= |text| && NoBreaks(text[..b])
    ensures IsCut(text, pieces)
    decreases |text|, |text| - b
  {
    if text == "" {
      pieces := [];
    } else if b == |text| {
      pieces := [Piece(text, "")];
      assert text[..b] == text == text + "" && text[b..] == "";
    } else if !IsBreak(text[b]) {
      assert text[..b + 1] == text[..b] + [text[b]];
      pieces := CutExists(text, b + 1);
    } else {
      var end := if text[b] == '\r' && b + 1 < |text| && text[b + 1] == '\n' then "\r\n" else [text[b]];
      var n := b + |end|;
      assert text[n..][..0] == "";
      var rest := CutExists(text[n..], 0);
      pieces := [Piece(text[..b], end)] + rest;
      assert text[..n] == text[..b] + end && pieces[1..] == rest;
    }
  }
}
