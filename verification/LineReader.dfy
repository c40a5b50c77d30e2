/**
 Reading the backend's output in whatever chunks it arrives: complete lines are handled as they
 come, an unterminated tail waits for the next chunk, and the first ready line settles the start.
 */
module LineReader {
  import opened Common

  /** Splits on a newline, dropping one carriage return before it. The last element is the unterminated tail. */
  function Split(text: string): (lines: seq<string>)
    ensures |lines| >= 1
  {
    SplitFrom(text, "")
  }

  /** `line` is the text of the current line read so far. */
  function SplitFrom(text: string, line: string): (lines: seq<string>)
    ensures |lines| >= 1
  {
    if text == "" then [line]
    else if text[0] == '\n' then [StripReturn(line)] + SplitFrom(text[1..], "")
    else SplitFrom(text[1..], line + [text[0]])
  }

  function StripReturn(line: string): string
  {
    if line != "" && line[|line| - 1] == '\r' then line[..|line| - 1] else line
  }

  function Complete(lines: seq<string>): seq<string>
    requires |lines| >= 1
  {
    lines[..|lines| - 1]
  }

  function Tail(lines: seq<string>): string
    requires |lines| >= 1
  {
    lines[|lines| - 1]
  }

  /** Reading a line's start again changes nothing, as long as it holds no newline. */
  lemma {:induction false} SplitPrefix(line: string, text: string, start: string)
    requires '\n' !in line
    ensures SplitFrom(line + text, start) == SplitFrom(text, start + line)
  {
    if line == "" {
      assert line + text == text && start + line == start;
    } else {
      assert (line + text)[1..] == line[1..] + text;
      SplitPrefix(line[1..], text, start + [line[0]]);
      assert start + [line[0]] + line[1..] == start + line;
    }
  }

  lemma {:induction false} TailHasNoNewline(text: string, line: string)
    requires '\n' !in line
    ensures '\n' !in Tail(SplitFrom(text, line))
  {
    if text != "" {
      if text[0] == '\n' {
        TailHasNoNewline(text[1..], "");
      } else {
        TailHasNoNewline(text[1..], line + [text[0]]);
      }
    }
  }

  /** Splitting in two steps, carrying the tail over, is splitting the whole. */
  lemma {:induction false} SplitConcat(a: string, b: string, line: string)
    requires '\n' !in line
    ensures SplitFrom(a + b, line)
            == Complete(SplitFrom(a, line)) + SplitFrom(Tail(SplitFrom(a, line)) + b, "")
  {
    if a == "" {
      assert a + b == b;
      SplitPrefix(line, b, "");
      assert "" + line == line;
    } else {
      assert (a + b)[1..] == a[1..] + b;
      if a[0] == '\n' {
        SplitConcat(a[1..], b, "");
      } else {
        SplitConcat(a[1..], b, line + [a[0]]);
      }
    }
  }

  // ---------------------------------------------------------------------------------------------
  // Splitting is what the line terminators say
  // ---------------------------------------------------------------------------------------------

  /** Lines joined again, each followed by its end, and the tail. */
  function Join(lines: seq<string>, ends: seq<string>): string
    requires |lines| == |ends| + 1
  {
    if ends == [] then lines[0] else lines[0] + ends[0] + Join(lines[1..], ends[1..])
  }

  /** A newline, or a carriage return and a newline. */
  predicate IsEnd(e: string) { e == "\n" || e == "\r\n" }

  /** Lines hold no newline, and a carriage return right before a newline belongs to the end, not to the line. */
  ghost predicate Terminated(lines: seq<string>, ends: seq<string>)
  {
    && |lines| == |ends| + 1
    && (forall k | 0 <= k < |lines| :: '\n' !in lines[k])
    && (forall k | 0 <= k < |ends| :: IsEnd(ends[k]) && (ends[k] == "\n" ==> StripReturn(lines[k]) == lines[k]))
  }

  /** What followed the line in the text, up to the newline. */
  lemma LineEnd(line: string) returns (e: string)
    requires '\n' !in line
    ensures IsEnd(e) && '\n' !in StripReturn(line) && StripReturn(line) + e == line + "\n"
    ensures e == "\n" ==> StripReturn(line) == line
  {
    e := "\n";
    if StripReturn(line) != line {
      e := "\r\n";
      assert line == line[..|line| - 1] + "\r";
    }
  }

  lemma TerminatedCons(line: string, e: string, lines: seq<string>, ends: seq<string>)
    requires Terminated(lines, ends) && '\n' !in line && IsEnd(e) && (e == "\n" ==> StripReturn(line) == line)
    ensures Terminated([line] + lines, [e] + ends) && Join([line] + lines, [e] + ends) == line + e + Join(lines, ends)
  {
    assert ([line] + lines)[1..] == lines && ([e] + ends)[1..] == ends;
  }

  /** Any text is its lines, each followed by its end, and the tail. */
  lemma {:induction false} JoinSplit(text: string, line: string) returns (ends: seq<string>)
    requires '\n' !in line
    ensures Terminated(SplitFrom(text, line), ends) && Join(SplitFrom(text, line), ends) == line + text
  {
    if text == "" {
      ends := [];
      assert line + text == line;
    } else if text[0] == '\n' {
      var rest := JoinSplit(text[1..], "");
      var e := LineEnd(line);
      TerminatedCons(StripReturn(line), e, SplitFrom(text[1..], ""), rest);
      ends := [e] + rest;
      HeadMoves(line, text);
      assert "\n" == [text[0]];
    } else {
      ends := JoinSplit(text[1..], line + [text[0]]);
      HeadMoves(line, text);
    }
  }

  /** And lines with such ends are what splitting their text gives back. */
  lemma {:induction false} SplitJoin(lines: seq<string>, ends: seq<string>)
    requires Terminated(lines, ends)
    ensures Split(Join(lines, ends)) == lines
  {
    var line := lines[0];
    assert "" + line == line;
    if ends == [] {
      SplitPrefix(line, "", "");
      assert line + "" == line && lines == [line];
    } else {
      var rest := Join(lines[1..], ends[1..]);
      TerminatedTail(lines, ends);
      SplitJoin(lines[1..], ends[1..]);
      SplitFirst(line, ends[0], rest);
      assert Join(lines, ends) == line + ends[0] + rest;
      assert lines == [line] + lines[1..];
    }
  }

  lemma TerminatedTail(lines: seq<string>, ends: seq<string>)
    requires Terminated(lines, ends) && ends != []
    ensures Terminated(lines[1..], ends[1..])
  {
    assert forall k | 0 <= k < |lines| - 1 :: lines[1..][k] == lines[k + 1];
    assert forall k | 0 <= k < |ends| - 1 :: ends[1..][k] == ends[k + 1];
  }

  /** The first line ends at its newline, whatever follows. */
  lemma SplitFirst(line: string, end: string, rest: string)
    requires '\n' !in line && (end == "\n" || end == "\r\n") && (end == "\n" ==> line == "" || line[|line| - 1] != '\r')
    ensures Split(line + end + rest) == [line] + Split(rest)
  {
    var read := if end == "\n" then line else line + "\r";
    assert read + ("\n" + rest) == line + end + rest;
    SplitPrefix(read, "\n" + rest, "");
    assert "" + read == read && ("\n" + rest)[1..] == rest && StripReturn(read) == line;
  }

  // ---------------------------------------------------------------------------------------------
  // The reader
  // ---------------------------------------------------------------------------------------------

  /** How starting the backend ended. */
  datatype Start = Waiting | Ready(url: string) | Failed

  /** What one complete line does. */
  datatype Reader = Reader(buffer: string, logged: seq<string>, start: Start)

  /** The ready prefix and how its payload is read: None when it is malformed. */
  datatype Format = Format(prefix: string, parse: string -> Option<string>)

  predicate IsReady(f: Format, line: string) { f.prefix <= line }

  /** The outcome a ready line asks for; only the first one counts. */
  function Settle(start: Start, outcome: Start): Start { if start == Waiting then outcome else start }

  function OutcomeOf(f: Format, line: string): Start
    requires IsReady(f, line)
  {
    var payload := f.parse(line[|f.prefix|..]);
    if payload.Some? then Ready(payload.value) else Failed
  }

  function HandleLine(f: Format, r: Reader, line: string): Reader
  {
    if !IsReady(f, line) then r.(logged := r.logged + [line])
    else r.(start := Settle(r.start, OutcomeOf(f, line)))
  }

  function HandleLines(f: Format, r: Reader, lines: seq<string>): Reader
  {
    if lines == [] then r else HandleLine(f, HandleLines(f, r, lines[..|lines| - 1]), lines[|lines| - 1])
  }

  function HandleOutput(f: Format, r: Reader, chunk: string): Reader
  {
    var lines := Split(r.buffer + chunk);
    HandleLines(f, r.(buffer := Tail(lines)), Complete(lines))
  }

  function HandleChunks(f: Format, r: Reader, chunks: seq<string>): Reader
  {
    if chunks == [] then r else HandleOutput(f, HandleChunks(f, r, chunks[..|chunks| - 1]), chunks[|chunks| - 1])
  }

  const FRESH := Reader("", [], Waiting)

  lemma {:induction false} HandleLinesConcat(f: Format, r: Reader, a: seq<string>, b: seq<string>)
    ensures HandleLines(f, r, a + b) == HandleLines(f, HandleLines(f, r, a), b)
  {
    if b == [] {
      assert a + b == a;
    } else {
      assert (a + b)[..|a + b| - 1] == a + b[..|b| - 1];
      HandleLinesConcat(f, r, a, b[..|b| - 1]);
    }
  }

  lemma {:induction false} HandleLinesBuffer(f: Format, r: Reader, lines: seq<string>, buffer: string)
    ensures HandleLines(f, r.(buffer := buffer), lines) == HandleLines(f, r, lines).(buffer := buffer)
  {
    if lines != [] {
      HandleLinesBuffer(f, r, lines[..|lines| - 1], buffer);
    }
  }

  /** Reading in two chunks is reading in one. */
  lemma TwoChunks(f: Format, r: Reader, a: string, b: string)
    requires '\n' !in r.buffer
    ensures HandleOutput(f, HandleOutput(f, r, a), b) == HandleOutput(f, r, a + b)
  {
    var text := r.buffer + a;
    var first := Split(text);
    var once := HandleOutput(f, r, a);
    HandleLinesBuffer(f, r, Complete(first), Tail(first));
    assert once.buffer == Tail(first);
    SplitConcat(text, b, "");
    assert text + b == r.buffer + (a + b);
    var second := Split(Tail(first) + b);
    var whole := Split(text + b);
    assert whole == Complete(first) + second;
    assert Complete(whole) == Complete(first) + Complete(second) && Tail(whole) == Tail(second);
    HandleLinesConcat(f, r.(buffer := Tail(whole)), Complete(first), Complete(second));
    HandleLinesBuffer(f, r, Complete(first), Tail(whole));
    HandleLinesBuffer(f, r, Complete(first), Tail(second));
  }

  lemma BufferHasNoNewline(f: Format, r: Reader, chunk: string)
    ensures '\n' !in HandleOutput(f, r, chunk).buffer
  {
    var lines := Split(r.buffer + chunk);
    TailHasNoNewline(r.buffer + chunk, "");
    HandleLinesBuffer(f, r, Complete(lines), Tail(lines));
  }

  /** However the output is cut into chunks, even between a carriage return and its newline, the result is that of the whole. */
  lemma {:induction false} ChunksAreWhole(f: Format, chunks: seq<string>)
    ensures HandleChunks(f, FRESH, chunks) == HandleOutput(f, FRESH, Flatten(chunks))
  {
    if chunks == [] {
      assert Split("" + "") == [""];
    } else {
      var last := |chunks| - 1;
      ChunksAreWhole(f, chunks[..last]);
      TwoChunks(f, FRESH, Flatten(chunks[..last]), chunks[last]);
      assert chunks == chunks[..last] + [chunks[last]];
      FlattenOne(chunks[..last], chunks[last]);
    }
  }

  /** The lines that are not ready lines, in order. */
  function Plain(f: Format, lines: seq<string>): seq<string>
  {
    if lines == [] then []
    else Plain(f, lines[..|lines| - 1]) + (if IsReady(f, lines[|lines| - 1]) then [] else [lines[|lines| - 1]])
  }

  /** The outcome of the first ready line, if there is one. */
  function FirstReady(f: Format, lines: seq<string>): Start
  {
    if lines == [] then Waiting
    else if IsReady(f, lines[0]) then OutcomeOf(f, lines[0])
    else FirstReady(f, lines[1..])
  }

  lemma {:induction false} FirstReadyAppend(f: Format, lines: seq<string>, line: string)
    ensures FirstReady(f, lines + [line])
            == if FirstReady(f, lines) != Waiting then FirstReady(f, lines)
               else if IsReady(f, line) then OutcomeOf(f, line) else Waiting
  {
    if lines == [] {
      assert lines + [line] == [line] && [line][1..] == [];
    } else {
      assert (lines + [line])[1..] == lines[1..] + [line];
      FirstReadyAppend(f, lines[1..], line);
    }
  }

  lemma {:induction false} HandledExactly(f: Format, lines: seq<string>, buffer: string)
    ensures HandleLines(f, FRESH.(buffer := buffer), lines) == Reader(buffer, Plain(f, lines), FirstReady(f, lines))
  {
    if lines != [] {
      var front, last := lines[..|lines| - 1], lines[|lines| - 1];
      HandledExactly(f, front, buffer);
      assert lines == front + [last];
      FirstReadyAppend(f, front, last);
      assert Plain(f, front) + [] == Plain(f, front);
    }
  }

  /**
   After any chunks: the tail is what the whole text leaves unterminated, every other complete line
   was handed on once and in order, and the start was settled by the first ready line alone.
   */
  lemma ReaderOutcome(f: Format, chunks: seq<string>)
    ensures var lines := Split(Flatten(chunks));
            HandleChunks(f, FRESH, chunks) == Reader(Tail(lines), Plain(f, Complete(lines)), FirstReady(f, Complete(lines)))
  {
    ChunksAreWhole(f, chunks);
    var text := Flatten(chunks);
    assert "" + text == text;
    HandledExactly(f, Complete(Split(text)), Tail(Split(text)));
  }

  /** A ready line reports the address in its payload, or a failure when there is none; a later one reports nothing. */
  lemma ReadyReports(f: Format, r: Reader, payload: string)
    ensures var t := HandleLine(f, r, f.prefix + payload);
            && t.logged == r.logged && t.buffer == r.buffer
            && t.start == if r.start != Waiting then r.start
                          else if f.parse(payload).Some? then Ready(f.parse(payload).value) else Failed
  {
    assert (f.prefix + payload)[|f.prefix|..] == payload;
  }

  /** The output handler of one backend process, and the failure events that can also settle its start. */
  class Backend {
    const format: Format
    var buffer: string
    var logged: seq<string>
    var start: Start
    /** Every outcome reported to the caller. */
    var reports: seq<Start>

    ghost function View(): Reader
      reads this
    {
      Reader(buffer, logged, start)
    }

    /** At most one outcome is ever reported, and it is the one the start was settled with. */
    ghost predicate Valid()
      reads this
    {
      reports == if start == Waiting then [] else [start]
    }

    constructor (format: Format)
      ensures Valid() && View() == FRESH && this.format == format
    {
      this.format := format;
      buffer, logged, start, reports := "", [], Waiting, [];
    }

    /** A ready line or a failure; nothing after the first. */
    method Report(outcome: Start)
      requires Valid() && outcome != Waiting
      modifies this`start, this`reports
      ensures Valid() && start == Settle(old(start), outcome)
    {
      if start != Waiting {
        return;
      }
      start := outcome;
      reports := reports + [outcome];
    }

    method Output(chunk: string)
      requires Valid()
      modifies this`buffer, this`logged, this`start, this`reports
      ensures Valid() && View() == HandleOutput(format, old(View()), chunk)
    {
      var text := buffer + chunk;
      var lines := Split(text);
      buffer := lines[|lines| - 1];
      lines := lines[..|lines| - 1];
      ghost var begin := View();
      var i := 0;
      assert lines[..0] == [];
      while i < |lines|
        invariant 0 <= i <= |lines| && Valid()
        invariant View() == HandleLines(format, begin, lines[..i])
      {
        var line := lines[i];
        assert lines[..i + 1][..i] == lines[..i];
        if !(format.prefix <= line) {
          logged := logged + [line];
        } else {
          var payload := format.parse(line[|format.prefix|..]);
          Report(if payload.Some? then Ready(payload.value) else Failed);
        }
        i := i + 1;
      }
      assert lines[..i] == lines;
    }

    /** The process could not start, or exited before it was ready. */
    method ProcessFailed()
      requires Valid()
      modifies this`start, this`reports
      ensures Valid() && start == Settle(old(start), Failed)
    {
      Report(Failed);
    }
  }
}
