/**
 Printing events as an event stream and decoding it again gives back the same events, whatever the
 line terminator and however the bytes are cut into reads.
 */
module SseRoundTrip {
  import opened Prelude
  import opened Chunking
  import opened SseLines
  import opened SseParser

  // ---------------------------------------------------------------- printing

  /** The pieces of a text between LFs, empty ones included. */
  function Split(text: string): (pieces: seq<string>)
    ensures pieces != []
  {
    if text == "" then [""]
    else
      var rest := Split(text[1..]);
      if text[0] == '\n' then [""] + rest else [[text[0]] + rest[0]] + rest[1..]
  }

  function DataLines(values: seq<string>): seq<string> {
    if values == [] then [] else ["data: " + values[0]] + DataLines(values[1..])
  }

  function IdLine(id: Option<string>): seq<string> {
    if id.Some? then ["id: " + id.value] else []
  }

  function EventFields(e: Event): seq<string> {
    IdLine(e.id) + DataLines(Split(e.payload))
  }

  function PrintLines(events: seq<Event>): seq<string> {
    if events == [] then [] else EventFields(events[0]) + ([""] + PrintLines(events[1..]))
  }

  function Terminate(lines: seq<string>, end: string): string {
    if lines == [] then "" else lines[0] + end + Terminate(lines[1..], end)
  }

  function Print(events: seq<Event>, end: string): string {
    Terminate(PrintLines(events), end)
  }

  predicate Terminator(end: string) {
    end == "\n" || end == "\r" || end == "\r\n"
  }

  ghost predicate Clean(line: string) {
    forall j :: 0 <= j < |line| ==> !IsBreak(line[j])
  }

  ghost predicate AllClean(lines: seq<string>) {
    forall j :: 0 <= j < |lines| ==> Clean(lines[j])
  }

  /** Payloads without CR (they may span lines and may be empty) and single-line ids. */
  ghost predicate Printable(e: Event) {
    '\r' !in e.payload && (e.id.Some? ==> Clean(e.id.value))
  }

  // ---------------------------------------------------------------- bytes to lines

  lemma {:induction false} NormalizeLine(line: string, rest: string)
    requires Clean(line)
    ensures Normalize(line + rest) == line + Normalize(rest)
  {
    if line == "" {
      assert line + rest == rest;
    } else {
      NormalizeLine(line[1..], rest);
      assert (line + rest)[1..] == line[1..] + rest;
    }
  }

  lemma NormalizeEnd(end: string, rest: string)
    requires Terminator(end) && (end == "\r" ==> rest == "" || rest[0] != '\n')
    ensures Normalize(end + rest) == "\n" + Normalize(rest)
  {
    assert (end + rest)[|end|..] == rest;
    if end == "\r\n" {
      assert (end + rest)[0] == '\r' && (end + rest)[1] == '\n';
    } else {
      assert (end + rest)[1..] == rest;
    }
  }

  lemma TerminatedStart(lines: seq<string>)
    requires AllClean(lines)
    ensures var s := Terminate(lines, "\r"); s == "" || s[0] != '\n'
  {
    if lines != [] {
      var s := lines[0] + "\r" + Terminate(lines[1..], "\r");
      assert s[0] == if lines[0] == "" then '\r' else lines[0][0];
    }
  }

  lemma {:induction false} NormalizeTerminated(lines: seq<string>, end: string)
    requires AllClean(lines) && Terminator(end)
    ensures Normalize(Terminate(lines, end)) == Terminate(lines, "\n")
  {
    if lines != [] {
      var rest := Terminate(lines[1..], end);
      TerminatedStart(lines[1..]);
      NormalizeTerminated(lines[1..], end);
      NormalizeEnd(end, rest);
      NormalizeLine(lines[0], end + rest);
      Assoc(lines[0], end, rest);
      Assoc(lines[0], "\n", Normalize(rest));
    }
  }

  lemma {:induction false} PieceOfLine(line: string, rest: string, piece: string)
    requires Clean(line)
    ensures PiecesByLF(line + "\n" + rest, piece) == [piece + line] + PiecesByLF(rest, "")
  {
    var all := line + "\n" + rest;
    if line == "" {
      assert all[0] == '\n' && all[1..] == rest && piece + line == piece;
    } else {
      assert all[1..] == line[1..] + "\n" + rest && all[0] == line[0];
      PieceOfLine(line[1..], rest, piece + [line[0]]);
      assert piece + [line[0]] + line[1..] == piece + line;
    }
  }

  lemma {:induction false} PiecesOfTerminated(lines: seq<string>)
    requires AllClean(lines)
    ensures PiecesByLF(Terminate(lines, "\n"), "") == lines
  {
    if lines != [] {
      PieceOfLine(lines[0], Terminate(lines[1..], "\n"), "");
      PiecesOfTerminated(lines[1..]);
      assert "" + lines[0] == lines[0];
    }
  }

  /** Lines joined by one uniform terminator are read back as they were. */
  lemma LinesOfTerminated(lines: seq<string>, end: string)
    requires AllClean(lines) && Terminator(end)
    ensures Lines(Terminate(lines, end)) == lines
  {
    NormalizeTerminated(lines, end);
    PiecesOfTerminated(lines);
  }

  // ---------------------------------------------------------------- lines to events

  lemma {:induction false} SplitClean(text: string)
    requires '\r' !in text
    ensures AllClean(Split(text))
  {
    if text != "" {
      SplitClean(text[1..]);
    }
  }

  lemma {:induction false} JoinSplit(text: string)
    ensures Join(Split(text)) == text
  {
    if text != "" {
      JoinSplit(text[1..]);
      var rest := Split(text[1..]);
      if text[0] == '\n' {
        assert ([""] + rest)[1..] == rest;
        assert "" + "\n" + text[1..] == text;
      } else if |rest| > 1 {
        assert ([[text[0]] + rest[0]] + rest[1..])[1..] == rest[1..];
      }
    }
  }

  lemma DataField(v: string)
    ensures FieldOf("data: " + v) == Data(v)
  {
    var line := "data: " + v;
    assert line[4] == ':' && line[..4] == "data" && line[5..] == " " + v && (" " + v)[1..] == v;
    assert ColonIndex(line) == 4;
  }

  lemma IdField(v: string)
    ensures FieldOf("id: " + v) == Id(v)
  {
    var line := "id: " + v;
    assert line[2] == ':' && line[..2] == "id" && line[3..] == " " + v && (" " + v)[1..] == v;
    assert ColonIndex(line) == 2;
  }

  lemma {:induction false} DataLinesRead(before: seq<string>, values: seq<string>, carried: Option<string>)
    ensures DataOf(before + DataLines(values)) == DataOf(before) + values
    ensures IdOf(before + DataLines(values), carried) == IdOf(before, carried)
    decreases |values|
  {
    if values == [] {
      assert before + DataLines(values) == before;
    } else {
      var line := "data: " + values[0];
      DataField(values[0]);
      DataAppend(before, line);
      IdAppend(before, line, carried);
      DataLinesRead(before + [line], values[1..], carried);
      Assoc(before, [line], DataLines(values[1..]));
      Assoc(DataOf(before), [values[0]], values[1..]);
      assert [values[0]] + values[1..] == values;
    }
  }

  lemma {:induction false} DataLinesClean(values: seq<string>)
    requires AllClean(values)
    ensures AllClean(DataLines(values)) && forall j :: 0 <= j < |DataLines(values)| ==> DataLines(values)[j] != ""
  {
    if values != [] {
      DataLinesClean(values[1..]);
      assert Clean("data: " + values[0]);
    }
  }

  lemma IdLineRead(id: Option<string>)
    ensures DataOf(IdLine(id)) == [] && IdOf(IdLine(id), None) == id
    ensures id.Some? && Clean(id.value) ==> AllClean(IdLine(id))
  {
    if id.Some? {
      IdField(id.value);
      assert IdLine(id)[..0] == [];
    }
  }

  lemma FieldsRead(e: Event)
    requires Printable(e)
    ensures DataOf(EventFields(e)) == Split(e.payload) && IdOf(EventFields(e), None) == e.id
    ensures AllClean(EventFields(e)) && forall j :: 0 <= j < |EventFields(e)| ==> EventFields(e)[j] != ""
  {
    IdLineRead(e.id);
    DataLinesRead(IdLine(e.id), Split(e.payload), None);
    SplitClean(e.payload);
    DataLinesClean(Split(e.payload));
  }

  lemma {:induction false} PrintedClean(events: seq<Event>)
    requires forall j :: 0 <= j < |events| ==> Printable(events[j])
    ensures AllClean(PrintLines(events))
  {
    if events != [] {
      FieldsRead(events[0]);
      PrintedClean(events[1..]);
    }
  }

  lemma {:induction false} PrintedEvents(events: seq<Event>, eof: bool)
    requires forall j :: 0 <= j < |events| ==> Printable(events[j])
    ensures Events(Blocks(PrintLines(events), eof), None) == events
  {
    if events == [] {
      assert PrintLines(events) == [];
      assert Blocks([], eof) == if eof then [[]] else [];
    } else {
      var run, rest := EventFields(events[0]), PrintLines(events[1..]);
      FieldsRead(events[0]);
      JoinSplit(events[0].payload);
      BlankCloses(run, rest, eof);
      EventsCons(run, None, Blocks(rest, eof));
      PrintedEvents(events[1..], eof);
      assert Closed(DataOf(run), IdOf(run, None)) == [events[0]];
    }
  }

  /** Print, cut anywhere, decode: every payload reaches the decoder in order, followed by its own id. */
  lemma RoundTrip<T>(events: seq<Event>, end: string, chunks: seq<string>, eof: bool, decode: string -> seq<T>)
    requires forall j :: 0 <= j < |events| ==> Printable(events[j])
    requires Terminator(end) && Concat(chunks) == Print(events, end)
    ensures StreamActs(Lines(Concat(chunks)), eof, decode) == Acts(events, decode)
  {
    PrintedClean(events);
    LinesOfTerminated(PrintLines(events), end);
    PrintedEvents(events, eof);
  }

  /** The decoder over any reads of a printed stream: the original payloads are decoded in order, each with its id. */
  method DecodePrinted<T>(events: seq<Event>, end: string, chunks: seq<string>, eof: bool, decode: string -> seq<T>)
    returns (trace: seq<Act<T>>)
    requires forall j :: 0 <= j < |events| ==> Printable(events[j])
    requires Terminator(end) && Concat(chunks) == Print(events, end)
    ensures trace == Acts(events, decode)
  {
    RoundTrip(events, end, chunks, eof, decode);
    trace := DecodeStream(chunks, eof, decode);
  }
}
