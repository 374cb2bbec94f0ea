/**
 parseSSE of internal/httpmcp/sse.go against a block semantics of the event stream.
 Decoding a payload (jsonrpc.BatchDecode) is a parameter: it yields the items handed to the channel.
 */
module SseParser {
  import opened Prelude
  import opened Chunking
  import opened SseLines

  /** What the parser does, in order: hand an item to the channel, or commit an event id. */
  datatype Act<+T> = Deliver(item: T) | Commit(id: string)

  // ---------------------------------------------------------------- one line

  datatype Field = Data(value: string) | Id(value: string) | Ignored

  function ColonIndex(line: string): (i: nat)
    ensures i <= |line| && (i < |line| ==> line[i] == ':') && forall j :: 0 <= j < i ==> line[j] != ':'
  {
    if line == "" || line[0] == ':' then 0 else 1 + ColonIndex(line[1..])
  }

  function DropSpace(s: string): string {
    if s != "" && s[0] == ' ' then s[1..] else s
  }

  /** A line that starts with a colon is a comment; a line without one is a field with an empty value. */
  function FieldOf(line: string): Field {
    var i := ColonIndex(line);
    var name := line[..i];
    var value := if i < |line| then DropSpace(line[i + 1..]) else "";
    if i == 0 then Ignored
    else if name == "data" then Data(value)
    else if name == "id" then Id(value)
    else Ignored
  }

  // ---------------------------------------------------------------- blocks

  function BlockEnd(lines: seq<string>): (i: nat)
    ensures i <= |lines| && (i < |lines| ==> lines[i] == "") && forall j :: 0 <= j < i ==> lines[j] != ""
  {
    if lines == [] || lines[0] == "" then 0 else 1 + BlockEnd(lines[1..])
  }

  /** The runs of lines between blank lines; the unfinished last run counts only at a clean end of stream. */
  function Blocks(lines: seq<string>, eof: bool): seq<seq<string>> {
    var i := BlockEnd(lines);
    if i == |lines| then (if eof then [lines] else []) else [lines[..i]] + Blocks(lines[i + 1..], eof)
  }

  function DataOf(block: seq<string>): seq<string> {
    if block == [] then []
    else DataOf(block[..|block| - 1]) + DataIn(FieldOf(block[|block| - 1]))
  }

  function DataIn(f: Field): seq<string> {
    if f.Data? then [f.value] else []
  }

  function IdIn(f: Field, before: Option<string>): Option<string> {
    if f.Id? then Some(f.value) else before
  }

  /** The last id in the block, or the one carried into it. */
  function IdOf(block: seq<string>, carried: Option<string>): Option<string> {
    if block == [] then carried
    else IdIn(FieldOf(block[|block| - 1]), IdOf(block[..|block| - 1], carried))
  }

  function Join(values: seq<string>): string {
    if values == [] then "" else if |values| == 1 then values[0] else values[0] + "\n" + Join(values[1..])
  }

  /** One dispatched event: its payload and the id it commits. */
  datatype Event = Event(payload: string, id: Option<string>)

  /** Blocks with data become events; the id of a block without data is carried to the next event. */
  function Events(blocks: seq<seq<string>>, carried: Option<string>): seq<Event> {
    if blocks == [] then []
    else if DataOf(blocks[0]) == [] then Events(blocks[1..], IdOf(blocks[0], carried))
    else [Event(Join(DataOf(blocks[0])), IdOf(blocks[0], carried))] + Events(blocks[1..], None)
  }

  function Delivered<T>(items: seq<T>): seq<Act<T>> {
    seq(|items|, i requires 0 <= i < |items| => Deliver(items[i]))
  }

  /** An event delivers everything its payload decodes to and only then commits its id. */
  function ActsOf<T>(e: Event, decode: string -> seq<T>): seq<Act<T>> {
    Delivered(decode(e.payload)) + if e.id.Some? then [Commit(e.id.value)] else []
  }

  function Acts<T>(events: seq<Event>, decode: string -> seq<T>): seq<Act<T>> {
    if events == [] then [] else ActsOf(events[0], decode) + Acts(events[1..], decode)
  }

  /** The meaning of a stream that ended cleanly or with a read error. */
  function StreamActs<T>(lines: seq<string>, eof: bool, decode: string -> seq<T>): seq<Act<T>> {
    Acts(Events(Blocks(lines, eof), None), decode)
  }

  // ---------------------------------------------------------------- the parser

  lemma {:induction false} BlockEndAt(run: seq<string>, rest: seq<string>)
    requires forall j :: 0 <= j < |run| ==> run[j] != ""
    ensures BlockEnd(run + rest) == |run| + BlockEnd(rest)
  {
    if run == [] {
      assert run + rest == rest;
    } else {
      BlockEndAt(run[1..], rest);
      assert (run + rest)[1..] == run[1..] + rest;
    }
  }

  /** A blank line closes the run before it. */
  lemma BlankCloses(run: seq<string>, rest: seq<string>, eof: bool)
    requires forall j :: 0 <= j < |run| ==> run[j] != ""
    ensures Blocks(run + ([""] + rest), eof) == [run] + Blocks(rest, eof)
  {
    var all := run + ([""] + rest);
    BlockEndAt(run, [""] + rest);
    assert BlockEnd(all) == |run|;
    assert all[..|run|] == run;
    assert all[|run| + 1..] == rest;
  }

  lemma UnfinishedRun(run: seq<string>, eof: bool)
    requires forall j :: 0 <= j < |run| ==> run[j] != ""
    ensures Blocks(run, eof) == if eof then [run] else []
  {
    BlockEndAt(run, []);
    assert run + [] == run;
  }

  lemma {:induction false} DataAppend(block: seq<string>, line: string)
    ensures DataOf(block + [line]) == DataOf(block) + DataIn(FieldOf(line))
  {
    assert (block + [line])[..|block|] == block;
  }

  lemma {:induction false} IdAppend(block: seq<string>, line: string, carried: Option<string>)
    ensures IdOf(block + [line], carried) == IdIn(FieldOf(line), IdOf(block, carried))
  {
    assert (block + [line])[..|block|] == block;
  }

  /** The events still to be dispatched when `run` is the current unfinished block and `rest` is to come. */
  ghost function Ahead(run: seq<string>, carried: Option<string>, rest: seq<string>, eof: bool): seq<Event> {
    Events(Blocks(run + rest, eof), carried)
  }

  /** Closing a block dispatches its event, if it has data. */
  function Closed(data: seq<string>, id: Option<string>): seq<Event> {
    if data == [] then [] else [Event(Join(data), id)]
  }

  function CarriedOn(data: seq<string>, id: Option<string>): Option<string> {
    if data == [] then id else None
  }

  lemma EventsCons(run: seq<string>, carried: Option<string>, blocks: seq<seq<string>>)
    ensures Events([run] + blocks, carried) ==
      Closed(DataOf(run), IdOf(run, carried)) + Events(blocks, CarriedOn(DataOf(run), IdOf(run, carried)))
  {
    assert ([run] + blocks)[1..] == blocks;
  }

  lemma BlankLine(run: seq<string>, carried: Option<string>, rest: seq<string>, eof: bool)
    requires forall j :: 0 <= j < |run| ==> run[j] != ""
    ensures Ahead(run, carried, [""] + rest, eof) ==
      Closed(DataOf(run), IdOf(run, carried)) + Ahead([], CarriedOn(DataOf(run), IdOf(run, carried)), rest, eof)
  {
    var later := CarriedOn(DataOf(run), IdOf(run, carried));
    assert Ahead([], later, rest, eof) == Events(Blocks(rest, eof), later) by {
      assert [] + rest == rest;
    }
    assert Ahead(run, carried, [""] + rest, eof) == Events([run] + Blocks(rest, eof), carried) by {
      BlankCloses(run, rest, eof);
    }
    EventsCons(run, carried, Blocks(rest, eof));
  }

  lemma EndOfLines(run: seq<string>, carried: Option<string>, eof: bool)
    requires forall j :: 0 <= j < |run| ==> run[j] != ""
    ensures Ahead(run, carried, [], eof) == if eof then Closed(DataOf(run), IdOf(run, carried)) else []
  {
    UnfinishedRun(run, eof);
    assert run + [] == run;
    if eof {
      EventsCons(run, carried, []);
      assert [run] + [] == [run];
    }
  }

  lemma {:induction false} ActsAppend<T>(a: seq<Event>, b: seq<Event>, decode: string -> seq<T>)
    ensures Acts(a + b, decode) == Acts(a, decode) + Acts(b, decode)
  {
    if a == [] {
      assert a + b == b;
    } else {
      ActsAppend(a[1..], b, decode);
      assert (a + b)[1..] == a[1..] + b;
      Assoc(ActsOf(a[0], decode), Acts(a[1..], decode), Acts(b, decode));
    }
  }

  /** The `dispatch` closure: nothing without data, else the decoded items and then the id. */
  method Dispatch<T>(dataLines: seq<string>, id: Option<string>, decode: string -> seq<T>) returns (trace: seq<Act<T>>)
    ensures trace == Acts(Closed(dataLines, id), decode)
  {
    trace := [];
    if |dataLines| == 0 {
      return;
    }
    var items := decode(Join(dataLines));
    for i := 0 to |items|
      invariant trace == Delivered(items[..i])
    {
      trace := trace + [Deliver(items[i])];
    }
    assert items[..|items|] == items;
    if id.Some? {
      trace := trace + [Commit(id.value)];
    }
  }

  /** The body of the loop for a line that is not blank. */
  method TakeField(line: string, dataLines: seq<string>, id: Option<string>)
    returns (dataLines': seq<string>, id': Option<string>)
    requires line != ""
    ensures dataLines' == dataLines + DataIn(FieldOf(line)) && id' == IdIn(FieldOf(line), id)
  {
    dataLines', id' := dataLines, id;
    if line[0] != ':' {
      var colon := ColonIndex(line);
      var field := line[..colon];
      var value := if colon < |line| then DropSpace(line[colon + 1..]) else "";
      if field == "data" {
        dataLines' := dataLines + [value];
      } else if field == "id" {
        id' := Some(value);
      }
    }
  }

  /** After i lines: the open block, the accumulated fields, the events dispatched so far. */
  ghost predicate At(lines: seq<string>, eof: bool, i: nat, run: seq<string>, carried: Option<string>,
                     dataLines: seq<string>, id: Option<string>, done: seq<Event>)
  {
    && i <= |lines|
    && (forall j :: 0 <= j < |run| ==> run[j] != "")
    && dataLines == DataOf(run) && id == IdOf(run, carried)
    && done + Ahead(run, carried, lines[i..], eof) == Events(Blocks(lines, eof), None)
  }

  lemma AtBlank(lines: seq<string>, eof: bool, i: nat, run: seq<string>, carried: Option<string>,
                dataLines: seq<string>, id: Option<string>, done: seq<Event>)
    requires At(lines, eof, i, run, carried, dataLines, id, done) && i < |lines| && lines[i] == ""
    ensures var later := CarriedOn(dataLines, id);
      At(lines, eof, i + 1, [], later, [], later, done + Closed(dataLines, id))
  {
    var later := CarriedOn(dataLines, id);
    var rest := lines[i + 1..];
    assert lines[i..] == [""] + rest;
    BlankLine(run, carried, rest, eof);
    assert done + (Closed(dataLines, id) + Ahead([], later, rest, eof)) ==
      done + Closed(dataLines, id) + Ahead([], later, rest, eof);
  }

  lemma ShiftLine(run: seq<string>, lines: seq<string>, i: nat)
    requires i < |lines|
    ensures run + lines[i..] == run + [lines[i]] + lines[i + 1..]
  {
  }

  lemma AtField(lines: seq<string>, eof: bool, i: nat, run: seq<string>, carried: Option<string>,
                dataLines: seq<string>, id: Option<string>, done: seq<Event>)
    requires At(lines, eof, i, run, carried, dataLines, id, done) && i < |lines| && lines[i] != ""
    ensures var f := FieldOf(lines[i]);
      At(lines, eof, i + 1, run + [lines[i]], carried, dataLines + DataIn(f), IdIn(f, id), done)
  {
    DataAppend(run, lines[i]);
    IdAppend(run, lines[i], carried);
    ShiftLine(run, lines, i);
  }

  lemma AtEnd(lines: seq<string>, eof: bool, run: seq<string>, carried: Option<string>,
              dataLines: seq<string>, id: Option<string>, done: seq<Event>)
    requires At(lines, eof, |lines|, run, carried, dataLines, id, done)
    ensures Events(Blocks(lines, eof), None) == if eof then done + Closed(dataLines, id) else done
  {
    EndOfLines(run, carried, eof);
    assert lines[|lines|..] == [];
  }

  /** parseSSE over the scanned lines; `eof` is false when the scanner stopped on a read error. */
  method Parse<T>(lines: seq<string>, eof: bool, decode: string -> seq<T>) returns (trace: seq<Act<T>>)
    ensures trace == StreamActs(lines, eof, decode)
  {
    var dataLines: seq<string>, id: Option<string> := [], None;  // id is hasIDField with idCandidate
    trace := [];
    ghost var run: seq<string>, carried: Option<string>, done: seq<Event> := [], None, [];
    assert [] + lines == lines;
    for i := 0 to |lines|
      invariant At(lines, eof, i, run, carried, dataLines, id, done)
      invariant trace == Acts(done, decode)
    {
      if lines[i] == "" {
        AtBlank(lines, eof, i, run, carried, dataLines, id, done);
        run, carried := [], CarriedOn(dataLines, id);
        var acts := Dispatch(dataLines, id, decode);
        ActsAppend(done, Closed(dataLines, id), decode);
        trace, done := trace + acts, done + Closed(dataLines, id);
        if |dataLines| > 0 {
          dataLines, id := [], None;
        }
      } else {
        AtField(lines, eof, i, run, carried, dataLines, id, done);
        run := run + [lines[i]];
        dataLines, id := TakeField(lines[i], dataLines, id);
      }
    }
    AtEnd(lines, eof, run, carried, dataLines, id, done);
    if eof {
      var acts := Dispatch(dataLines, id, decode);
      ActsAppend(done, Closed(dataLines, id), decode);
      trace := trace + acts;
    }
  }

  /** The whole decoder: bytes in arbitrary reads to deliveries and commits. */
  method DecodeStream<T>(chunks: seq<string>, eof: bool, decode: string -> seq<T>) returns (trace: seq<Act<T>>)
    ensures trace == StreamActs(Lines(Concat(chunks)), eof, decode)
  {
    var lines := ScanLines(chunks);
    trace := Parse(lines, eof, decode);
  }
}
