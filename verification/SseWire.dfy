/**
 Event streams as other servers write them: comments, other fields, "data:" without a space, fields without a colon,
 ids in blocks of their own. What every line means to the parser, and the round trip for such streams.
 */
module SseWire {
  import opened Prelude
  import opened Chunking
  import opened SseLines
  import opened SseParser
  import opened SseRoundTrip

  // ---------------------------------------------------------------- one line

  predicate StartsWithSpace(v: string) {
    v != "" && v[0] == ' '
  }

  lemma {:induction false} ColonAt(name: string, v: string)
    requires ':' !in name
    ensures ColonIndex(name + ":" + v) == |name|
  {
    if name != "" {
      ColonAt(name[1..], v);
      assert (name + ":" + v)[1..] == name[1..] + ":" + v && (name + ":" + v)[0] == name[0];
    }
  }

  lemma {:induction false} NoColon(name: string)
    requires ':' !in name
    ensures ColonIndex(name) == |name|
  {
    if name != "" { NoColon(name[1..]); }
  }

  /** What a line means by its field name: only "data" and "id" count. */
  function Named(name: string, value: string): Field {
    if name == "data" then Data(value) else if name == "id" then Id(value) else Ignored
  }

  /** A name, a colon, at most one space that is not part of the value, the value. */
  lemma FieldWithColon(name: string, v: string)
    requires ':' !in name
    ensures FieldOf(name + ":" + (" " + v)) == Named(name, v)
    ensures !StartsWithSpace(v) ==> FieldOf(name + ":" + v) == Named(name, v)
  {
    ColonAt(name, v);
    ColonAt(name, " " + v);
    var a, b := name + ":" + v, name + ":" + (" " + v);
    assert a[..|name|] == name && a[|name| + 1..] == v;
    assert b[..|name|] == name && b[|name| + 1..] == " " + v && (" " + v)[1..] == v;
  }

  /** A line without a colon is a field with an empty value. */
  lemma FieldWithoutColon(name: string)
    requires ':' !in name && name != ""
    ensures FieldOf(name) == Named(name, "")
  {
    NoColon(name);
    assert name[..|name|] == name;
  }

  /** A line that starts with a colon is a comment. */
  lemma CommentIgnored(text: string)
    ensures FieldOf(":" + text) == Ignored
  {
  }

  // ---------------------------------------------------------------- written lines

  datatype Line =
    | Valued(name: string, value: string, spaced: bool)
    | Bare(name: string)
    | Comment(text: string)

  function Text(l: Line): string {
    match l
    case Valued(name, value, spaced) => name + ":" + (if spaced then " " + value else value)
    case Bare(name) => name
    case Comment(text) => ":" + text
  }

  /** The line can be written: no breaks, no colon in the name, and a space before a value that starts with one. */
  ghost predicate Proper(l: Line) {
    Clean(Text(l)) &&
    match l
    case Valued(name, value, spaced) => name != "" && ':' !in name && (StartsWithSpace(value) ==> spaced)
    case Bare(name) => name != "" && ':' !in name
    case Comment(_) => true
  }

  ghost predicate AllProper(ls: seq<Line>) {
    forall j :: 0 <= j < |ls| ==> Proper(ls[j])
  }

  predicate IsField(l: Line, name: string) {
    !l.Comment? && l.name == name
  }

  function ValueOf(l: Line): string {
    if l.Valued? then l.value else ""
  }

  /** The values of the data lines, in order. */
  function DataValues(ls: seq<Line>): seq<string> {
    if ls == [] then [] else DataValues(ls[..|ls| - 1]) + if IsField(Last(ls), "data") then [ValueOf(Last(ls))] else []
  }

  /** The value of the last id line, or what was there before. */
  function LastIdLine(ls: seq<Line>, before: Option<string>): Option<string> {
    if ls == [] then before
    else if IsField(Last(ls), "id") then Some(ValueOf(Last(ls)))
    else LastIdLine(ls[..|ls| - 1], before)
  }

  function Last(ls: seq<Line>): Line
    requires ls != []
  {
    ls[|ls| - 1]
  }

  function Texts(ls: seq<Line>): seq<string> {
    if ls == [] then [] else Texts(ls[..|ls| - 1]) + [Text(Last(ls))]
  }

  lemma LineMeans(l: Line)
    requires Proper(l)
    ensures FieldOf(Text(l)) == if l.Comment? then Ignored else Named(l.name, ValueOf(l))
    ensures Text(l) != ""
  {
    match l
    case Valued(name, value, _) => FieldWithColon(name, value);
    case Bare(name) => FieldWithoutColon(name);
    case Comment(text) => CommentIgnored(text);
  }

  lemma LineCounts(l: Line, before: Option<string>)
    requires Proper(l)
    ensures DataIn(FieldOf(Text(l))) == if IsField(l, "data") then [ValueOf(l)] else []
    ensures IdIn(FieldOf(Text(l)), before) == if IsField(l, "id") then Some(ValueOf(l)) else before
  {
    LineMeans(l);
  }

  lemma {:induction false} BlockReads(ls: seq<Line>, before: Option<string>)
    requires AllProper(ls)
    ensures DataOf(Texts(ls)) == DataValues(ls) && IdOf(Texts(ls), before) == LastIdLine(ls, before)
  {
    if ls != [] {
      var front := ls[..|ls| - 1];
      BlockReads(front, before);
      LineCounts(Last(ls), IdOf(Texts(front), before));
      DataAppend(Texts(front), Text(Last(ls)));
      IdAppend(Texts(front), Text(Last(ls)), before);
    }
  }

  lemma {:induction false} TextsStand(ls: seq<Line>)
    requires AllProper(ls)
    ensures AllClean(Texts(ls)) && forall j :: 0 <= j < |Texts(ls)| ==> Texts(ls)[j] != ""
  {
    if ls != [] {
      TextsStand(ls[..|ls| - 1]);
      LineMeans(Last(ls));
    }
  }

  lemma BlockMeans(ls: seq<Line>, before: Option<string>)
    requires AllProper(ls)
    ensures DataOf(Texts(ls)) == DataValues(ls) && IdOf(Texts(ls), before) == LastIdLine(ls, before)
    ensures AllClean(Texts(ls)) && forall j :: 0 <= j < |Texts(ls)| ==> Texts(ls)[j] != ""
  {
    BlockReads(ls, before);
    TextsStand(ls);
  }

  // ---------------------------------------------------------------- written events

  /** An event as it is written: blocks without data before it, then the block that carries it. */
  datatype Written = Written(event: Event, idle: seq<seq<Line>>, block: seq<Line>)

  /** The last id of a row of blocks. */
  function IdThrough(idle: seq<seq<Line>>, before: Option<string>): Option<string> {
    if idle == [] then before else IdThrough(idle[1..], LastIdLine(idle[0], before))
  }

  ghost predicate Idle(idle: seq<seq<Line>>) {
    forall j :: 0 <= j < |idle| ==> AllProper(idle[j]) && DataValues(idle[j]) == []
  }

  /** The block's data lines spell the payload, and the event's id is the last one since the previous event. */
  ghost predicate Writes(w: Written) {
    && Idle(w.idle) && AllProper(w.block)
    && DataValues(w.block) == Split(w.event.payload)
    && LastIdLine(w.block, IdThrough(w.idle, None)) == w.event.id
  }

  ghost predicate AllWrite(ws: seq<Written>) {
    forall j :: 0 <= j < |ws| ==> Writes(ws[j])
  }

  function IdleLines(idle: seq<seq<Line>>, rest: seq<string>): seq<string> {
    if idle == [] then rest else Texts(idle[0]) + ([""] + IdleLines(idle[1..], rest))
  }

  function WrittenLines(ws: seq<Written>): seq<string> {
    if ws == [] then []
    else IdleLines(ws[0].idle, Texts(ws[0].block) + ([""] + WrittenLines(ws[1..])))
  }

  function EventsOf(ws: seq<Written>): seq<Event> {
    if ws == [] then [] else [ws[0].event] + EventsOf(ws[1..])
  }

  lemma {:induction false} IdleBlocksPass(idle: seq<seq<Line>>, rest: seq<string>, carried: Option<string>, eof: bool)
    requires Idle(idle)
    ensures Events(Blocks(IdleLines(idle, rest), eof), carried) == Events(Blocks(rest, eof), IdThrough(idle, carried))
    decreases |idle|
  {
    if idle != [] {
      var run, more := Texts(idle[0]), IdleLines(idle[1..], rest);
      BlockMeans(idle[0], carried);
      BlankCloses(run, more, eof);
      EventsCons(run, carried, Blocks(more, eof));
      IdleBlocksPass(idle[1..], rest, LastIdLine(idle[0], carried), eof);
    }
  }

  lemma BlockIsEvent(block: seq<Line>, payload: string, rest: seq<string>, carried: Option<string>, eof: bool)
    requires AllProper(block) && DataValues(block) == Split(payload)
    ensures Events(Blocks(Texts(block) + ([""] + rest), eof), carried) ==
      [Event(payload, LastIdLine(block, carried))] + Events(Blocks(rest, eof), None)
  {
    BlockMeans(block, carried);
    JoinSplit(payload);
    BlankCloses(Texts(block), rest, eof);
    EventsCons(Texts(block), carried, Blocks(rest, eof));
  }

  lemma {:induction false} WrittenEvents(ws: seq<Written>, eof: bool)
    requires AllWrite(ws)
    ensures Events(Blocks(WrittenLines(ws), eof), None) == EventsOf(ws)
    decreases |ws|
  {
    if ws == [] {
      assert Blocks([], eof) == if eof then [[]] else [];
    } else {
      var w, rest := ws[0], WrittenLines(ws[1..]);
      IdleBlocksPass(w.idle, Texts(w.block) + ([""] + rest), None, eof);
      BlockIsEvent(w.block, w.event.payload, rest, IdThrough(w.idle, None), eof);
      WrittenEvents(ws[1..], eof);
    }
  }

  lemma {:induction false} IdleLinesClean(idle: seq<seq<Line>>, rest: seq<string>)
    requires Idle(idle) && AllClean(rest)
    ensures AllClean(IdleLines(idle, rest))
    decreases |idle|
  {
    if idle != [] {
      BlockMeans(idle[0], None);
      IdleLinesClean(idle[1..], rest);
    }
  }

  lemma {:induction false} WrittenClean(ws: seq<Written>)
    requires AllWrite(ws)
    ensures AllClean(WrittenLines(ws))
    decreases |ws|
  {
    if ws != [] {
      WrittenClean(ws[1..]);
      BlockMeans(ws[0].block, None);
      IdleLinesClean(ws[0].idle, Texts(ws[0].block) + ([""] + WrittenLines(ws[1..])));
    }
  }

  /**
   However events are written - with comments, event names and other fields between the data lines, with or without
   the space after a colon, with their ids before them - and however the bytes are cut, the decoder is handed the
   payloads in order and the last id given since the previous event is committed after each.
   */
  lemma WireRoundTrip<T>(ws: seq<Written>, end: string, chunks: seq<string>, eof: bool, decode: string -> seq<T>)
    requires AllWrite(ws) && Terminator(end) && Concat(chunks) == Terminate(WrittenLines(ws), end)
    ensures StreamActs(Lines(Concat(chunks)), eof, decode) == Acts(EventsOf(ws), decode)
  {
    WrittenClean(ws);
    LinesOfTerminated(WrittenLines(ws), end);
    WrittenEvents(ws, eof);
  }

  /** The same for the decoder method. */
  method DecodeWritten<T>(ws: seq<Written>, end: string, chunks: seq<string>, eof: bool, decode: string -> seq<T>)
    returns (trace: seq<Act<T>>)
    requires AllWrite(ws) && Terminator(end) && Concat(chunks) == Terminate(WrittenLines(ws), end)
    ensures trace == Acts(EventsOf(ws), decode)
  {
    WireRoundTrip(ws, end, chunks, eof, decode);
    trace := DecodeStream(chunks, eof, decode);
  }

  // ---------------------------------------------------------------- deliveries before commits

  /** The items handed over, in order. */
  function Items<T>(acts: seq<Act<T>>): seq<T> {
    if acts == [] then []
    else Items(acts[..|acts| - 1]) + if acts[|acts| - 1].Deliver? then [acts[|acts| - 1].item] else []
  }

  /** Everything the payloads decode to. */
  function AllDecoded<T>(events: seq<Event>, decode: string -> seq<T>): seq<T> {
    if events == [] then [] else AllDecoded(events[..|events| - 1], decode) + decode(events[|events| - 1].payload)
  }

  lemma {:induction false} ItemsAppend<T>(a: seq<Act<T>>, b: seq<Act<T>>)
    ensures Items(a + b) == Items(a) + Items(b)
  {
    if b == [] {
      assert a + b == a;
    } else {
      var n := |b| - 1;
      assert (a + b)[..|a + b| - 1] == a + b[..n];
      ItemsAppend(a, b[..n]);
    }
  }

  lemma {:induction false} ItemsDelivered<T>(items: seq<T>)
    ensures Items(Delivered(items)) == items
  {
    if items != [] {
      var n := |items| - 1;
      assert Delivered(items)[..n] == Delivered(items[..n]);
      ItemsDelivered(items[..n]);
    }
  }

  lemma ItemsOfEvent<T>(e: Event, decode: string -> seq<T>)
    ensures Items(ActsOf(e, decode)) == decode(e.payload)
  {
    var tail: seq<Act<T>> := if e.id.Some? then [Commit(e.id.value)] else [];
    ItemsDelivered(decode(e.payload));
    ItemsAppend(Delivered(decode(e.payload)), tail);
    if tail != [] { assert tail[..0] == []; }
  }

  /** The events hand over exactly what their payloads decode to, in order. */
  lemma {:induction false} EverythingDelivered<T>(events: seq<Event>, decode: string -> seq<T>)
    ensures Items(Acts(events, decode)) == AllDecoded(events, decode)
  {
    if events != [] {
      var n := |events| - 1;
      assert events == events[..n] + [events[n]];
      ActsAppend(events[..n], [events[n]], decode);
      assert Acts([events[n]], decode) == ActsOf(events[n], decode);
      EverythingDelivered(events[..n], decode);
      ItemsOfEvent(events[n], decode);
      ItemsAppend(Acts(events[..n], decode), ActsOf(events[n], decode));
    }
  }

  /** The id of an event is committed when everything of it and of the events before it has been handed over. */
  lemma CommitComesLast<T>(events: seq<Event>, decode: string -> seq<T>)
    requires events != [] && events[|events| - 1].id.Some?
    ensures var acts := Acts(events, decode);
      acts != [] && acts[|acts| - 1] == Commit(events[|events| - 1].id.value) &&
      Items(acts[..|acts| - 1]) == AllDecoded(events, decode)
  {
    var n := |events| - 1;
    assert events == events[..n] + [events[n]];
    ActsAppend(events[..n], [events[n]], decode);
    assert Acts([events[n]], decode) == ActsOf(events[n], decode);
    EverythingDelivered(events, decode);
  }
}
