/**
 Newline framing of internal/stdio/transport.go: the line scanner, the bytes of a batch, and what the reading
 goroutine makes of a stream. Encoding and decoding of one message are parameters.
 */
module Framing {
  import opened Prelude
  import opened Bytes
  import opened Jsonrpc
  import opened Chunking
  import SseLines

  // ---------------------------------------------------------------- lines

  predicate IsLF(c: char) {
    c == '\n'
  }

  function DropCR(line: string): string {
    if line != "" && line[|line| - 1] == '\r' then line[..|line| - 1] else line
  }

  /** bufio.ScanLines, the default split function of a Scanner. */
  function CutLF(data: string, eof: bool): Cut {
    var i := Find(data, IsLF);
    if i < |data| then Token(i + 1, DropCR(data[..i]))
    else if eof && data != "" then Token(|data|, DropCR(data))
    else More
  }

  lemma LFCutsAreFinal()
    ensures ChunkProof(CutLF)
  {
    forall data, more, eof | CutLF(data, false).Token? ensures CutLF(data + more, eof) == CutLF(data, false) {
      FindStays(data, more, IsLF);
      assert (data + more)[..Find(data, IsLF)] == data[..Find(data, IsLF)];
    }
  }

  function DropEach(pieces: seq<string>): seq<string> {
    if pieces == [] then [] else [DropCR(pieces[0])] + DropEach(pieces[1..])
  }

  /** Pieces ended by LF, the last one possibly unterminated; one CR before the LF is not part of the line. */
  function Lines(s: string): seq<string> {
    DropEach(SseLines.PiecesByLF(s, ""))
  }

  lemma {:induction false} PieceUpToLF(s: string, i: nat, piece: string)
    requires i <= Find(s, IsLF)
    ensures SseLines.PiecesByLF(s, piece) == SseLines.PiecesByLF(s[i..], piece + s[..i])
  {
    if i == 0 {
      assert piece + s[..0] == piece;
    } else {
      PieceUpToLF(s[1..], i - 1, piece + [s[0]]);
      assert s[1..][i - 1..] == s[i..];
      assert piece + [s[0]] + s[1..][..i - 1] == piece + s[..i];
    }
  }

  /** The first cut of a text, in terms of its lines. */
  lemma FirstCut(s: string)
    requires s != ""
    ensures var c := CutLF(s, true);
      c.Token? && 0 < c.advance <= |s| && Lines(s) == [c.token] + Lines(s[c.advance..])
  {
    var i := Find(s, IsLF);
    PieceUpToLF(s, i, "");
    assert "" + s[..i] == s[..i];
    if i < |s| {
      assert s[i..][1..] == s[i + 1..];
    } else {
      assert s[i..] == "" && s[..i] == s && s[|s|..] == "";
      assert SseLines.PiecesByLF(s, "") == [s];
      assert DropEach([s]) == [DropCR(s)] + Lines("");
    }
  }

  lemma {:induction false} OneShotIsLines(s: string)
    requires Advances(CutLF)
    ensures OneShot(CutLF, s) == Lines(s)
    decreases |s|
  {
    if s != "" {
      FirstCut(s);
      OneShotIsLines(s[CutLF(s, true).advance..]);
    }
  }

  /** However the bytes arrive, the scanner of the reading goroutine sees the lines of the whole stream. */
  method ScanLines(chunks: seq<string>) returns (lines: seq<string>)
    ensures lines == Lines(Concat(chunks))
  {
    LFCutsAreFinal();
    OneShotIsLines(Concat(chunks));
    lines := Scan(CutLF, chunks);
  }

  // ---------------------------------------------------------------- batches

  /** None stands for an encoding or decoding error. */
  type Encoder = Message -> Option<string>
  type Decoder = string -> Option<Message>

  /** The form in which a message comes back: its raw JSON fields compacted. */
  type Compaction = Message -> Message

  /** What the encoding is relied on for: decoding gives back the compacted message, and no line is broken. */
  ghost predicate Codec(enc: Encoder, dec: Decoder, compact: Compaction) {
    forall m :: enc(m).Some? ==> dec(enc(m).value) == Some(compact(m)) && OneLine(enc(m).value)
  }

  function Compacted(compact: Compaction, msgs: seq<Message>): seq<Message> {
    seq(|msgs|, i requires 0 <= i < |msgs| => compact(msgs[i]))
  }

  ghost predicate OneLine(line: string) {
    line != "" && '\n' !in line && line[|line| - 1] != '\r'
  }

  /** The bytes of a batch: one line a message; None when some message does not encode. */
  function Batch(enc: Encoder, msgs: seq<Message>): Option<string> {
    if msgs == [] then Some("")
    else if enc(msgs[0]).None? || Batch(enc, msgs[1..]).None? then None
    else Some(enc(msgs[0]).value + "\n" + Batch(enc, msgs[1..]).value)
  }

  lemma {:induction false} BatchJoins(enc: Encoder, a: seq<Message>, b: seq<Message>)
    ensures Batch(enc, a + b) ==
      if Batch(enc, a).None? || Batch(enc, b).None? then None else Some(Batch(enc, a).value + Batch(enc, b).value)
  {
    if a == [] {
      assert a + b == b && Batch(enc, a) == Some("");
      assert Batch(enc, b).Some? ==> "" + Batch(enc, b).value == Batch(enc, b).value;
    } else {
      BatchJoins(enc, a[1..], b);
      assert (a + b)[1..] == a[1..] + b;
      if Batch(enc, a).Some? && Batch(enc, b).Some? {
        assert enc(a[0]).value + "\n" + (Batch(enc, a[1..]).value + Batch(enc, b).value) == Batch(enc, a).value + Batch(enc, b).value;
      }
    }
  }

  // ---------------------------------------------------------------- what a stream means to its readers

  /** The end of the input: EOF, or a read error of the underlying reader. */
  datatype Failure = Eof | ReadError | BadLine(line: string)
  datatype Outcome = Got(message: Message) | Failed(failure: Failure)

  /** The messages up to the first line that does not decode, and how the stream ends. */
  function Script(lines: seq<string>, dec: Decoder, ending: Failure): seq<Outcome> {
    if lines == [] then [Failed(ending)]
    else if lines[0] == "" then Script(lines[1..], dec, ending)
    else if dec(lines[0]).None? then [Failed(BadLine(lines[0]))]
    else [Got(dec(lines[0]).value)] + Script(lines[1..], dec, ending)
  }

  function AllGot(msgs: seq<Message>): seq<Outcome> {
    seq(|msgs|, i requires 0 <= i < |msgs| => Got(msgs[i]))
  }

  /** A line without LF in front of a stream is its first piece. */
  lemma FirstLine(line: string, rest: string)
    requires '\n' !in line
    ensures SseLines.PiecesByLF(line + "\n" + rest, "") == [line] + SseLines.PiecesByLF(rest, "")
  {
    var s := line + "\n" + rest;
    FindsLF(s, |line|);
    PieceUpToLF(s, |line|, "");
    assert s[..|line|] == line && "" + line == line;
    assert s[|line|..] == "\n" + rest && ("\n" + rest)[1..] == rest;
  }

  lemma {:induction false} FindsLF(s: string, i: nat)
    requires i < |s| && s[i] == '\n' && forall j :: 0 <= j < i ==> s[j] != '\n'
    ensures Find(s, IsLF) == i
  {
    if i > 0 { FindsLF(s[1..], i - 1); }
  }

  /** The framing law: an encoded batch is read back message by message, whatever follows it. */
  lemma {:induction false} BatchReadsBack(
      enc: Encoder, dec: Decoder, compact: Compaction, msgs: seq<Message>, rest: string, ending: Failure)
    requires Codec(enc, dec, compact) && Batch(enc, msgs).Some?
    ensures Script(Lines(Batch(enc, msgs).value + rest), dec, ending) ==
      AllGot(Compacted(compact, msgs)) + Script(Lines(rest), dec, ending)
  {
    if msgs == [] {
      assert "" + rest == rest && AllGot(Compacted(compact, msgs)) == [];
    } else {
      var line := enc(msgs[0]).value;
      var later := Batch(enc, msgs[1..]).value + rest;
      assert Batch(enc, msgs).value + rest == line + "\n" + later;
      FirstLine(line, later);
      assert Lines(line + "\n" + later) == [line] + Lines(later);
      BatchReadsBack(enc, dec, compact, msgs[1..], rest, ending);
      var got, more := [Got(compact(msgs[0]))], AllGot(Compacted(compact, msgs[1..]));
      assert AllGot(Compacted(compact, msgs)) == got + more;
      Assoc(got, more, Script(Lines(rest), dec, ending));
    }
  }

  /** A stream of whole batches is exactly its messages, compacted, and then its ending. */
  lemma RoundTrip(enc: Encoder, dec: Decoder, compact: Compaction, msgs: seq<Message>, ending: Failure)
    requires Codec(enc, dec, compact) && Batch(enc, msgs).Some?
    ensures Script(Lines(Batch(enc, msgs).value), dec, ending) == AllGot(Compacted(compact, msgs)) + [Failed(ending)]
  {
    BatchReadsBack(enc, dec, compact, msgs, "", ending);
    assert Batch(enc, msgs).value + "" == Batch(enc, msgs).value && Lines("") == [];
  }

  // ---------------------------------------------------------------- streams written by others

  /** A message or an empty line, ended by LF or by CRLF. */
  datatype Framed = Carries(message: Message, crlf: bool) | Empty(crlf: bool)

  function End(crlf: bool): string {
    if crlf then "\r\n" else "\n"
  }

  function Print(enc: Encoder, fs: seq<Framed>): Option<string> {
    if fs == [] then Some("")
    else
      var later := Print(enc, fs[1..]);
      match fs[0]
      case Empty(crlf) => if later.None? then None else Some("" + End(crlf) + later.value)
      case Carries(m, crlf) =>
        if later.None? || enc(m).None? then None else Some(enc(m).value + End(crlf) + later.value)
  }

  function Carried(fs: seq<Framed>): seq<Message> {
    if fs == [] then [] else (if fs[0].Carries? then [fs[0].message] else []) + Carried(fs[1..])
  }

  /** One line, however it is ended. */
  lemma FirstEndedLine(line: string, crlf: bool, rest: string)
    requires '\n' !in line && (crlf || line == "" || line[|line| - 1] != '\r')
    ensures Lines(line + End(crlf) + rest) == [line] + Lines(rest)
  {
    var whole := if crlf then line + "\r" else line;
    assert line + End(crlf) + rest == whole + "\n" + rest;
    FirstLine(whole, rest);
    assert DropCR(whole) == line;
  }

  lemma EmptyLineSkipped(crlf: bool, later: string, dec: Decoder, ending: Failure)
    ensures Script(Lines("" + End(crlf) + later), dec, ending) == Script(Lines(later), dec, ending)
  {
    FirstEndedLine("", crlf, later);
    assert ([""] + Lines(later))[1..] == Lines(later);
  }

  lemma MessageLineRead(line: string, m: Message, crlf: bool, later: string, dec: Decoder, ending: Failure)
    requires OneLine(line) && dec(line) == Some(m)
    ensures Script(Lines(line + End(crlf) + later), dec, ending) == [Got(m)] + Script(Lines(later), dec, ending)
  {
    FirstEndedLine(line, crlf, later);
    assert ([line] + Lines(later))[1..] == Lines(later);
  }

  lemma CarriedHead(compact: Compaction, m: Message, more: seq<Message>)
    ensures AllGot(Compacted(compact, [m] + more)) == [Got(compact(m))] + AllGot(Compacted(compact, more))
  {
  }

  /** Empty lines are skipped and CRLF is read like LF: exactly the messages come back, in order. */
  lemma {:induction false} FramedReadsBack(
      enc: Encoder, dec: Decoder, compact: Compaction, fs: seq<Framed>, ending: Failure)
    requires Codec(enc, dec, compact) && Print(enc, fs).Some?
    ensures Script(Lines(Print(enc, fs).value), dec, ending) == AllGot(Compacted(compact, Carried(fs))) + [Failed(ending)]
  {
    if fs == [] {
      assert Lines("") == [] && AllGot(Compacted(compact, Carried(fs))) == [];
    } else {
      var later, more := Print(enc, fs[1..]).value, Carried(fs[1..]);
      FramedReadsBack(enc, dec, compact, fs[1..], ending);
      if fs[0].Empty? {
        EmptyLineSkipped(fs[0].crlf, later, dec, ending);
        assert Carried(fs) == more;
      } else {
        var m := fs[0].message;
        MessageLineRead(enc(m).value, compact(m), fs[0].crlf, later, dec, ending);
        CarriedHead(compact, m, more);
        Assoc([Got(compact(m))], AllGot(Compacted(compact, more)), [Failed(ending)]);
      }
    }
  }
}
