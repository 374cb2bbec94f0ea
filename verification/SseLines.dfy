/** Line splitting of internal/httpmcp/sse.go: LF, CR and CRLF all end a line. */
module SseLines {
  import opened Bytes
  import opened Chunking

  predicate IsBreak(c: char) {
    c == '\n' || c == '\r'
  }

  function FirstBreak(data: string): nat {
    Find(data, IsBreak)
  }

  /** What one call of splitSSELine decides. */
  function CutLine(data: string, eof: bool): Cut {
    var i := FirstBreak(data);
    if i == |data| then
      if eof && data != "" then Token(|data|, data) else More
    else if data[i] == '\n' then Token(i + 1, data[..i])
    else if i + 1 < |data| then Token(if data[i + 1] == '\n' then i + 2 else i + 1, data[..i])
    else if eof then Token(i + 1, data[..i])
    else More
  }

  /** splitSSELine itself: an index loop over the buffered bytes. */
  method SplitLine(data: string, eof: bool) returns (c: Cut)
    ensures c == CutLine(data, eof)
  {
    if eof && |data| == 0 {
      return More;
    }
    var i := 0;
    while i < |data|
      invariant 0 <= i <= |data|
      invariant forall j :: 0 <= j < i ==> !IsBreak(data[j])
    {
      if data[i] == '\n' {
        return Token(i + 1, data[..i]);
      }
      if data[i] == '\r' {
        if i + 1 < |data| {
          if data[i + 1] == '\n' {
            return Token(i + 2, data[..i]);
          }
          return Token(i + 1, data[..i]);
        }
        if eof {
          return Token(i + 1, data[..i]);
        }
        return More;
      }
      i := i + 1;
    }
    if eof {
      return Token(|data|, data);
    }
    c := More;
  }

  /** A line cut off before the end of input does not depend on the bytes that follow. */
  lemma LineCutsAreFinal()
    ensures ChunkProof(CutLine)
  {
    forall data, more, eof | CutLine(data, false).Token? ensures CutLine(data + more, eof) == CutLine(data, false) {
      FindStays(data, more, IsBreak);
      assert (data + more)[..FirstBreak(data)] == data[..FirstBreak(data)];
    }
  }

  // ---------------------------------------------------------------- the lines of a text

  /** Every CRLF and every lone CR becomes LF. */
  function Normalize(s: string): string {
    if s == "" then ""
    else if s[0] == '\r' then "\n" + Normalize(if |s| > 1 && s[1] == '\n' then s[2..] else s[1..])
    else [s[0]] + Normalize(s[1..])
  }

  /** Pieces ended by LF, and the last piece if it is not empty. */
  function PiecesByLF(s: string, piece: string): seq<string> {
    if s == "" then (if piece == "" then [] else [piece])
    else if s[0] == '\n' then [piece] + PiecesByLF(s[1..], "")
    else PiecesByLF(s[1..], piece + [s[0]])
  }

  /** The lines of a text, by the rule of section 9.2.5 of the WHATWG HTML Living Standard. */
  function Lines(s: string): seq<string> {
    PiecesByLF(Normalize(s), "")
  }

  /** Text before the first break goes into the current piece as it is. */
  lemma {:induction false} PlainPrefix(s: string, i: nat, piece: string)
    requires i <= FirstBreak(s)
    ensures PiecesByLF(Normalize(s), piece) == PiecesByLF(Normalize(s[i..]), piece + s[..i])
  {
    if i == 0 {
      assert piece + s[..0] == piece;
    } else {
      PlainPrefix(s[1..], i - 1, piece + [s[0]]);
      assert s[1..][i - 1..] == s[i..];
      assert piece + [s[0]] + s[1..][..i - 1] == piece + s[..i];
      assert Normalize(s)[1..] == Normalize(s[1..]);
    }
  }

  lemma {:induction false} OneShotIsLines(s: string)
    requires Advances(CutLine)
    ensures OneShot(CutLine, s) == Lines(s)
    decreases |s|
  {
    var i := FirstBreak(s);
    var c := CutLine(s, true);
    PlainPrefix(s, i, "");
    assert "" + s[..i] == s[..i];
    if i < |s| {
      var rest := if s[i] == '\r' && i + 1 < |s| && s[i + 1] == '\n' then s[i + 2..] else s[i + 1..];
      assert s[c.advance..] == rest;
      OneShotIsLines(rest);
      assert Normalize(s[i..]) == "\n" + Normalize(rest);
      assert Normalize(s[i..])[1..] == Normalize(rest);
    } else {
      assert s[i..] == "" && s[..i] == s && s[|s|..] == "";
      assert OneShot(CutLine, "") == [];
    }
  }

  /** However the bytes are cut into reads, the scanner yields the lines of the whole text. */
  method ScanLines(chunks: seq<string>) returns (lines: seq<string>)
    ensures lines == Lines(Concat(chunks))
  {
    LineCutsAreFinal();
    OneShotIsLines(Concat(chunks));
    lines := Scan(CutLine, chunks);
  }
}
