/**
 bufio.Scanner driven by a split function: input arrives in arbitrary chunks, the splitter is asked
 again and again over the bytes buffered so far. A splitter is chunk-proof when a cut it makes does
 not depend on what follows; then the tokens depend on the bytes alone.
 */
module Chunking {

  /** The splitter's answer: it needs more bytes, or it cuts off a token. */
  datatype Cut = More | Token(advance: nat, token: string)

  type Splitter = (string, bool) -> Cut

  ghost predicate Advances(f: Splitter) {
    && (forall data, eof :: f(data, eof).Token? ==> 0 < f(data, eof).advance <= |data|)
    && f("", true) == More
  }

  /** A cut made before the end of input is unchanged by appending data. */
  ghost predicate Stable(f: Splitter) {
    forall data, more, eof :: f(data, false).Token? ==> f(data + more, eof) == f(data, false)
  }

  ghost predicate ChunkProof(f: Splitter) {
    Advances(f) && Stable(f)
  }

  /** The tokens of a complete input seen at once. */
  ghost function OneShot(f: Splitter, data: string): seq<string>
    requires Advances(f)
    decreases |data|
  {
    var c := f(data, true);
    if c.More? then [] else [c.token] + OneShot(f, data[c.advance..])
  }

  function Concat(chunks: seq<string>): string {
    if chunks == [] then "" else chunks[0] + Concat(chunks[1..])
  }

  lemma {:induction false} CutCommutes(f: Splitter, buffer: string, rest: string)
    requires ChunkProof(f) && f(buffer, false).Token?
    ensures var c := f(buffer, false); OneShot(f, buffer + rest) == [c.token] + OneShot(f, buffer[c.advance..] + rest)
  {
    var c := f(buffer, false);
    assert f(buffer + rest, true) == c;
    assert (buffer + rest)[c.advance..] == buffer[c.advance..] + rest;
  }

  /** Scanner.Scan called until it returns false; the chunks are what successive reads deliver. */
  method Scan(f: Splitter, chunks: seq<string>) returns (tokens: seq<string>)
    requires ChunkProof(f)
    ensures tokens == OneShot(f, Concat(chunks))
  {
    tokens := [];
    var buffer, next, eof := "", 0, false;
    assert buffer + Concat(chunks[0..]) == Concat(chunks);
    while true
      invariant 0 <= next <= |chunks| && (eof ==> next == |chunks|)
      invariant tokens + OneShot(f, buffer + Concat(chunks[next..])) == OneShot(f, Concat(chunks))
      decreases |chunks| - next, !eof, |buffer|
    {
      var c := if |buffer| > 0 || eof then f(buffer, eof) else More;
      if c.Token? {
        if eof {
          assert buffer + Concat(chunks[next..]) == buffer;
          assert buffer[c.advance..] + Concat(chunks[next..]) == buffer[c.advance..];
        } else {
          CutCommutes(f, buffer, Concat(chunks[next..]));
        }
        tokens, buffer := tokens + [c.token], buffer[c.advance..];
      } else if eof {
        assert buffer + Concat(chunks[next..]) == buffer;
        return;
      } else if next < |chunks| {
        assert buffer + Concat(chunks[next..]) == (buffer + chunks[next]) + Concat(chunks[next + 1..]);
        buffer, next := buffer + chunks[next], next + 1;
      } else {
        eof := true;
      }
    }
  }
}
