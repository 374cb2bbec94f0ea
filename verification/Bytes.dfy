/** Byte-string helpers. A `char` stands for one byte; the text is ASCII where case or white space matters. */
module Bytes {

  predicate IsSpace(c: char) {
    c == ' ' || c == '\t' || c == '\n' || c == '\r' || c == 11 as char || c == 12 as char
  }

  function TrimLeft(s: string): string {
    if s != "" && IsSpace(s[0]) then TrimLeft(s[1..]) else s
  }

  function TrimRight(s: string): string {
    if s != "" && IsSpace(s[|s| - 1]) then TrimRight(s[..|s| - 1]) else s
  }

  function TrimSpace(s: string): string {
    TrimRight(TrimLeft(s))
  }

  /** Index of the first character satisfying the test, or the length. */
  function Find(s: string, p: char -> bool): (i: nat)
    ensures i <= |s| && (i < |s| ==> p(s[i])) && forall j :: 0 <= j < i ==> !p(s[j])
  {
    if s == "" || p(s[0]) then 0 else 1 + Find(s[1..], p)
  }

  lemma {:induction false} FindStays(data: string, more: string, p: char -> bool)
    requires Find(data, p) < |data|
    ensures Find(data + more, p) == Find(data, p)
  {
    if !p(data[0]) {
      FindStays(data[1..], more, p);
      assert (data + more)[1..] == data[1..] + more;
    }
  }
}
