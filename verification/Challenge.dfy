/**
 The WWW-Authenticate challenge parser of internal/oauth/discovery.go: its scanner as a method, a reading of the
 parameter list by suffixes, and the round trip for quoted-string parameters (section 3 of RFC 6750,
 section 5.6.4 of RFC 9110).
 */
module Challenge {
  import opened Prelude
  import opened Bytes

  // ---------------------------------------------------------------- what the scanner reads

  function LowerChar(c: char): char {
    if 'A' <= c <= 'Z' then c + 32 as char else c
  }

  function Lower(s: string): string {
    seq(|s|, i requires 0 <= i < |s| => LowerChar(s[i]))
  }

  predicate IsBlank(c: char) {
    c == ' ' || c == '\t'
  }

  predicate IsSeparator(c: char) {
    IsBlank(c) || c == ','
  }

  predicate NotBlank(c: char) { !IsBlank(c) }
  predicate NotSeparator(c: char) { !IsSeparator(c) }
  predicate EndsKey(c: char) { c == '=' || c == ',' }
  predicate IsComma(c: char) { c == ',' }

  function KeyEnd(s: string): nat {
    Find(s, EndsKey)
  }

  function CommaAt(s: string): nat {
    Find(s, IsComma)
  }

  function SkipSeparators(s: string): string {
    s[Find(s, NotSeparator)..]
  }

  function SkipBlanks(s: string): string {
    s[Find(s, NotBlank)..]
  }

  /** A value and the text that follows it. */
  datatype Reading = Reading(value: string, rest: string)

  function Behind(before: string, r: Reading): Reading {
    Reading(before + r.value, r.rest)
  }

  /** The rest of a quoted-string after its opening quote: the value, and what follows the closing quote. */
  function Quoted(s: string): (r: Reading)
    ensures |r.rest| <= |s|
  {
    if s == "" then Reading("", "")
    else if s[0] == '\\' && |s| > 1 then Behind([s[1]], Quoted(s[2..]))
    else if s[0] == '"' then Reading("", s[1..])
    else Behind([s[0]], Quoted(s[1..]))
  }

  /** The value after an equals sign, and what follows it. */
  function Value(s: string): (r: Reading)
    ensures |r.rest| <= |s|
  {
    var v := SkipBlanks(s);
    if v != "" && v[0] == '"' then Quoted(v[1..]) else Reading(TrimSpace(v[..CommaAt(v)]), v[CommaAt(v)..])
  }

  lemma {:induction false} TrimKeeps(s: string)
    ensures |TrimSpace(s)| <= |s|
  {
    TrimLeftShrinks(s);
    TrimRightShrinks(TrimLeft(s));
  }

  lemma {:induction false} TrimLeftShrinks(s: string)
    ensures |TrimLeft(s)| <= |s|
  {
    if s != "" && IsSpace(s[0]) { TrimLeftShrinks(s[1..]); }
  }

  lemma {:induction false} TrimRightShrinks(s: string)
    ensures |TrimRight(s)| <= |s|
  {
    if s != "" && IsSpace(s[|s| - 1]) { TrimRightShrinks(s[..|s| - 1]); }
  }

  /** One turn of the scanner: the end, a stretch without a parameter, or a parameter; and what is left. */
  datatype Item = End | Skipped(rest: string) | Param(key: string, value: string, rest: string)

  function Next(s: string): (item: Item)
    ensures s == "" ==> item == End
    ensures item != End ==> |item.rest| < |s|
  {
    var r := SkipSeparators(s);
    if r == "" then End
    else
      var k := KeyEnd(r);
      TrimKeeps(r[..k]);
      AfterKey(r, k, TrimSpace(r[..k]))
  }

  /** The turn once the key has been read: `r` starts at the key, which ends at k. */
  function AfterKey(r: string, k: nat, key: string): (item: Item)
    requires r != "" && k <= |r| && |key| <= k
    ensures item != End && |item.rest| < |r|
  {
    if key == "" then Skipped(if k < |r| then r[k + 1..] else "")
    else if k == |r| || r[k] != '=' then Skipped(r[k..])
    else var v := Value(r[k + 1..]); Param(Lower(key), v.value, v.rest)
  }

  /** The parameters of the list `s`, added to those already read. */
  function Params(s: string, read: map<string, string>): map<string, string>
    decreases |s|
  {
    match Next(s)
    case End => read
    case Skipped(rest) => Params(rest, read)
    case Param(key, value, rest) => Params(rest, read[key := value])
  }

  const SCHEME := "bearer"

  /** None stands for nil: the challenge is not a Bearer challenge. */
  function Challenged(header: string): Option<map<string, string>> {
    var s := TrimSpace(header);
    if s == "" || |s| < |SCHEME| || Lower(s[..|SCHEME|]) != SCHEME then None
    else Some(Params(TrimSpace(s[|SCHEME|..]), map[]))
  }

  // ---------------------------------------------------------------- the scanner

  /** The inner loops `for pos < len(rest) && ...`: move to the next position where the test holds. */
  method Advance(rest: string, start: nat, p: char -> bool) returns (pos: nat)
    requires start <= |rest|
    ensures pos == start + Find(rest[start..], p)
  {
    pos := start;
    while pos < |rest| && !p(rest[pos])
      invariant start <= pos <= |rest|
      invariant start + Find(rest[start..], p) == pos + Find(rest[pos..], p)
    {
      assert rest[pos..][1..] == rest[pos + 1..];
      pos := pos + 1;
    }
  }

  /** One character of a quoted-string. */
  lemma QuotedTurn(before: string, rest: string, pos: nat)
    requires pos < |rest|
    ensures Behind(before, Quoted(rest[pos..])) ==
      if rest[pos] == '\\' && pos + 1 < |rest| then Behind(before + [rest[pos + 1]], Quoted(rest[pos + 2..]))
      else if rest[pos] == '"' then Reading(before, rest[pos + 1..])
      else Behind(before + [rest[pos]], Quoted(rest[pos + 1..]))
  {
    var s := rest[pos..];
    assert s[0] == rest[pos] && s[1..] == rest[pos + 1..];
    if rest[pos] == '\\' && pos + 1 < |rest| {
      assert s[2..] == rest[pos + 2..] && s[1] == rest[pos + 1];
      Assoc(before, [s[1]], Quoted(s[2..]).value);
    } else if rest[pos] != '"' {
      Assoc(before, [s[0]], Quoted(s[1..]).value);
    }
  }

  method ScanQuoted(rest: string, start: nat) returns (value: string, pos: nat)
    requires start <= |rest|
    ensures start <= pos <= |rest| && Reading(value, rest[pos..]) == Quoted(rest[start..])
  {
    value, pos := "", start;
    ghost var all := Quoted(rest[start..]);
    assert Behind("", all) == all;
    while pos < |rest|
      invariant start <= pos <= |rest|
      invariant Behind(value, Quoted(rest[pos..])) == all
    {
      var c := rest[pos];
      QuotedTurn(value, rest, pos);
      if c == '\\' && pos + 1 < |rest| {
        value, pos := value + [rest[pos + 1]], pos + 2;
      } else if c == '"' {
        pos := pos + 1;
        return;
      } else {
        value, pos := value + [c], pos + 1;
      }
    }
    assert rest[|rest|..] == "" && value + "" == value;
  }

  lemma Slices(rest: string, a: nat, b: nat)
    requires a <= b <= |rest|
    ensures rest[a..][..b - a] == rest[a..b] && rest[a..][b - a..] == rest[b..]
    ensures b < |rest| ==> rest[a..][b - a] == rest[b] && rest[a..][b - a + 1..] == rest[b + 1..]
  {
  }

  lemma QuotedAt(rest: string, start: nat, begin: nat)
    requires start <= begin < |rest| && begin == start + Find(rest[start..], NotBlank) && rest[begin] == '"'
    ensures Value(rest[start..]) == Quoted(rest[begin + 1..])
  {
    Slices(rest, start, begin);
    assert rest[begin..][1..] == rest[begin + 1..];
  }

  lemma UnquotedAt(rest: string, start: nat, begin: nat, pos: nat)
    requires start <= begin <= |rest| && begin == start + Find(rest[start..], NotBlank)
    requires (begin < |rest| ==> rest[begin] != '"') && pos == begin + CommaAt(rest[begin..])
    ensures pos <= |rest| && Value(rest[start..]) == Reading(TrimSpace(rest[begin..pos]), rest[pos..])
  {
    Slices(rest, start, begin);
    Slices(rest, begin, pos);
  }

  method ScanValue(rest: string, start: nat) returns (value: string, pos: nat)
    requires start <= |rest|
    ensures start <= pos <= |rest| && Reading(value, rest[pos..]) == Value(rest[start..])
  {
    var begin := Advance(rest, start, NotBlank);
    if begin < |rest| && rest[begin] == '"' {
      QuotedAt(rest, start, begin);
      value, pos := ScanQuoted(rest, begin + 1);
    } else {
      pos := Advance(rest, begin, IsComma);
      UnquotedAt(rest, start, begin, pos);
      value := TrimSpace(rest[begin..pos]);
    }
  }

  lemma ParamUnfolds(s: string, k: nat, key: string, tail: string, value: string, rest: string)
    requires k < |s| && s[k] == '=' && s[k + 1..] == tail && key != "" && |key| <= k
    requires Value(tail) == Reading(value, rest)
    ensures AfterKey(s, k, key) == Param(Lower(key), value, rest)
  {
  }

  /** A turn that finds no parameter, in positions. */
  lemma SkipUnfolds(rest: string, keyStart: nat, keyEnd: nat, key: string)
    requires keyStart <= keyEnd <= |rest| && keyStart < |rest| && |key| <= keyEnd - keyStart
    requires key == "" || keyEnd == |rest| || rest[keyEnd] != '='
    ensures AfterKey(rest[keyStart..], keyEnd - keyStart, key) ==
      Skipped(rest[if key == "" && keyEnd < |rest| then keyEnd + 1 else keyEnd..])
  {
    Slices(rest, keyStart, keyEnd);
  }

  /** The rest of a turn, in positions: the key starts at keyStart and ends at keyEnd. */
  method ScanAfterKey(rest: string, keyStart: nat, keyEnd: nat, key: string) returns (item: Item, pos: nat)
    requires keyStart <= keyEnd <= |rest| && keyStart < |rest| && |key| <= keyEnd - keyStart
    ensures keyStart < pos <= |rest| && item == AfterKey(rest[keyStart..], keyEnd - keyStart, key) && rest[pos..] == item.rest
  {
    if key == "" {
      SkipUnfolds(rest, keyStart, keyEnd, key);
      pos := if keyEnd < |rest| then keyEnd + 1 else keyEnd;
      return Skipped(rest[pos..]), pos;
    }
    if keyEnd >= |rest| || rest[keyEnd] != '=' {
      SkipUnfolds(rest, keyStart, keyEnd, key);
      return Skipped(rest[keyEnd..]), keyEnd;
    }
    var value;
    value, pos := ScanValue(rest, keyEnd + 1);
    ParamAt(rest, keyStart, keyEnd, key, value, rest[pos..]);
    item := Param(Lower(key), value, rest[pos..]);
  }

  lemma ParamAt(rest: string, keyStart: nat, keyEnd: nat, key: string, value: string, later: string)
    requires keyStart <= keyEnd < |rest| && rest[keyEnd] == '=' && key != "" && |key| <= keyEnd - keyStart
    requires Value(rest[keyEnd + 1..]) == Reading(value, later)
    ensures AfterKey(rest[keyStart..], keyEnd - keyStart, key) == Param(Lower(key), value, later)
  {
    Slices(rest, keyStart, keyEnd);
    ParamUnfolds(rest[keyStart..], keyEnd - keyStart, key, rest[keyEnd + 1..], value, later);
  }

  lemma NextUnfolds(s: string, r: string, k: nat, key: string)
    requires SkipSeparators(s) == r != "" && KeyEnd(r) == k <= |r| && TrimSpace(r[..k]) == key && |key| <= k
    ensures Next(s) == AfterKey(r, k, key)
  {
  }

  /** Where the scanner stands after its two inner loops, in terms of the suffixes. */
  lemma NextStartsAt(rest: string, start: nat, keyStart: nat, keyEnd: nat)
    requires start <= keyStart < |rest| && keyStart == start + Find(rest[start..], NotSeparator)
    requires keyEnd == keyStart + Find(rest[keyStart..], EndsKey)
    ensures keyEnd <= |rest| && |TrimSpace(rest[keyStart..keyEnd])| <= keyEnd - keyStart
    ensures Next(rest[start..]) == AfterKey(rest[keyStart..], keyEnd - keyStart, TrimSpace(rest[keyStart..keyEnd]))
  {
    TrimKeeps(rest[keyStart..keyEnd]);
    assert SkipSeparators(rest[start..]) == rest[keyStart..] by {
      Slices(rest, start, keyStart);
    }
    assert rest[keyStart..][..keyEnd - keyStart] == rest[keyStart..keyEnd] by {
      Slices(rest, keyStart, keyEnd);
    }
    NextUnfolds(rest[start..], rest[keyStart..], keyEnd - keyStart, TrimSpace(rest[keyStart..keyEnd]));
  }

  /** One turn of the outer loop: it moves `pos` forward and may find a parameter. */
  method ScanItem(rest: string, start: nat) returns (item: Item, pos: nat)
    requires start < |rest|
    ensures start < pos <= |rest| && item == Next(rest[start..])
    ensures rest[pos..] == if item == End then "" else item.rest
  {
    var keyStart := Advance(rest, start, NotSeparator);
    if keyStart >= |rest| {
      return End, |rest|;
    }
    var keyEnd := Advance(rest, keyStart, EndsKey);
    NextStartsAt(rest, start, keyStart, keyEnd);
    var key := TrimSpace(rest[keyStart..keyEnd]);
    item, pos := ScanAfterKey(rest, keyStart, keyEnd, key);
  }

  /** The outer loop: `pos` strictly grows, whatever the input. */
  method ScanParams(rest: string) returns (read: map<string, string>)
    ensures read == Params(rest, map[])
  {
    read := map[];
    var pos := 0;
    assert rest[0..] == rest;
    while pos < |rest|
      invariant 0 <= pos <= |rest|
      invariant Params(rest[pos..], read) == Params(rest, map[])
      decreases |rest| - pos
    {
      var item;
      item, pos := ScanItem(rest, pos);
      if item.Param? {
        read := read[item.key := item.value];
      }
    }
    assert rest[pos..] == "";
  }

  /** parseWWWAuthenticate. */
  method ParseWWWAuthenticate(header: string) returns (params: Option<map<string, string>>)
    ensures params == Challenged(header)
  {
    var s := TrimSpace(header);
    if s == "" {
      return None;
    }
    if |s| < |SCHEME| || Lower(s[..|SCHEME|]) != SCHEME {
      return None;
    }
    var read := ScanParams(TrimSpace(s[|SCHEME|..]));
    params := Some(read);
  }
}
