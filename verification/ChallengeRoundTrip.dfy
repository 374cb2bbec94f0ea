/** Printing parameters as a Bearer challenge and parsing it gives the same parameters back. */
module ChallengeRoundTrip {
  import opened Prelude
  import opened Bytes
  import opened Challenge

  // ---------------------------------------------------------------- printing

  /** Without quotes; as a quoted-string with only the necessary escapes; or with every character escaped. */
  datatype Style = Plain | Quotes | Escapes

  /**
   A parameter, as a quoted-string or as it stands, with the blanks before its key, around the equals sign and after
   its value; or a word without a value, which means nothing.
   */
  datatype Printed =
    | Param(key: string, value: string, style: Style, before: string, left: string, right: string, after: string)
    | Word(key: string, before: string, after: string)

  ghost predicate Blanks(s: string) {
    forall j :: 0 <= j < |s| ==> IsBlank(s[j])
  }

  /** The characters of an ASCII token (section 5.6.2 of RFC 9110). */
  predicate IsTokenChar(c: char) {
    || c == '!' || '#' <= c <= '\'' || c == '*' || c == '+' || c == '-' || c == '.'
    || '0' <= c <= '9' || 'A' <= c <= 'Z' || '^' <= c <= 'z' || c == '|' || c == '~'
  }

  ghost predicate KeyChars(key: string) {
    forall j :: 0 <= j < |key| ==> IsTokenChar(key[j])
  }

  /** A value that can stand without quotes: no white space at its ends, no comma, no quote at its start. */
  ghost predicate Bare(v: string) {
    && v != "" && !IsSpace(v[0]) && !IsSpace(v[|v| - 1]) && v[0] != '"'
    && forall j :: 0 <= j < |v| ==> !IsComma(v[j])
  }

  /** Keys are tokens in any case; a quoted value may be any bytes. */
  ghost predicate Printable(p: Printed) {
    && p.key != "" && KeyChars(p.key) && Blanks(p.before) && Blanks(p.after)
    && (p.Param? ==> Blanks(p.left) && Blanks(p.right) && (p.style.Plain? ==> Bare(p.value)))
  }

  ghost predicate AllPrintable(ps: seq<Printed>) {
    forall j :: 0 <= j < |ps| ==> Printable(ps[j])
  }

  /** Quoted-string escaping: a backslash before every quote and every backslash, or before every character. */
  function Escape(v: string, every: bool): string {
    if v == "" then ""
    else (if every || v[0] == '"' || v[0] == '\\' then ['\\', v[0]] else [v[0]]) + Escape(v[1..], every)
  }

  /** What follows the equals sign: the value, blanks, and the rest of the list. */
  function Tail(right: string, value: string, style: Style, after: string, later: string): string {
    if !style.Plain? then right + ("\"" + (Escape(value, style.Escapes?) + "\"" + (after + later))) else right + (value + after + later)
  }

  /** A parameter or word, the blanks after it, and the rest of the list. */
  function Body(p: Printed, after: string, later: string): string {
    match p
    case Param(key, value, style, _, left, right, _) => key + left + ("=" + Tail(right, value, style, after, later))
    case Word(key, _, _) => key + after + later
  }

  /** The blanks printed after p: none at the end of the list. */
  function After(p: Printed, ps: seq<Printed>): string {
    if ps == [] then "" else p.after
  }

  /** A comma, blanks, and the next entries. */
  function Later(ps: seq<Printed>): string
    decreases |ps|, 1
  {
    if ps == [] then "" else "," + ps[0].before + List(ps)
  }

  function List(ps: seq<Printed>): string
    decreases |ps|, 0
  {
    if ps == [] then "" else Body(ps[0], After(ps[0], ps[1..]), Later(ps[1..]))
  }

  /** The parameters in order, under their keys in lower case, a later one replacing an earlier one with the same key; words are left out. */
  function Meaning(ps: seq<Printed>, read: map<string, string>): map<string, string> {
    if ps == [] then read
    else Meaning(ps[1..], if ps[0].Param? then read[Lower(ps[0].key) := ps[0].value] else read)
  }

  // ---------------------------------------------------------------- reading it back

  /** The first match is unique. */
  lemma FindIs(s: string, p: char -> bool, i: nat)
    requires i <= |s| && (forall j :: 0 <= j < i ==> !p(s[j])) && (i < |s| ==> p(s[i]))
    ensures Find(s, p) == i
  {
  }

  /** What a backslash escapes is taken as it is. */
  lemma ReadsPair(c: char, later: string)
    ensures Quoted(['\\', c] + later) == Behind([c], Quoted(later))
  {
    var s := ['\\', c] + later;
    assert s[2..] == later && s[0] == '\\' && s[1] == c;
  }

  lemma ReadsPlain(c: char, later: string)
    requires c != '\\' && c != '"'
    ensures Quoted([c] + later) == Behind([c], Quoted(later))
  {
    var s := [c] + later;
    assert s[1..] == later && s[0] == c;
  }

  /** One character of an escaped value, and what follows it. */
  lemma ReadsEscaped(v: string, every: bool, rest: string)
    requires v != ""
    ensures Quoted(Escape(v, every) + rest) == Behind([v[0]], Quoted(Escape(v[1..], every) + rest))
  {
    var later := Escape(v[1..], every);
    if every || v[0] == '"' || v[0] == '\\' {
      Assoc(['\\', v[0]], later, rest);
      ReadsPair(v[0], later + rest);
    } else {
      Assoc([v[0]], later, rest);
      ReadsPlain(v[0], later + rest);
    }
  }

  lemma {:induction false} QuotedReadsEscaped(v: string, every: bool, rest: string)
    ensures Quoted(Escape(v, every) + ("\"" + rest)) == Reading(v, rest)
  {
    var tail := "\"" + rest;
    if v == "" {
      assert Escape(v, every) + tail == tail && tail[0] == '"' && tail[1..] == rest;
    } else {
      ReadsEscaped(v, every, tail);
      QuotedReadsEscaped(v[1..], every, rest);
      assert [v[0]] + v[1..] == v;
    }
  }

  lemma QuoteStarts(blanks: string, quoted: string)
    requires Blanks(blanks)
    ensures SkipBlanks(blanks + ("\"" + quoted)) == "\"" + quoted
  {
    var s := blanks + ("\"" + quoted);
    assert s[|blanks|] == '"' && forall j :: 0 <= j < |blanks| ==> s[j] == blanks[j];
    FindIs(s, NotBlank, |blanks|);
  }

  lemma ValueIsQuoted(whole: string, quoted: string)
    requires SkipBlanks(whole) == "\"" + quoted
    ensures Value(whole) == Quoted(quoted)
  {
    assert ("\"" + quoted)[1..] == quoted && ("\"" + quoted)[0] == '"';
  }

  lemma ValueReadsQuoted(blanks: string, v: string, every: bool, rest: string)
    requires Blanks(blanks)
    ensures Value(blanks + ("\"" + (Escape(v, every) + "\"" + rest))) == Reading(v, rest)
  {
    var quoted := Escape(v, every) + "\"" + rest;
    QuoteStarts(blanks, quoted);
    ValueIsQuoted(blanks + ("\"" + quoted), quoted);
    Assoc(Escape(v, every), "\"", rest);
    QuotedReadsEscaped(v, every, rest);
  }

  lemma {:induction false} TrimRightDrops(s: string, blanks: string)
    requires Blanks(blanks) && s != "" && !IsSpace(s[|s| - 1])
    ensures TrimRight(s + blanks) == s
  {
    var all := s + blanks;
    if blanks == "" {
      assert all == s;
    } else {
      assert all[..|all| - 1] == s + blanks[..|blanks| - 1] && all[|all| - 1] == blanks[|blanks| - 1];
      TrimRightDrops(s, blanks[..|blanks| - 1]);
    }
  }

  lemma {:induction false} TrimLeftDrops(blanks: string, s: string)
    requires Blanks(blanks) && s != "" && !IsSpace(s[0])
    ensures TrimLeft(blanks + s) == s
  {
    if blanks == "" {
      assert blanks + s == s;
    } else {
      assert (blanks + s)[1..] == blanks[1..] + s && (blanks + s)[0] == blanks[0];
      TrimLeftDrops(blanks[1..], s);
    }
  }

  lemma TrimDrops(left: string, s: string, right: string)
    requires Blanks(left) && Blanks(right) && s != "" && !IsSpace(s[0]) && !IsSpace(s[|s| - 1])
    ensures TrimSpace(left + s + right) == s
  {
    assert left + s + right == left + (s + right) && (s + right)[0] == s[0];
    TrimLeftDrops(left, s + right);
    TrimRightDrops(s, right);
  }

  /** Key and blanks, together `head`, stand where they were printed; `tail` follows the equals sign. */
  ghost predicate Stands(s: string, head: string, tail: string) {
    && |head| < |s| && KeyEnd(s) == |head| && s[|head|] == '='
    && s[..|head|] == head && s[|head| + 1..] == tail
  }

  lemma KeyBefore(head: string, tail: string)
    requires forall j :: 0 <= j < |head| ==> !EndsKey(head[j])
    ensures Stands(head + ("=" + tail), head, tail)
  {
    FindIs(head + ("=" + tail), EndsKey, |head|);
  }

  lemma HeadHoldsNoEnd(key: string, blanks: string)
    requires KeyChars(key) && Blanks(blanks)
    ensures forall j :: 0 <= j < |key + blanks| ==> !EndsKey((key + blanks)[j])
  {
  }

  /** What is left of the list starts with a comma, if there is anything left. */
  predicate AtComma(later: string) {
    later == "" || later[0] == ','
  }

  lemma LaterAtComma(ps: seq<Printed>)
    ensures AtComma(Later(ps))
  {
  }

  lemma BareStarts(blanks: string, v: string, later: string)
    requires Blanks(blanks) && Bare(v)
    ensures SkipBlanks(blanks + (v + later)) == v + later
  {
    var s := blanks + (v + later);
    assert s[|blanks|] == v[0] && forall j :: 0 <= j < |blanks| ==> s[j] == blanks[j];
    FindIs(s, NotBlank, |blanks|);
  }

  lemma BareEnds(v: string, after: string, later: string)
    requires Bare(v) && Blanks(after) && AtComma(later)
    ensures CommaAt(v + after + later) == |v + after|
  {
    var s := v + after + later;
    assert later != "" ==> s[|v + after|] == later[0];
    forall j | 0 <= j < |v + after| ensures !IsComma(s[j]) {
      assert s[j] == if j < |v| then v[j] else after[j - |v|];
    }
    FindIs(s, IsComma, |v + after|);
  }

  /** A value without quotes ends at the comma; the blanks before it are dropped. */
  lemma ValueReadsBare(blanks: string, v: string, after: string, later: string)
    requires Blanks(blanks) && Bare(v) && Blanks(after) && AtComma(later)
    ensures Value(blanks + (v + after + later)) == Reading(v, later)
  {
    var s := v + after + later;
    assert v + (after + later) == s;
    BareStarts(blanks, v, after + later);
    BareEnds(v, after, later);
    assert s[..|v + after|] == "" + v + after && s[|v + after|..] == later;
    TrimDrops("", v, after);
    ValueUnfolds(blanks + s, s, "" + v + after, v, later);
  }

  lemma ValueUnfolds(whole: string, s: string, head: string, v: string, later: string)
    requires SkipBlanks(whole) == s != "" && s[0] != '"' && CommaAt(s) <= |s|
    requires s[..CommaAt(s)] == head && TrimSpace(head) == v && s[CommaAt(s)..] == later
    ensures Value(whole) == Reading(v, later)
  {
  }

  /** What the value's reader leaves: quoted values leave the blanks after them. */
  function Left(p: Printed, after: string, later: string): string {
    if p.Param? && !p.style.Plain? then after + later else later
  }

  lemma TailReads(p: Printed, after: string, later: string)
    requires Printable(p) && p.Param? && Blanks(after) && AtComma(later)
    ensures Value(Tail(p.right, p.value, p.style, after, later)) == Reading(p.value, Left(p, after, later))
  {
    if !p.style.Plain? {
      ValueReadsQuoted(p.right, p.value, p.style.Escapes?, after + later);
    } else {
      ValueReadsBare(p.right, p.value, after, later);
    }
  }

  lemma SkipsSeparators(separators: string, body: string)
    requires body != "" && !IsSeparator(body[0])
    requires forall j :: 0 <= j < |separators| ==> IsSeparator(separators[j])
    ensures SkipSeparators(separators + body) == body
  {
    var s := separators + body;
    assert s[|separators|] == body[0] && forall j :: 0 <= j < |separators| ==> s[j] == separators[j];
    FindIs(s, NotSeparator, |separators|);
  }

  lemma TurnReadsParam(whole: string, s: string, head: string, key: string, tail: string, value: string, rest: string)
    requires SkipSeparators(whole) == s && Stands(s, head, tail) && TrimSpace(head) == key && |key| <= |head|
    requires key != "" && Value(tail) == Reading(value, rest)
    ensures Next(whole) == Item.Param(Lower(key), value, rest)
  {
    NextUnfolds(whole, s, |head|, key);
    ParamUnfolds(s, |head|, key, tail, value, rest);
  }

  lemma TurnSkipsWord(whole: string, s: string, head: string, key: string, later: string)
    requires SkipSeparators(whole) == s == head + later && KeyEnd(s) == |head| && TrimSpace(head) == key
    requires key != "" && |key| <= |head| && AtComma(later)
    ensures Next(whole) == Skipped(later)
  {
    assert s[..|head|] == head && s[|head|..] == later;
    assert later != "" ==> s[|head|] == later[0];
    NextUnfolds(whole, s, |head|, key);
  }

  lemma BodyStarts(p: Printed, after: string, later: string)
    requires Printable(p)
    ensures var s := Body(p, after, later); s != "" && s[0] == p.key[0] && !IsSeparator(s[0]) && !IsSpace(s[0])
  {
  }

  ghost predicate Separators(s: string) {
    forall j :: 0 <= j < |s| ==> IsSeparator(s[j])
  }

  /** One turn of the scanner reads one entry as it was printed. */
  lemma ReadsParam(separators: string, p: Printed, after: string, later: string)
    requires Printable(p) && p.Param? && Separators(separators) && Blanks(after) && AtComma(later)
    ensures Next(separators + Body(p, after, later)) == Item.Param(Lower(p.key), p.value, Left(p, after, later))
  {
    var s, tail := Body(p, after, later), Tail(p.right, p.value, p.style, after, later);
    BodyStarts(p, after, later);
    SkipsSeparators(separators, s);
    HeadHoldsNoEnd(p.key, p.left);
    KeyBefore(p.key + p.left, tail);
    TrimsKey(p.key, p.left);
    TailReads(p, after, later);
    TurnReadsParam(separators + s, s, p.key + p.left, p.key, tail, p.value, Left(p, after, later));
  }

  lemma WordEnds(head: string, later: string)
    requires (forall j :: 0 <= j < |head| ==> !EndsKey(head[j])) && AtComma(later)
    ensures KeyEnd(head + later) == |head|
  {
    assert later != "" ==> (head + later)[|head|] == later[0];
    FindIs(head + later, EndsKey, |head|);
  }

  lemma SkipsWord(separators: string, p: Printed, after: string, later: string)
    requires Printable(p) && p.Word? && Separators(separators) && Blanks(after) && AtComma(later)
    ensures Next(separators + Body(p, after, later)) == Skipped(later)
  {
    var s := Body(p, after, later);
    BodyStarts(p, after, later);
    SkipsSeparators(separators, s);
    HeadHoldsNoEnd(p.key, after);
    WordEnds(p.key + after, later);
    TrimsKey(p.key, after);
    TurnSkipsWord(separators + s, s, p.key + after, p.key, later);
  }

  lemma TrimsKey(key: string, blanks: string)
    requires key != "" && KeyChars(key) && Blanks(blanks)
    ensures TrimSpace(key + blanks) == key
  {
    TrimDrops("", key, blanks);
    assert "" + key + blanks == key + blanks;
  }

  /** The scanner reads a printed list, whatever separators stand before it. */
  lemma {:induction false} ReadsList(separators: string, ps: seq<Printed>, read: map<string, string>)
    requires ps != [] && AllPrintable(ps) && Separators(separators)
    ensures Params(separators + List(ps), read) == Meaning(ps, read)
    decreases |ps|, 0
  {
    var p, more := ps[0], ps[1..];
    var after, later := After(p, more), Later(more);
    LaterAtComma(more);
    if p.Param? {
      ReadsParam(separators, p, after, later);
    } else {
      SkipsWord(separators, p, after, later);
    }
    ReadsOn(p, more, if p.Param? then read[Lower(p.key) := p.value] else read);
  }

  lemma {:induction false} ReadsOn(p: Printed, ps: seq<Printed>, read: map<string, string>)
    requires Printable(p) && AllPrintable(ps)
    ensures Params(Left(p, After(p, ps), Later(ps)), read) == Meaning(ps, read)
    decreases |ps|, 1
  {
    if ps == [] {
      assert Left(p, After(p, ps), Later(ps)) == "";
    } else {
      var separators := (if p.Param? && !p.style.Plain? then p.after else "") + "," + ps[0].before;
      assert Left(p, After(p, ps), Later(ps)) == separators + List(ps);
      ReadsList(separators, ps, read);
    }
  }

  lemma ReadsAll(ps: seq<Printed>)
    requires AllPrintable(ps)
    ensures Params(List(ps), map[]) == Meaning(ps, map[])
  {
    if ps != [] {
      ReadsList("", ps, map[]);
      assert "" + List(ps) == List(ps);
    }
  }

  /** A text that ends with `later`, or without it in something else than white space. */
  predicate EndsWell(s: string, after: string, later: string) {
    && s != ""
    && (later != "" ==> s[|s| - 1] == later[|later| - 1])
    && (later == after == "" ==> !IsSpace(s[|s| - 1]))
  }

  lemma JoinEnds(head: string, after: string, later: string)
    requires head != "" && !IsSpace(head[|head| - 1])
    ensures EndsWell(head + after + later, after, later)
  {
    var s := head + after + later;
    if later != "" {
      assert s[|s| - 1] == later[|later| - 1];
    } else if after == "" {
      assert s == head;
    }
  }

  lemma BodyEnds(p: Printed, after: string, later: string)
    requires Printable(p)
    ensures EndsWell(Body(p, after, later), after, later)
  {
    match p
    case Param(key, value, style, _, left, right, _) =>
      var shown := if style.Plain? then value else "\"" + (Escape(value, style.Escapes?) + "\"");
      var head := key + left + ("=" + (right + shown));
      assert Body(p, after, later) == head + after + later;
      JoinEnds(head, after, later);
    case Word(key, _, _) =>
      JoinEnds(key, after, later);
  }

  /** A printed list begins and ends with something else than white space. */
  lemma {:induction false} ListEnds(ps: seq<Printed>)
    requires ps != [] && AllPrintable(ps)
    ensures List(ps) != "" && !IsSpace(List(ps)[0]) && !IsSpace(List(ps)[|List(ps)| - 1])
    decreases |ps|
  {
    var after, later := After(ps[0], ps[1..]), Later(ps[1..]);
    BodyStarts(ps[0], after, later);
    BodyEnds(ps[0], after, later);
    if |ps| > 1 {
      ListEnds(ps[1..]);
      assert later[|later| - 1] == List(ps[1..])[|List(ps[1..])| - 1];
    }
  }

  lemma SchemeEnds(scheme: string)
    requires Lower(scheme) == SCHEME
    ensures |scheme| == |SCHEME| && !IsSpace(scheme[0]) && !IsSpace(scheme[|scheme| - 1])
  {
    assert LowerChar(scheme[0]) == Lower(scheme)[0] == 'b';
    assert LowerChar(scheme[|scheme| - 1]) == Lower(scheme)[|scheme| - 1] == 'r';
  }

  /** Trimming a header and cutting off its first word leaves the list. */
  lemma CutScheme(scheme: string, blanks: string, list: string)
    requires |scheme| == |SCHEME| && !IsSpace(scheme[0]) && !IsSpace(scheme[|scheme| - 1]) && Blanks(blanks)
    requires list == "" || (!IsSpace(list[0]) && !IsSpace(list[|list| - 1]))
    ensures var s := TrimSpace(scheme + blanks + list);
      |s| >= |SCHEME| && s[..|SCHEME|] == scheme && TrimSpace(s[|SCHEME|..]) == list
  {
    var header := scheme + blanks + list;
    if list == "" {
      TrimDrops("", scheme, blanks);
      assert header == "" + scheme + blanks;
      assert scheme[|SCHEME|..] == "";
    } else {
      assert header[0] == scheme[0] && header[|header| - 1] == list[|list| - 1];
      TrimDrops("", header, "");
      assert "" + header + "" == header;
      TrimDrops(blanks, list, "");
      assert header[|SCHEME|..] == blanks + list + "" && header[..|SCHEME|] == scheme;
    }
  }

  /**
   For any parameters with token keys in any case, quoted or bare values and any blanks around the separators, with
   words without values between them and in any spelling of the scheme, parsing the printed challenge yields exactly
   those parameters.
   */
  lemma RoundTrip(scheme: string, blanks: string, ps: seq<Printed>)
    requires Lower(scheme) == SCHEME && Blanks(blanks) && AllPrintable(ps)
    ensures Challenged(scheme + blanks + List(ps)) == Some(Meaning(ps, map[]))
  {
    if ps != [] {
      ListEnds(ps);
    }
    SchemeEnds(scheme);
    CutScheme(scheme, blanks, List(ps));
    ReadsAll(ps);
  }

  /** A quoted-string that is never closed runs to the end. */
  lemma {:induction false} Unclosed(v: string, every: bool)
    ensures Quoted(Escape(v, every)) == Reading(v, "")
  {
    if v != "" {
      ReadsEscaped(v, every, "");
      Unclosed(v[1..], every);
      assert Escape(v, every) + "" == Escape(v, every) && Escape(v[1..], every) + "" == Escape(v[1..], every);
      assert [v[0]] + v[1..] == v;
    }
  }

  /** Nothing but blanks after an equals sign is an empty value. */
  lemma EmptyValue(blanks: string, later: string)
    requires Blanks(blanks) && AtComma(later)
    ensures Value(blanks + later) == Reading("", later)
  {
    var s := blanks + later;
    assert later != "" ==> s[|blanks|] == later[0];
    FindIs(s, NotBlank, |blanks|);
    assert s[|blanks|..] == later;
    FindIs(later, IsComma, 0);
    assert later[..0] == "" && later[0..] == later;
  }

  /** Lower case differs from the key only in its capital letters. */
  lemma LowerIs(key: string, j: nat)
    requires j < |key|
    ensures |Lower(key)| == |key| && !('A' <= Lower(key)[j] <= 'Z')
    ensures !('A' <= key[j] <= 'Z') ==> Lower(key)[j] == key[j]
    ensures 'A' <= key[j] <= 'Z' ==> Lower(key)[j] - 'a' == key[j] - 'A'
  {
  }

  /** An equals sign without a key is passed over, and reading goes on right after it. */
  lemma EmptyKey(separators: string, s: string, read: map<string, string>)
    requires Separators(separators)
    ensures Params(separators + ("=" + s), read) == Params(s, read)
  {
    var r := "=" + s;
    SkipsSeparators(separators, r);
    FindIs(r, EndsKey, 0);
    assert r[..0] == "" && r[1..] == s;
    NextUnfolds(separators + r, r, 0, "");
  }

  /** A header in another scheme is no challenge. */
  lemma OtherScheme(scheme: string, blanks: string, list: string)
    requires |scheme| == |SCHEME| && !IsSpace(scheme[0]) && !IsSpace(scheme[|scheme| - 1]) && Blanks(blanks)
    requires list == "" || (!IsSpace(list[0]) && !IsSpace(list[|list| - 1]))
    ensures Challenged(scheme + blanks + list).Some? <==> Lower(scheme) == SCHEME
  {
    CutScheme(scheme, blanks, list);
  }

  // ---------------------------------------------------------------- maps

  /** The printed list mentions every key of the map once, with its value; words may stand anywhere. */
  ghost predicate Prints(ps: seq<Printed>, m: map<string, string>) {
    && (forall i, j :: 0 <= i < j < |ps| && ps[i].Param? && ps[j].Param? ==> Lower(ps[i].key) != Lower(ps[j].key))
    && (forall i :: 0 <= i < |ps| && ps[i].Param? ==> Lower(ps[i].key) in m && m[Lower(ps[i].key)] == ps[i].value)
    && (forall k :: k in m ==> Mentions(ps, k))
  }

  ghost predicate Mentions(ps: seq<Printed>, k: string) {
    exists i :: 0 <= i < |ps| && ps[i].Param? && Lower(ps[i].key) == k
  }

  lemma MentionsTail(ps: seq<Printed>, k: string)
    requires ps != []
    ensures Mentions(ps, k) <==> (ps[0].Param? && Lower(ps[0].key) == k) || Mentions(ps[1..], k)
  {
    if Mentions(ps, k) {
      var i :| 0 <= i < |ps| && ps[i].Param? && Lower(ps[i].key) == k;
      assert i > 0 ==> Lower(ps[1..][i - 1].key) == k;
    }
  }

  lemma {:induction false} MeaningAt(ps: seq<Printed>, read: map<string, string>, k: string)
    ensures k in Meaning(ps, read) <==> k in read || Mentions(ps, k)
    ensures !Mentions(ps, k) && k in read ==> Meaning(ps, read)[k] == read[k]
    decreases |ps|
  {
    if ps != [] {
      MeaningAt(ps[1..], if ps[0].Param? then read[Lower(ps[0].key) := ps[0].value] else read, k);
      MentionsTail(ps, k);
    }
  }

  lemma {:induction false} MeaningValue(ps: seq<Printed>, read: map<string, string>, i: nat)
    requires i < |ps| && ps[i].Param?
    requires forall a, b :: 0 <= a < b < |ps| && ps[a].Param? && ps[b].Param? ==> Lower(ps[a].key) != Lower(ps[b].key)
    ensures Lower(ps[i].key) in Meaning(ps, read) && Meaning(ps, read)[Lower(ps[i].key)] == ps[i].value
    decreases |ps|
  {
    var next := if ps[0].Param? then read[Lower(ps[0].key) := ps[0].value] else read;
    if i == 0 {
      MeaningAt(ps[1..], next, Lower(ps[0].key));
    } else {
      MeaningValue(ps[1..], next, i - 1);
    }
  }

  lemma MeaningIs(ps: seq<Printed>, m: map<string, string>)
    requires Prints(ps, m)
    ensures Meaning(ps, map[]) == m
  {
    var read := Meaning(ps, map[]);
    forall k ensures k in read <==> k in m {
      MeaningAt(ps, map[], k);
    }
    forall k | k in m ensures read[k] == m[k] {
      assert Mentions(ps, k);
      var i :| 0 <= i < |ps| && ps[i].Param? && Lower(ps[i].key) == k;
      MeaningValue(ps, map[], i);
    }
  }

  /** So any map is recovered from any printing of it. */
  lemma MapRoundTrip(scheme: string, blanks: string, ps: seq<Printed>, m: map<string, string>)
    requires Lower(scheme) == SCHEME && Blanks(blanks) && AllPrintable(ps) && Prints(ps, m)
    ensures Challenged(scheme + blanks + List(ps)) == Some(m)
  {
    RoundTrip(scheme, blanks, ps);
    MeaningIs(ps, m);
  }
}
