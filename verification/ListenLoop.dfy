/**
 The reconnect loop of internal/httpmcp/client.go (doListen, sleepBackoff). What each GET meets is a
 script of connections; times are nanoseconds.
 */
module ListenLoop {
  import opened Prelude
  import opened Chunking
  import opened SseLines
  import opened SseParser
  import SseRoundTrip

  // ---------------------------------------------------------------- backoff

  const BACKOFF_MIN: nat := 1_000_000_000
  const BACKOFF_MAX: nat := 30_000_000_000

  function NextBackoff(backoff: nat): nat {
    if backoff == 0 then BACKOFF_MIN else if 2 * backoff > BACKOFF_MAX then BACKOFF_MAX else 2 * backoff
  }

  /** `random % n` stands for rand.Int63n(n), which panics unless n is positive. */
  function Wait(backoff: nat, random: nat): nat
    requires backoff != 1
  {
    if backoff == 0 then 0 else backoff - backoff / 4 + random % (backoff / 2)
  }

  method SleepBackoff(backoff: nat, random: nat) returns (next: nat, wait: nat)
    requires backoff != 1
    ensures next == NextBackoff(backoff) && wait == Wait(backoff, random)
  {
    if backoff == 0 {
      return BACKOFF_MIN, 0;
    }
    var jitter := random % (backoff / 2);
    wait := backoff - backoff / 4 + jitter;
    next := backoff * 2;
    if next > BACKOFF_MAX {
      next := BACKOFF_MAX;
    }
  }

  function Pow2(n: nat): nat {
    if n == 0 then 1 else 2 * Pow2(n - 1)
  }

  /** The stored value after n calls since it was last zero. */
  function Stored(n: nat): nat {
    if n == 0 then 0 else if Pow2(n - 1) < 30 then Pow2(n - 1) * BACKOFF_MIN else BACKOFF_MAX
  }

  lemma {:induction false} PowGrows(n: nat)
    requires n >= 5
    ensures Pow2(n) >= 32
  {
    if n == 5 {
      assert Pow2(1) == 2 && Pow2(2) == 4 && Pow2(3) == 8 && Pow2(4) == 16;
    } else {
      PowGrows(n - 1);
    }
  }

  lemma StoredStep(n: nat)
    ensures NextBackoff(Stored(n)) == Stored(n + 1)
  {
    if n > 5 {
      PowGrows(n - 1);
    } else {
      assert Pow2(1) == 2 && Pow2(2) == 4 && Pow2(3) == 8 && Pow2(4) == 16 && Pow2(5) == 32;
    }
  }

  lemma {:induction false} PowPositive(n: nat)
    ensures Pow2(n) >= 1
  {
    if n > 0 {
      PowPositive(n - 1);
    }
  }

  /**
   The n-th call since the value was last zero: the first waits nothing, a later one waits within a quarter
   of min(2^(n-2), 30) seconds, and the argument of rand.Int63n is positive.
   */
  lemma WaitBounds(n: nat, random: nat)
    requires n >= 1
    ensures Stored(n - 1) != 1
    ensures n == 1 ==> Wait(Stored(n - 1), random) == 0
    ensures n >= 2 ==>
      var b := (if Pow2(n - 2) < 30 then Pow2(n - 2) else 30) * 1_000_000_000;
      3 * b <= 4 * Wait(Stored(n - 1), random) < 5 * b && Stored(n - 1) / 2 > 0
  {
    if n >= 2 {
      var b := Stored(n - 1);
      PowPositive(n - 2);
      QuarterExact(b, if Pow2(n - 2) < 30 then Pow2(n - 2) else 30, random);
    }
  }

  lemma QuarterExact(b: nat, seconds: nat, random: nat)
    requires b == seconds * BACKOFF_MIN && seconds >= 1
    ensures 3 * b <= 4 * Wait(b, random) < 5 * b && b / 2 > 0
  {
    assert b == 4 * (seconds * 250_000_000);
    assert b / 4 == seconds * 250_000_000;
    assert 0 <= random % (b / 2) < b / 2;
  }

  /** And every whole number of nanoseconds in that interval is some call's wait. */
  lemma WaitSpreads(b: nat, seconds: nat, wait: nat)
    requires b == seconds * BACKOFF_MIN && seconds >= 1 && 3 * b <= 4 * wait < 5 * b
    ensures exists random: nat :: Wait(b, random) == wait
  {
    assert b == 4 * (seconds * 250_000_000);
    var random := wait - (b - b / 4);
    assert 0 <= random < b / 2;
    SmallRemainder(random, b / 2);
    assert Wait(b, random) == wait;
  }

  lemma SmallRemainder(x: nat, n: nat)
    requires x < n
    ensures x % n == x
  {
  }

  // ---------------------------------------------------------------- connections

  /** What one turn of the loop meets. */
  datatype Connection =
    | Cancelled                                 // ctx.Err() at the top of the loop
    | NoHeaders                                 // setRequestHeaders failed
    | Unreachable(random: nat)                  // Do failed
    | NotAllowed                                // 405
    | Unauthorized(renewed: bool)               // 401, and what HandleUnauthorized returned
    | NotFound                                  // 404
    | WrongType                                 // 200 without text/event-stream
    | OtherStatus
    | Stream(chunks: seq<string>, eof: bool)    // 200; the stream ended cleanly or with a read error

  datatype Deed<+T> =
    | Connect(lastEventId: Option<string>)
    | Parsed(act: Act<T>)
    | Report                                    // an error handed to the channel
    | Slept(backoff: nat, wait: nat)

  datatype Loop = Loop(lastId: string, backoff: nat, retried401: bool)

  const START := Loop("", 0, false)

  function HeaderOf(id: string): Option<string> {
    if id != "" then Some(id) else None
  }

  function LastId(events: seq<Event>, before: string): string {
    if events == [] then before
    else if events[|events| - 1].id.Some? then events[|events| - 1].id.value
    else LastId(events[..|events| - 1], before)
  }

  /** The events a connection dispatches. */
  function Dispatched(c: Connection): seq<Event> {
    if c.Stream? then Events(Blocks(Lines(Concat(c.chunks)), c.eof), None) else []
  }

  function Deeds<T>(acts: seq<Act<T>>): seq<Deed<T>> {
    seq(|acts|, i requires 0 <= i < |acts| => Parsed(acts[i]))
  }

  predicate Goes(st: Loop, c: Connection) {
    c.Unreachable? || c.Stream? || (c.Unauthorized? && !st.retried401 && c.renewed)
  }

  /** What one turn does. */
  function Turn<T>(st: Loop, c: Connection, decode: string -> seq<T>): seq<Deed<T>>
    requires st.backoff != 1
  {
    match c
    case Cancelled => []
    case NoHeaders => [Report]
    case Unreachable(r) => [Connect(HeaderOf(st.lastId)), Slept(st.backoff, Wait(st.backoff, r))]
    case NotAllowed => [Connect(HeaderOf(st.lastId))]
    case Unauthorized(renewed) =>
      if st.retried401 || !renewed then [Connect(HeaderOf(st.lastId)), Report] else [Connect(HeaderOf(st.lastId))]
    case Stream(_, _) => [Connect(HeaderOf(st.lastId))] + Deeds(Acts(Dispatched(c), decode)) + [Slept(0, 0)]
    case _ => [Connect(HeaderOf(st.lastId)), Report]
  }

  /** The loop variables after a turn that goes on. */
  function After(st: Loop, c: Connection): Loop {
    match c
    case Unreachable(_) => st.(backoff := NextBackoff(st.backoff))
    case Unauthorized(_) => st.(retried401 := true)
    case Stream(_, _) => Loop(LastId(Dispatched(c), st.lastId), NextBackoff(0), false)
    case _ => st
  }

  /** The whole run. */
  function Listen<T>(st: Loop, conns: seq<Connection>, decode: string -> seq<T>): seq<Deed<T>>
    requires st.backoff != 1
    decreases |conns|
  {
    if conns == [] then []
    else if Goes(st, conns[0]) then Turn(st, conns[0], decode) + Listen(After(st, conns[0]), conns[1..], decode)
    else Turn(st, conns[0], decode)
  }

  function LastCommit<T>(acts: seq<Act<T>>, before: string): string {
    if acts == [] then before
    else if acts[|acts| - 1].Commit? then acts[|acts| - 1].id
    else LastCommit(acts[..|acts| - 1], before)
  }

  lemma {:induction false} CommitAppend<T>(a: seq<Act<T>>, b: seq<Act<T>>, before: string)
    ensures LastCommit(a + b, before) == LastCommit(b, LastCommit(a, before))
  {
    if b == [] {
      assert a + b == a;
    } else {
      var n := |b| - 1;
      assert (a + b)[..|a + b| - 1] == a + b[..n];
      CommitAppend(a, b[..n], before);
    }
  }

  lemma {:induction false} DeliveriesCommitNothing<T>(items: seq<T>, before: string)
    ensures LastCommit(Delivered(items), before) == before
  {
    if items != [] {
      assert Delivered(items)[..|items| - 1] == Delivered(items[..|items| - 1]);
      DeliveriesCommitNothing(items[..|items| - 1], before);
    }
  }

  /** The id the setLastID callback leaves behind is that of the last dispatched event with an id. */
  lemma {:induction false} CallbackKeepsLastId<T>(events: seq<Event>, decode: string -> seq<T>, before: string)
    ensures LastCommit(Acts(events, decode), before) == LastId(events, before)
  {
    if events != [] {
      var n := |events| - 1;
      var e := events[n];
      assert events == events[..n] + [e];
      ActsAppend(events[..n], [e], decode);
      assert Acts([e], decode) == ActsOf(e, decode);
      CallbackKeepsLastId(events[..n], decode, before);
      var mid := LastCommit(Acts(events[..n], decode), before);
      var tail := if e.id.Some? then [Commit(e.id.value)] else [];
      CommitAppend(Acts(events[..n], decode), ActsOf(e, decode), before);
      CommitAppend(Delivered(decode(e.payload)), tail, mid);
      DeliveriesCommitNothing(decode(e.payload), mid);
    }
  }

  /** One turn of the loop, after the check for cancellation. */
  method TakeTurn<T>(lastEventId: string, backoff: nat, retried401: bool, c: Connection, decode: string -> seq<T>)
    returns (deeds: seq<Deed<T>>, goesOn: bool, lastEventId': string, backoff': nat, retried401': bool)
    requires backoff != 1 && !c.Cancelled?
    ensures var st := Loop(lastEventId, backoff, retried401);
      deeds == Turn(st, c, decode) && goesOn == Goes(st, c) &&
      (goesOn ==> Loop(lastEventId', backoff', retried401') == After(st, c))
  {
    lastEventId', backoff', retried401', goesOn := lastEventId, backoff, retried401, false;
    if c.NoHeaders? {
      deeds := [Report];
      return;
    }
    deeds := [Connect(if lastEventId != "" then Some(lastEventId) else None)];
    match c {
      case Unreachable(random) =>
        var wait;
        backoff', wait := SleepBackoff(backoff, random);
        deeds := deeds + [Slept(backoff, wait)];
        goesOn := true;
      case NotAllowed =>
      case Unauthorized(renewed) =>
        if retried401 || !renewed {
          deeds := deeds + [Report];
        } else {
          retried401', goesOn := true, true;
        }
      case Stream(chunks, eof) =>
        retried401' := false;
        var acts := DecodeStream(chunks, eof, decode);
        CallbackKeepsLastId(Dispatched(c), decode, lastEventId);
        lastEventId' := CommitAll(acts, lastEventId);
        var wait;
        backoff', wait := SleepBackoff(0, 0);
        deeds := deeds + Deeds(acts) + [Slept(0, wait)];
        goesOn := true;
      case _ =>
        deeds := deeds + [Report];
    }
  }

  /** The first connection's turn, then - if the loop goes on - the rest of the run. */
  lemma ListenSplit<T>(st: Loop, conns: seq<Connection>, decode: string -> seq<T>)
    requires st.backoff != 1 && conns != []
    ensures After(st, conns[0]).backoff != 1
    ensures Listen(st, conns, decode) == Turn(st, conns[0], decode) +
      (if Goes(st, conns[0]) then Listen(After(st, conns[0]), conns[1..], decode) else [])
  {
  }

  /** After i turns: what has been done and what the rest of the run will do make up the whole. */
  ghost predicate Midway<T>(trace: seq<Deed<T>>, st: Loop, conns: seq<Connection>, i: nat, decode: string -> seq<T>) {
    st.backoff != 1 && i <= |conns| && trace + Listen(st, conns[i..], decode) == Listen(START, conns, decode)
  }

  lemma MidwayStep<T>(trace: seq<Deed<T>>, st: Loop, conns: seq<Connection>, i: nat, decode: string -> seq<T>)
    requires Midway(trace, st, conns, i, decode) && i < |conns|
    ensures var next := trace + Turn(st, conns[i], decode);
      if Goes(st, conns[i]) then Midway(next, After(st, conns[i]), conns, i + 1, decode)
      else next == Listen(START, conns, decode)
  {
    ListenSplit(st, conns[i..], decode);
    assert conns[i..][0] == conns[i] && conns[i..][1..] == conns[i + 1..];
  }

  lemma MidwayEnd<T>(trace: seq<Deed<T>>, st: Loop, conns: seq<Connection>, decode: string -> seq<T>)
    requires Midway(trace, st, conns, |conns|, decode)
    ensures trace == Listen(START, conns, decode)
  {
    assert conns[|conns|..] == [];
  }

  lemma MidwayStart<T>(conns: seq<Connection>, decode: string -> seq<T>)
    ensures Midway([], START, conns, 0, decode)
  {
    assert conns[0..] == conns;
  }

  /** doListen: the loop over connections, with the id committed by the parser's callback. */
  method DoListen<T>(conns: seq<Connection>, decode: string -> seq<T>) returns (trace: seq<Deed<T>>)
    ensures trace == Listen(START, conns, decode)
  {
    var lastEventId, backoff, retried401 := "", 0, false;
    trace := [];
    MidwayStart(conns, decode);
    for i := 0 to |conns|
      invariant Midway(trace, Loop(lastEventId, backoff, retried401), conns, i, decode)
    {
      MidwayStep(trace, Loop(lastEventId, backoff, retried401), conns, i, decode);
      if conns[i].Cancelled? {
        return;
      }
      var deeds, goesOn;
      deeds, goesOn, lastEventId, backoff, retried401 := TakeTurn(lastEventId, backoff, retried401, conns[i], decode);
      trace := trace + deeds;
      if !goesOn {
        return;
      }
    }
    MidwayEnd(trace, Loop(lastEventId, backoff, retried401), conns, decode);
  }

  /** The callback setLastID run for every commit. */
  method CommitAll<T>(acts: seq<Act<T>>, before: string) returns (last: string)
    ensures last == LastCommit(acts, before)
  {
    last := before;
    for i := 0 to |acts|
      invariant last == LastCommit(acts[..i], before)
    {
      assert acts[..i + 1][..i] == acts[..i];
      if acts[i].Commit? {
        last := acts[i].id;
      }
    }
    assert acts[..|acts|] == acts;
  }

  // ---------------------------------------------------------------- resumption over a whole run

  /** How many GETs the trace contains. */
  function Connects<T>(trace: seq<Deed<T>>): nat {
    if trace == [] then 0 else Connects(trace[1..]) + if trace[0].Connect? then 1 else 0
  }

  /** The deliveries and commits in the trace. */
  function Streamed<T>(trace: seq<Deed<T>>): seq<Act<T>> {
    if trace == [] then [] else (if trace[0].Parsed? then [trace[0].act] else []) + Streamed(trace[1..])
  }

  function AllEvents(conns: seq<Connection>): seq<Event> {
    if conns == [] then [] else Dispatched(conns[0]) + AllEvents(conns[1..])
  }

  lemma {:induction false} TraceAppend<T>(a: seq<Deed<T>>, b: seq<Deed<T>>)
    ensures Connects(a + b) == Connects(a) + Connects(b) && Streamed(a + b) == Streamed(a) + Streamed(b)
  {
    if a == [] {
      assert a + b == b;
    } else {
      TraceAppend(a[1..], b);
      assert (a + b)[1..] == a[1..] + b;
      Assoc(if a[0].Parsed? then [a[0].act] else [], Streamed(a[1..]), Streamed(b));
    }
  }

  lemma {:induction false} DeedsStream<T>(acts: seq<Act<T>>)
    ensures Connects(Deeds(acts)) == 0 && Streamed(Deeds(acts)) == acts
  {
    if acts != [] {
      assert Deeds(acts)[1..] == Deeds(acts[1..]);
      DeedsStream(acts[1..]);
    }
  }

  lemma {:induction false} LastIdAppend(a: seq<Event>, b: seq<Event>, before: string)
    ensures LastId(a + b, before) == LastId(b, LastId(a, before))
  {
    if b == [] {
      assert a + b == a;
    } else {
      var n := |b| - 1;
      assert (a + b)[..|a + b| - 1] == a + b[..n];
      LastIdAppend(a, b[..n], before);
    }
  }

  lemma StreamCounts<T>(id: Option<string>, acts: seq<Act<T>>)
    ensures var t: seq<Deed<T>> := [Connect(id)] + Deeds(acts) + [Slept(0, 0)]; Connects(t) == 1 && Streamed(t) == acts
  {
    var head: seq<Deed<T>>, tail: seq<Deed<T>> := [Connect(id)], [Slept(0, 0)];
    DeedsStream(acts);
    TraceAppend(head, Deeds(acts));
    TraceAppend(head + Deeds(acts), tail);
    assert head[1..] == [] && tail[1..] == [];
    assert Connects(head) == 1 && Streamed(head) == [] && Connects(tail) == 0 && Streamed(tail) == [];
  }

  /** A turn connects once, first, with the current id; it streams what the connection dispatched. */
  lemma TurnShape<T>(st: Loop, c: Connection, decode: string -> seq<T>)
    requires st.backoff != 1
    ensures var t := Turn(st, c, decode);
      && (forall p :: 0 < p < |t| ==> !t[p].Connect?)
      && (t != [] && t[0].Connect? ==> t[0].lastEventId == HeaderOf(st.lastId))
      && (Goes(st, c) ==> Connects(t) == 1 && Streamed(t) == Acts(Dispatched(c), decode))
      && (Goes(st, c) ==> After(st, c).lastId == LastId(Dispatched(c), st.lastId) && After(st, c).backoff != 1)
  {
    if c.Stream? {
      StreamCounts(HeaderOf(st.lastId), Acts(Dispatched(c), decode));
    } else if Goes(st, c) {
      var head: seq<Deed<T>> := [Connect(HeaderOf(st.lastId))];
      var tail: seq<Deed<T>> := if c.Unreachable? then [Slept(st.backoff, Wait(st.backoff, c.random))] else [];
      assert Turn(st, c, decode) == head + tail;
      TraceAppend(head, tail);
      assert head[1..] == [] && (tail != [] ==> tail[1..] == []);
      assert Connects(head) == 1 && Streamed(head) == [] && Connects(tail) == 0 && Streamed(tail) == [];
    }
  }

  /**
   Every GET of a run carries the id of the latest event with an id dispatched on any earlier connection, and by
   then the decoded messages of exactly those events, in order, have been delivered and their ids committed.
   */
  lemma {:induction false} ResumePoint<T>(st: Loop, conns: seq<Connection>, decode: string -> seq<T>, p: nat)
    requires st.backoff != 1 && p < |Listen(st, conns, decode)| && Listen(st, conns, decode)[p].Connect?
    ensures var trace := Listen(st, conns, decode);
      var j := Connects(trace[..p]);
      j < |conns| && Streamed(trace[..p]) == Acts(AllEvents(conns[..j]), decode) &&
      trace[p].lastEventId == HeaderOf(LastId(AllEvents(conns[..j]), st.lastId))
    decreases |conns|
  {
    var trace, c := Listen(st, conns, decode), conns[0];
    var t := Turn(st, c, decode);
    TurnShape(st, c, decode);
    if p == 0 {
      assert trace[..0] == [] && conns[..0] == [];
    } else {
      assert p >= |t|;
      var st', rest, q := After(st, c), conns[1..], p - |t|;
      var later := Listen(st', rest, decode);
      assert trace == t + later && trace[p] == later[q];
      ResumePoint(st', rest, decode, q);
      var k := Connects(later[..q]);
      assert trace[..p] == t + later[..q];
      TraceAppend(t, later[..q]);
      assert conns[..k + 1][1..] == rest[..k];
      ActsAppend(Dispatched(c), AllEvents(rest[..k]), decode);
      LastIdAppend(Dispatched(c), AllEvents(rest[..k]), st.lastId);
    }
  }

  /** If the p-th deed of the trace is a GET, it resumes after everything delivered so far. */
  ghost predicate ResumesAt<T>(trace: seq<Deed<T>>, conns: seq<Connection>, decode: string -> seq<T>, p: nat)
    requires p < |trace|
  {
    trace[p].Connect? ==>
      var j := Connects(trace[..p]);
      j < |conns| && Streamed(trace[..p]) == Acts(AllEvents(conns[..j]), decode) &&
      var id := LastId(AllEvents(conns[..j]), "");
      trace[p].lastEventId == if id != "" then Some(id) else None
  }

  /** The id of the last event that has one. */
  lemma {:induction false} LatestIdWins(events: seq<Event>, before: string, j: nat)
    requires j < |events| && events[j].id.Some? && forall k :: j < k < |events| ==> events[k].id.None?
    ensures LastId(events, before) == events[j].id.value
  {
    if j < |events| - 1 { LatestIdWins(events[..|events| - 1], before, j); }
  }

  /** Resumption over a whole run of doListen. */
  lemma Resumes<T>(conns: seq<Connection>, decode: string -> seq<T>, trace: seq<Deed<T>>, p: nat)
    requires trace == Listen(START, conns, decode) && p < |trace|
    ensures ResumesAt(trace, conns, decode, p)
  {
    if trace[p].Connect? {
      ResumePoint(START, conns, decode, p);
    }
  }

  /** A finished first block stands for its own event. */
  lemma CloseFirst(run: seq<string>, carried: Option<string>, rest: seq<string>, eof: bool)
    requires forall j :: 0 <= j < |run| ==> run[j] != ""
    ensures Events(Blocks(run + ([""] + rest), eof), carried) ==
      Closed(DataOf(run), IdOf(run, carried)) + Events(Blocks(rest, eof), CarriedOn(DataOf(run), IdOf(run, carried)))
  {
    BlankCloses(run, rest, eof);
    EventsCons(run, carried, Blocks(rest, eof));
  }

  lemma FirstBlock(lines: seq<string>) returns (run: seq<string>, rest: seq<string>)
    requires lines != [] && lines[|lines| - 1] == ""
    ensures lines == run + ([""] + rest) && forall j :: 0 <= j < |run| ==> run[j] != ""
    ensures rest == [] || rest[|rest| - 1] == ""
  {
    var i := BlockEnd(lines);
    run, rest := lines[..i], lines[i + 1..];
    SplitAround(lines, i);
  }

  lemma SplitAround(lines: seq<string>, i: nat)
    requires i < |lines|
    ensures lines == lines[..i] + ([lines[i]] + lines[i + 1..])
  {
  }

  /** The id that finished lines carry into the event after them: that of blocks without data since the last event. */
  function CarriedOut(lines: seq<string>, carried: Option<string>): Option<string> {
    var i := BlockEnd(lines);
    if i == |lines| then carried
    else CarriedOut(lines[i + 1..], CarriedOn(DataOf(lines[..i]), IdOf(lines[..i], carried)))
  }

  lemma CarriedStep(run: seq<string>, rest: seq<string>, carried: Option<string>)
    requires forall j :: 0 <= j < |run| ==> run[j] != ""
    ensures CarriedOut(run + ([""] + rest), carried) == CarriedOut(rest, CarriedOn(DataOf(run), IdOf(run, carried)))
  {
    var lines := run + ([""] + rest);
    BlockEndAt(run, [""] + rest);
    assert lines[..|run|] == run && lines[|run| + 1..] == rest;
  }

  /** The event made of the lines of an event that a clean end has cut short. */
  function PartialEvent(lines: seq<string>, partial: seq<string>, carried: Option<string>): seq<Event> {
    Closed(DataOf(partial), IdOf(partial, CarriedOut(lines, carried)))
  }

  /**
   What a connection contributes when it ends inside an event: after a read error nothing, after a clean end the
   event made of the lines so far, if they carry data - and then its id is committed as well.
   */
  lemma {:induction false} UnfinishedEvent(lines: seq<string>, partial: seq<string>, carried: Option<string>, eof: bool)
    requires lines == [] || lines[|lines| - 1] == ""
    requires forall j :: 0 <= j < |partial| ==> partial[j] != ""
    ensures Events(Blocks(lines + partial, eof), carried) ==
      Events(Blocks(lines, false), carried) + (if eof then PartialEvent(lines, partial, carried) else [])
    decreases |lines|
  {
    if lines == [] {
      OnlyPartial(partial, carried, eof);
      assert lines + partial == partial;
    } else {
      var run, rest := FirstBlock(lines);
      var later := CarriedOn(DataOf(run), IdOf(run, carried));
      UnfinishedEvent(rest, partial, later, eof);
      CarriedStep(run, rest, carried);
      CloseFirst(run, carried, rest, false);
      CloseFirst(run, carried, rest + partial, eof);
      BlockThenPartial(run, rest, partial);
      Assoc(Closed(DataOf(run), IdOf(run, carried)), Events(Blocks(rest, false), later),
        if eof then PartialEvent(rest, partial, later) else []);
    }
  }

  /** A connection's events when its stream consists of these lines. */
  function EventsOf(lines: seq<string>, eof: bool): seq<Event> {
    Events(Blocks(lines, eof), None)
  }

  /**
   Exactly when an event cut short moves the resume point: the end is clean, the event has data, and its id - its own
   or one carried into it - differs from the id of the finished events.
   */
  lemma PartialMovesResume(lines: seq<string>, partial: seq<string>, eof: bool, before: string)
    requires lines == [] || lines[|lines| - 1] == ""
    requires forall j :: 0 <= j < |partial| ==> partial[j] != ""
    ensures var finished, id := LastId(EventsOf(lines, false), before), IdOf(partial, CarriedOut(lines, None));
      LastId(EventsOf(lines + partial, eof), before) != finished <==>
        eof && DataOf(partial) != [] && id.Some? && id.value != finished
  {
    UnfinishedEvent(lines, partial, None, eof);
    var done, more := EventsOf(lines, false), if eof then PartialEvent(lines, partial, None) else [];
    LastIdAppend(done, more, before);
    LastIdOne(more, LastId(done, before));
  }

  lemma LastIdOne(events: seq<Event>, before: string)
    requires |events| <= 1
    ensures LastId(events, before) == if events != [] && events[0].id.Some? then events[0].id.value else before
  {
    if events != [] { assert events[..0] == []; }
  }

  lemma TwoFields(first: string, second: string, id: string, data: string)
    requires FieldOf(first) == Id(id) && FieldOf(second) == Data(data)
    ensures DataOf([first, second]) == [data] && IdOf([first, second], None) == Some(id)
  {
    DataAppend([], first);
    DataAppend([first], second);
    IdAppend([], first, None);
    IdAppend([first], second, None);
    assert [] + [first] == [first] && [first] + [second] == [first, second];
  }

  /** A stream cut off after "id: 7" and "data: x": a clean end delivers the event and commits 7, a read error does not. */
  lemma CleanEndCommits()
    ensures Events(Blocks(["id: 7", "data: x"], true), None) == [Event("x", Some("7"))]
    ensures Events(Blocks(["id: 7", "data: x"], false), None) == []
  {
    OnlyPartial(["id: 7", "data: x"], None, true);
    OnlyPartial(["id: 7", "data: x"], None, false);
    assert FieldOf("id: 7") == Id("7") by {
      SseRoundTrip.IdField("7");
      assert "id: 7" == "id: " + "7";
    }
    assert FieldOf("data: x") == Data("x") by {
      SseRoundTrip.DataField("x");
      assert "data: x" == "data: " + "x";
    }
    TwoFields("id: 7", "data: x", "7", "x");
  }

  lemma OnlyPartial(partial: seq<string>, carried: Option<string>, eof: bool)
    requires forall j :: 0 <= j < |partial| ==> partial[j] != ""
    ensures Events(Blocks(partial, eof), carried) == if eof then Closed(DataOf(partial), IdOf(partial, carried)) else []
    ensures Events(Blocks([], false), carried) == []
  {
    EndOfLines(partial, carried, eof);
    assert partial + [] == partial;
  }

  lemma BlockThenPartial(run: seq<string>, rest: seq<string>, partial: seq<string>)
    ensures run + ([""] + rest) + partial == run + ([""] + (rest + partial))
  {
  }

  // ---------------------------------------------------------------- backoff over a whole run

  /** Calls of sleepBackoff since the stored value was last zero, counted in the trace. */
  function Calls<T>(trace: seq<Deed<T>>): nat {
    if trace == [] then 0
    else
      var last := trace[|trace| - 1];
      if !last.Slept? then Calls(trace[..|trace| - 1])
      else if last.backoff == 0 then 1
      else 1 + Calls(trace[..|trace| - 1])
  }

  lemma {:induction false} QuietCalls<T>(trace: seq<Deed<T>>, more: seq<Deed<T>>)
    requires forall p :: 0 <= p < |more| ==> !more[p].Slept?
    ensures Calls(trace + more) == Calls(trace)
  {
    if more == [] {
      assert trace + more == trace;
    } else {
      var n := |more| - 1;
      assert (trace + more)[..|trace + more| - 1] == trace + more[..n];
      QuietCalls(trace, more[..n]);
    }
  }

  /** A turn sleeps only as its last deed. */
  lemma SleepLast<T>(st: Loop, c: Connection, decode: string -> seq<T>)
    requires st.backoff != 1
    ensures var t := Turn(st, c, decode);
      && (forall p :: 0 <= p < |t| - 1 ==> !t[p].Slept?)
      && (t != [] && t[|t| - 1].Slept? <==> c.Unreachable? || c.Stream?)
  {
  }

  lemma SleepInTurn<T>(before: seq<Deed<T>>, st: Loop, c: Connection, decode: string -> seq<T>, p: nat)
    requires st.backoff == Stored(Calls(before)) && st.backoff != 1
    requires p < |Turn(st, c, decode)| && Turn(st, c, decode)[p].Slept?
    ensures var t := Turn(st, c, decode); t[p].backoff == 0 || t[p].backoff == Stored(Calls(before + t[..p]))
  {
    SleepLast(st, c, decode);
    SleepReadsStore(st, c, decode);
    QuietCalls(before, Turn(st, c, decode)[..p]);
  }

  lemma Prefixes<T>(before: seq<T>, t: seq<T>, later: seq<T>, p: nat)
    requires p < |t| + |later|
    ensures p < |t| ==> (t + later)[p] == t[p] && before + (t + later)[..p] == before + t[..p]
    ensures p >= |t| ==> (t + later)[p] == later[p - |t|] && before + (t + later)[..p] == before + t + later[..p - |t|]
  {
  }

  /**
   Every sleep of a run follows the closed form: the value it finds stored is zero, or the one reached after the
   calls made since it was last zero.
   */
  lemma {:induction false} SleepsFollowClosedForm<T>(
      before: seq<Deed<T>>, st: Loop, conns: seq<Connection>, decode: string -> seq<T>, p: nat)
    requires st.backoff == Stored(Calls(before)) && st.backoff != 1
    requires p < |Listen(st, conns, decode)| && Listen(st, conns, decode)[p].Slept?
    ensures var trace := Listen(st, conns, decode);
      trace[p].backoff == 0 || trace[p].backoff == Stored(Calls(before + trace[..p]))
    decreases |conns|
  {
    var t := Turn(st, conns[0], decode);
    ListenSplit(st, conns, decode);
    var later := if Goes(st, conns[0]) then Listen(After(st, conns[0]), conns[1..], decode) else [];
    Prefixes(before, t, later, p);
    if p < |t| {
      SleepInTurn(before, st, conns[0], decode, p);
    } else {
      TurnKeepsCalls(before, st, conns[0], decode);
      SleepsFollowClosedForm(before + t, After(st, conns[0]), conns[1..], decode, p - |t|);
    }
  }

  /** A wait of sleepBackoff for the stored value b: none for zero, else within a quarter of b. */
  predicate WaitFits(b: nat, wait: nat) {
    if b == 0 then wait == 0 else 3 * b <= 4 * wait < 5 * b
  }

  /** The values the backoff can take. */
  predicate StoredValue(b: nat) {
    b == 0 || 1_000_000_000 <= b <= 30_000_000_000
  }

  lemma StoredIsMultiple(n: nat)
    requires n >= 1
    ensures var seconds := if Pow2(n - 1) < 30 then Pow2(n - 1) else 30;
      1 <= seconds <= 30 && Stored(n) == seconds * BACKOFF_MIN
  {
    PowPositive(n - 1);
  }

  lemma TurnWaits<T>(st: Loop, c: Connection, decode: string -> seq<T>, n: nat, p: nat)
    requires st.backoff == Stored(n) && st.backoff != 1
    requires p < |Turn(st, c, decode)| && Turn(st, c, decode)[p].Slept?
    ensures var d := Turn(st, c, decode)[p]; StoredValue(d.backoff) && WaitFits(d.backoff, d.wait)
  {
    SleepLast(st, c, decode);
    if c.Unreachable? && n >= 1 {
      StoredIsMultiple(n);
      QuarterExact(st.backoff, if Pow2(n - 1) < 30 then Pow2(n - 1) else 30, c.random);
    }
  }

  /** In every run the stored value is zero or between one and thirty seconds, and every wait fits it. */
  lemma {:induction false} SleepsWait<T>(
      before: seq<Deed<T>>, st: Loop, conns: seq<Connection>, decode: string -> seq<T>, p: nat)
    requires st.backoff == Stored(Calls(before)) && st.backoff != 1
    requires p < |Listen(st, conns, decode)| && Listen(st, conns, decode)[p].Slept?
    ensures var d := Listen(st, conns, decode)[p]; StoredValue(d.backoff) && WaitFits(d.backoff, d.wait)
    decreases |conns|
  {
    var t := Turn(st, conns[0], decode);
    ListenSplit(st, conns, decode);
    var later := if Goes(st, conns[0]) then Listen(After(st, conns[0]), conns[1..], decode) else [];
    Prefixes(before, t, later, p);
    if p < |t| {
      TurnWaits(st, conns[0], decode, Calls(before), p);
    } else {
      TurnKeepsCalls(before, st, conns[0], decode);
      SleepsWait(before + t, After(st, conns[0]), conns[1..], decode, p - |t|);
    }
  }

  /** The same for a whole run of doListen. */
  lemma BackoffBounds<T>(conns: seq<Connection>, decode: string -> seq<T>, trace: seq<Deed<T>>, p: nat)
    requires trace == Listen(START, conns, decode) && p < |trace| && trace[p].Slept?
    ensures StoredValue(trace[p].backoff) && WaitFits(trace[p].backoff, trace[p].wait)
    ensures trace[p].backoff == 0 || trace[p].backoff == Stored(Calls(trace[..p]))
  {
    SleepsWait([], START, conns, decode, p);
    SleepsFollowClosedForm([], START, conns, decode, p);
    assert [] + trace[..p] == trace[..p];
  }

  lemma SleepReadsStore<T>(st: Loop, c: Connection, decode: string -> seq<T>)
    requires st.backoff != 1
    ensures var t := Turn(st, c, decode);
      t != [] && t[|t| - 1].Slept? ==> t[|t| - 1].backoff == 0 || t[|t| - 1].backoff == st.backoff
  {
  }

  lemma TurnKeepsCalls<T>(before: seq<Deed<T>>, st: Loop, c: Connection, decode: string -> seq<T>)
    requires st.backoff == Stored(Calls(before)) && st.backoff != 1 && Goes(st, c)
    ensures After(st, c).backoff == Stored(Calls(before + Turn(st, c, decode))) && After(st, c).backoff != 1
  {
    var t := Turn(st, c, decode);
    SleepLast(st, c, decode);
    if c.Unauthorized? {
      QuietCalls(before, t);
    } else {
      var n := |t| - 1;
      assert (before + t)[..|before + t| - 1] == before + t[..n];
      QuietCalls(before, t[..n]);
      StoredStep(Calls(before));
      StoredStep(0);
      assert Pow2(0) == 1;
    }
  }
}
