/** How far a run of doListen goes: which connection ends it, and what it has done by then. */
module ListenRuns {
  import opened Prelude
  import opened SseParser
  import opened ListenLoop

  // ---------------------------------------------------------------- which connection ends a run

  /** The last of these connections with a verdict on authorization was a 401: there has been no 200 since. */
  predicate Refused(conns: seq<Connection>, before: bool) {
    if conns == [] then before
    else
      var c := conns[|conns| - 1];
      c.Unauthorized? || (!c.Stream? && Refused(conns[..|conns| - 1], before))
  }

  /** Network errors and streams are followed by a reconnect, a first 401 if a new token was obtained; nothing else is. */
  predicate Ends(conns: seq<Connection>, i: nat, before: bool)
    requires i < |conns|
  {
    match conns[i]
    case Unreachable(_) => false
    case Stream(_, _) => false
    case Unauthorized(renewed) => !renewed || Refused(conns[..i], before)
    case _ => true
  }

  /** n connections are survived, and the next one, if there is one, ends the run. */
  ghost predicate Survives(conns: seq<Connection>, n: nat, before: bool) {
    && n <= |conns| && (forall i :: 0 <= i < n ==> !Ends(conns, i, before))
    && (n < |conns| ==> Ends(conns, n, before))
  }

  /** A GET is sent: the loop was not cancelled and the headers could be set. */
  predicate SendsGet(c: Connection) {
    !c.Cancelled? && !c.NoHeaders?
  }

  /** An error is handed to the channel: not for cancellation, and not for 405, which is a clean exit. */
  predicate EndsWithReport(c: Connection) {
    !c.Cancelled? && !c.NotAllowed?
  }

  // ---------------------------------------------------------------- counting the deeds

  function Reports<T>(trace: seq<Deed<T>>): nat {
    if trace == [] then 0 else Reports(trace[1..]) + if trace[0].Report? then 1 else 0
  }

  lemma {:induction false} ReportsAppend<T>(a: seq<Deed<T>>, b: seq<Deed<T>>)
    ensures Reports(a + b) == Reports(a) + Reports(b)
  {
    if a == [] {
      assert a + b == b;
    } else {
      ReportsAppend(a[1..], b);
      assert (a + b)[1..] == a[1..] + b;
    }
  }

  lemma {:induction false} NoReports<T>(acts: seq<Act<T>>)
    ensures Reports(Deeds(acts)) == 0
  {
    if acts != [] {
      assert Deeds(acts)[1..] == Deeds(acts[1..]);
      NoReports(acts[1..]);
    }
  }

  function Bit(b: bool): nat {
    if b then 1 else 0
  }

  /** A turn after which the loop goes on: one GET, the events of its stream, no report. */
  lemma TurnGoesOn<T>(st: Loop, c: Connection, decode: string -> seq<T>)
    requires st.backoff != 1 && Goes(st, c)
    ensures var t := Turn(st, c, decode);
      Connects(t) == 1 && Streamed(t) == Acts(Dispatched(c), decode) && Reports(t) == 0
  {
    TurnShape(st, c, decode);
    if c.Stream? {
      var head: seq<Deed<T>>, tail: seq<Deed<T>> := [Connect(HeaderOf(st.lastId))], [Slept(0, 0)];
      var acts := Acts(Dispatched(c), decode);
      NoReports(acts);
      ReportsAppend(head, Deeds(acts));
      ReportsAppend(head + Deeds(acts), tail);
      assert head[1..] == [] && tail[1..] == [];
    } else {
      TurnIsShort(st, c, decode);
    }
  }

  lemma TurnIsShort<T>(st: Loop, c: Connection, decode: string -> seq<T>)
    requires st.backoff != 1 && !c.Stream?
    ensures var t := Turn(st, c, decode);
      && Connects(t) == Bit(SendsGet(c)) && Streamed(t) == []
      && Reports(t) == Bit(!Goes(st, c) && EndsWithReport(c))
  {
    var t := Turn(st, c, decode);
    assert |t| <= 2;
    if |t| == 2 {
      assert t == [t[0]] + [t[1]];
      TraceAppend([t[0]], [t[1]]);
      ReportsAppend([t[0]], [t[1]]);
      OneDeed(t[0]);
      OneDeed(t[1]);
    } else if |t| == 1 {
      assert t == [t[0]];
      OneDeed(t[0]);
    }
  }

  lemma OneDeed<T>(d: Deed<T>)
    ensures Connects([d]) == Bit(d.Connect?) && Reports([d]) == Bit(d.Report?)
    ensures Streamed([d]) == if d.Parsed? then [d.act] else []
  {
    assert [d][1..] == [];
  }

  lemma {:induction false} RefusedHead(c: Connection, rest: seq<Connection>, before: bool)
    ensures Refused([c] + rest, before) == Refused(rest, c.Unauthorized? || (!c.Stream? && before))
  {
    if rest == [] {
      assert [c] + rest == [c] && [c][..0] == [];
    } else {
      var n := |rest| - 1;
      assert ([c] + rest)[..n + 1] == [c] + rest[..n];
      RefusedHead(c, rest[..n], before);
    }
  }

  lemma EndsTail(conns: seq<Connection>, i: nat, before: bool)
    requires i < |conns| - 1
    ensures var mark := conns[0].Unauthorized? || (!conns[0].Stream? && before);
      Ends(conns, i + 1, before) <==> Ends(conns[1..], i, mark)
  {
    RefusedHead(conns[0], conns[1..][..i], before);
    assert conns[..i + 1] == [conns[0]] + conns[1..][..i];
  }

  lemma SurvivesTail(conns: seq<Connection>, n: nat, before: bool)
    requires Survives(conns, n, before) && n > 0
    ensures Survives(conns[1..], n - 1, conns[0].Unauthorized? || (!conns[0].Stream? && before))
  {
    var mark := conns[0].Unauthorized? || (!conns[0].Stream? && before);
    forall i | 0 <= i < n - 1 ensures !Ends(conns[1..], i, mark) {
      EndsTail(conns, i, before);
      assert !Ends(conns, i + 1, before);
    }
    if n < |conns| {
      EndsTail(conns, n - 1, before);
    }
  }

  lemma {:induction false} RunExactly<T>(st: Loop, conns: seq<Connection>, decode: string -> seq<T>, n: nat)
    requires st.backoff != 1 && Survives(conns, n, st.retried401)
    ensures var trace, ended := Listen(st, conns, decode), n < |conns|;
      && Connects(trace) == n + Bit(ended && SendsGet(conns[n]))
      && Streamed(trace) == Acts(AllEvents(conns[..n]), decode)
      && Reports(trace) == Bit(ended && EndsWithReport(conns[n]))
    decreases n
  {
    if conns != [] {
      assert conns[..0] == [];
      ListenSplit(st, conns, decode);
      if n == 0 {
        TurnIsShort(st, conns[0], decode);
        assert Turn(st, conns[0], decode) + [] == Turn(st, conns[0], decode);
      } else {
        assert !Ends(conns, 0, st.retried401);
        SurvivesTail(conns, n, st.retried401);
        TurnGoesOn(st, conns[0], decode);
        RunExactly(After(st, conns[0]), conns[1..], decode, n - 1);
        JoinTurn(Turn(st, conns[0], decode), Listen(After(st, conns[0]), conns[1..], decode), conns, decode, n);
      }
    } else {
      assert conns[..0] == [];
    }
  }

  lemma JoinTurn<T>(t: seq<Deed<T>>, later: seq<Deed<T>>, conns: seq<Connection>, decode: string -> seq<T>, n: nat)
    requires 0 < n <= |conns| && Streamed(t) == Acts(Dispatched(conns[0]), decode)
    requires Streamed(later) == Acts(AllEvents(conns[1..][..n - 1]), decode)
    ensures Connects(t + later) == Connects(t) + Connects(later) && Reports(t + later) == Reports(t) + Reports(later)
    ensures Streamed(t + later) == Acts(AllEvents(conns[..n]), decode)
  {
    TraceAppend(t, later);
    ReportsAppend(t, later);
    assert conns[..n][1..] == conns[1..][..n - 1];
    ActsAppend(Dispatched(conns[0]), AllEvents(conns[1..][..n - 1]), decode);
  }

  /**
   How a run of doListen goes, exactly: it survives network errors and streams, and a 401 answered with a new token if
   a 200 came since the last one; the first other connection ends it. Every connection up to there is tried once, every
   event of theirs is delivered and committed, and one error is reported unless the end is a cancellation or a 405.
   */
  lemma ListensExactly<T>(conns: seq<Connection>, decode: string -> seq<T>, trace: seq<Deed<T>>, n: nat)
    requires trace == Listen(START, conns, decode) && Survives(conns, n, false)
    ensures Connects(trace) == n + Bit(n < |conns| && SendsGet(conns[n]))
    ensures Streamed(trace) == Acts(AllEvents(conns[..n]), decode)
    ensures Reports(trace) == Bit(n < |conns| && EndsWithReport(conns[n]))
  {
    RunExactly(START, conns, decode, n);
  }

  /** Every list of connections has such a point. */
  lemma {:induction false} SomeEnd(conns: seq<Connection>, from: nat) returns (n: nat)
    requires from <= |conns| && forall i :: 0 <= i < from ==> !Ends(conns, i, false)
    ensures Survives(conns, n, false)
    decreases |conns| - from
  {
    if from == |conns| || Ends(conns, from, false) {
      n := from;
    } else {
      n := SomeEnd(conns, from + 1);
    }
  }

  /** In particular the loop reconnects after every network error and every stream, and loses nothing. */
  lemma Reconnects<T>(conns: seq<Connection>, decode: string -> seq<T>)
    requires forall i :: 0 <= i < |conns| ==> conns[i].Unreachable? || conns[i].Stream?
    ensures Connects(Listen(START, conns, decode)) == |conns|
    ensures Streamed(Listen(START, conns, decode)) == Acts(AllEvents(conns), decode)
  {
    RunExactly(START, conns, decode, |conns|);
    assert conns[..|conns|] == conns;
  }

  // ---------------------------------------------------------------- how long a run waits

  /** Calls of sleepBackoff since the value was last zero, read off the connections: a stream starts afresh. */
  function Attempts(conns: seq<Connection>, before: nat): nat {
    if conns == [] then before
    else
      var c, front := conns[|conns| - 1], conns[..|conns| - 1];
      if c.Stream? then 1 else Attempts(front, before) + if c.Unreachable? then 1 else 0
  }

  datatype Nap = Nap(backoff: nat, wait: nat)

  /** The naps due after the first n connections: none after a stream, the closed form after a network error. */
  function NapsDue(conns: seq<Connection>, n: nat, before: nat): seq<Nap>
    requires n <= |conns|
  {
    if n == 0 then [] else NapsDue(conns, n - 1, before) + NapDue(Attempts(conns[..n - 1], before), conns[n - 1])
  }

  /** The nap after a connection that found the given number of calls behind it. */
  function NapDue(calls: nat, c: Connection): seq<Nap> {
    StoredIsNotOne(calls);
    match c
    case Stream(_, _) => [Nap(0, 0)]
    case Unreachable(r) => [Nap(Stored(calls), Wait(Stored(calls), r))]
    case _ => []
  }

  lemma StoredIsNotOne(n: nat)
    ensures Stored(n) != 1
  {
    if n >= 1 { StoredIsMultiple(n); }
  }

  function Naps<T>(trace: seq<Deed<T>>): seq<Nap> {
    if trace == [] then []
    else (if trace[0].Slept? then [Nap(trace[0].backoff, trace[0].wait)] else []) + Naps(trace[1..])
  }

  lemma {:induction false} NapsAppend<T>(a: seq<Deed<T>>, b: seq<Deed<T>>)
    ensures Naps(a + b) == Naps(a) + Naps(b)
  {
    if a == [] {
      assert a + b == b;
    } else {
      NapsAppend(a[1..], b);
      assert (a + b)[1..] == a[1..] + b;
      Assoc(Naps([a[0]]), Naps(a[1..]), Naps(b));
      assert [a[0]][1..] == [];
    }
  }

  lemma {:induction false} NoNaps<T>(acts: seq<Act<T>>)
    ensures Naps(Deeds(acts)) == []
  {
    if acts != [] {
      assert Deeds(acts)[1..] == Deeds(acts[1..]);
      NoNaps(acts[1..]);
    }
  }

  lemma StreamNaps<T>(id: Option<string>, acts: seq<Act<T>>)
    ensures Naps([Connect(id)] + Deeds(acts) + [Slept(0, 0)]) == [Nap(0, 0)]
  {
    var head: seq<Deed<T>>, tail: seq<Deed<T>> := [Connect(id)], [Slept(0, 0)];
    NoNaps(acts);
    NapsAppend(head, Deeds(acts));
    NapsAppend(head + Deeds(acts), tail);
    OneNap(head[0]);
    OneNap(tail[0]);
  }

  lemma FewNaps<T>(t: seq<Deed<T>>)
    requires |t| <= 2 && (|t| == 2 ==> !t[0].Slept?)
    ensures Naps(t) == if t != [] && t[|t| - 1].Slept? then [Nap(t[|t| - 1].backoff, t[|t| - 1].wait)] else []
  {
    if |t| == 2 {
      assert t == [t[0]] + [t[1]];
      NapsAppend([t[0]], [t[1]]);
      OneNap(t[0]);
      OneNap(t[1]);
    } else if |t| == 1 {
      assert t == [t[0]];
      OneNap(t[0]);
    }
  }

  lemma TurnNaps<T>(st: Loop, c: Connection, decode: string -> seq<T>, calls: nat)
    requires st.backoff != 1 && st.backoff == Stored(calls)
    ensures Naps(Turn(st, c, decode)) == NapDue(calls, c)
  {
    if c.Stream? {
      StreamNaps(HeaderOf(st.lastId), Acts(Dispatched(c), decode));
    } else {
      FewNaps(Turn(st, c, decode));
    }
  }

  lemma OneNap<T>(d: Deed<T>)
    ensures Naps([d]) == if d.Slept? then [Nap(d.backoff, d.wait)] else []
  {
    assert [d][1..] == [];
  }

  lemma {:induction false} AttemptsHead(c: Connection, rest: seq<Connection>, before: nat)
    ensures Attempts([c] + rest, before) == Attempts(rest, Counted(c, before))
  {
    if rest == [] {
      assert [c] + rest == [c] && [c][..0] == [];
    } else {
      var n := |rest| - 1;
      assert ([c] + rest)[..n + 1] == [c] + rest[..n];
      AttemptsHead(c, rest[..n], before);
    }
  }

  /** The count after one connection. */
  function Counted(c: Connection, before: nat): nat {
    if c.Stream? then 1 else before + if c.Unreachable? then 1 else 0
  }

  lemma AttemptsShift(conns: seq<Connection>, n: nat, before: nat)
    requires 0 < n <= |conns|
    ensures Attempts(conns[..n], before) == Attempts(conns[1..][..n - 1], Counted(conns[0], before))
  {
    AttemptsHead(conns[0], conns[1..][..n - 1], before);
    assert conns[..n] == [conns[0]] + conns[1..][..n - 1];
  }

  /** The naps due, taken from the front. */
  lemma {:induction false} NapsDueHead(conns: seq<Connection>, n: nat, before: nat)
    requires 0 < n <= |conns|
    ensures NapsDue(conns, n, before) ==
      NapDue(before, conns[0]) + NapsDue(conns[1..], n - 1, Counted(conns[0], before))
  {
    var next := Counted(conns[0], before);
    if n == 1 {
      assert conns[..0] == [] && NapsDue(conns, 0, before) == [];
    } else {
      var last := NapDue(Attempts(conns[..n - 1], before), conns[n - 1]);
      NapsDueHead(conns, n - 1, before);
      AttemptsShift(conns, n - 1, before);
      NapsDueLast(conns[1..], n - 1, next, last);
      Assoc(NapDue(before, conns[0]), NapsDue(conns[1..], n - 2, next), last);
    }
  }

  lemma NapsDueLast(conns: seq<Connection>, n: nat, before: nat, last: seq<Nap>)
    requires 0 < n <= |conns| && NapDue(Attempts(conns[..n - 1], before), conns[n - 1]) == last
    ensures NapsDue(conns, n, before) == NapsDue(conns, n - 1, before) + last
  {
  }

  lemma TurnCounts(st: Loop, c: Connection, before: nat)
    requires st.backoff == Stored(before) && Goes(st, c)
    ensures After(st, c).backoff == Stored(Counted(c, before)) && After(st, c).backoff != 1
    ensures After(st, c).retried401 == (c.Unauthorized? || (!c.Stream? && st.retried401))
  {
    StoredStep(before);
    StoredStep(0);
    assert Pow2(0) == 1;
    StoredIsNotOne(Counted(c, before));
  }

  lemma {:induction false} RunNaps<T>(st: Loop, conns: seq<Connection>, decode: string -> seq<T>, n: nat, before: nat)
    requires st.backoff == Stored(before) && st.backoff != 1 && Survives(conns, n, st.retried401)
    ensures Naps(Listen(st, conns, decode)) == NapsDue(conns, n, before)
    decreases n
  {
    if conns != [] {
      var c := conns[0];
      ListenSplit(st, conns, decode);
      TurnNaps(st, c, decode, before);
      if n == 0 {
        LastTurn(st, conns);
        assert Turn(st, c, decode) + [] == Turn(st, c, decode);
      } else {
        FirstTurn(st, conns, n);
        TurnCounts(st, c, before);
        RunNaps(After(st, c), conns[1..], decode, n - 1, Counted(c, before));
        NapsAppend(Turn(st, c, decode), Listen(After(st, c), conns[1..], decode));
        NapsDueHead(conns, n, before);
      }
    }
  }

  lemma LastTurn(st: Loop, conns: seq<Connection>)
    requires conns != [] && Survives(conns, 0, st.retried401)
    ensures !Goes(st, conns[0]) && !conns[0].Stream? && !conns[0].Unreachable?
  {
    assert conns[..0] == [];
  }

  lemma FirstTurn(st: Loop, conns: seq<Connection>, n: nat)
    requires n > 0 && Survives(conns, n, st.retried401)
    ensures Goes(st, conns[0])
    ensures Survives(conns[1..], n - 1, conns[0].Unauthorized? || (!conns[0].Stream? && st.retried401))
  {
    assert conns[..0] == [];
    assert !Ends(conns, 0, st.retried401);
    SurvivesTail(conns, n, st.retried401);
  }

  /** Every run sleeps exactly as its connections demand: not at all after a stream, and doubling from there. */
  lemma NapsExactly<T>(conns: seq<Connection>, decode: string -> seq<T>, trace: seq<Deed<T>>, n: nat)
    requires trace == Listen(START, conns, decode) && Survives(conns, n, false)
    ensures Naps(trace) == NapsDue(conns, n, 0)
  {
    RunNaps(START, conns, decode, n, 0);
  }
}
