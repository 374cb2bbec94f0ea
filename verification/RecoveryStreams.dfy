/**
 What a dispatcher may have received, what the Send contract says about it, and why one request is
 answered at most once.
 */
module RecoveryStreams {
  import opened Prelude
  import opened Jsonrpc
  import opened RecoveryModel
  import opened RecoveryOwnership
  import opened RecoverySafety

  // ---------------------------------------------------------------- shape of a stream

  /** Nothing follows an error; ErrSessionLost is what makes a dispatcher give its request away. */
  ghost predicate Orderly(d: Dispatcher) {
    && (forall j :: 0 <= j < |d.received| - 1 ==> d.received[j].Msg?)
    && (!d.Holds() || d.phase.LostSeen? ==> d.received != [] && d.received[|d.received| - 1].Lost?)
    && (d.phase.Sending? ==> d.received == [])
    && ((d.phase.Reading? || d.phase.Relaying? || d.phase.Matched? || d.phase.Settling?) && d.received != [] ==>
          d.received[|d.received| - 1].Msg?)
    && (d.Holds() && !d.phase.LostSeen? && d.received != [] ==> !d.received[|d.received| - 1].Lost?)
  }

  lemma DKeepsOrderly(s: State, i: nat, a: DStep)
    requires i < |s.ds| && DEnabled(s, s.ds[i], a) && Orderly(s.ds[i])
    ensures Orderly(DNext(s, s.ds[i], a))
  {
  }

  // ---------------------------------------------------------------- the contract of Send

  predicate IsAnswer(ev: Event, id: string) {
    ev.Msg? && ev.m.Answers(id)
  }

  /**
   What the comment on Remote.Send promises: one final response at most, no error after it, and
   ErrSessionLost only as the sole item of a channel.
   */
  ghost predicate SendContract(id: string, received: seq<Event>) {
    && (forall a, b :: 0 <= a < b < |received| && IsAnswer(received[a], id) ==>
          !IsAnswer(received[b], id) && !received[b].Fail? && !received[b].Refused?)
    && (forall a :: 0 <= a < |received| && received[a].Lost? ==> |received| == 1)
  }

  ghost predicate ContractKept(s: State) {
    forall i :: 0 <= i < |s.ds| ==> SendContract(s.ds[i].req.id, s.ds[i].received)
  }

  /** Without a session loss every event is owed exactly one message. */
  lemma {:induction false} RepliesByEvent(id: string, r: seq<Event>)
    requires forall j :: 0 <= j < |r| ==> !r[j].Lost?
    ensures |Replies(id, r)| == |r|
    ensures forall j :: 0 <= j < |r| ==> Owed(id, r[j]) == [Replies(id, r)[j]]
  {
    if r != [] {
      RepliesByEvent(id, r[..|r| - 1]);
    }
  }

  /** Two calls made for one source are two entries of its projection. */
  lemma {:induction false} ProjectPositions(out: seq<Write>, src: Source, a: nat, b: nat) returns (p: nat, q: nat)
    requires a < b < |out| && out[a].src == src && out[b].src == src
    ensures p < q < |Project(out, src)| && Project(out, src)[p] == out[a].m && Project(out, src)[q] == out[b].m
  {
    var n := |out| - 1;
    assert out[..n][a] == out[a];
    if b == n {
      p := ProjectPosition(out[..n], src, a);
      q := |Project(out[..n], src)|;
    } else {
      assert out[..n][b] == out[b];
      p, q := ProjectPositions(out[..n], src, a, b);
    }
  }

  lemma {:induction false} ProjectPosition(out: seq<Write>, src: Source, a: nat) returns (p: nat)
    requires a < |out| && out[a].src == src
    ensures p < |Project(out, src)| && Project(out, src)[p] == out[a].m
  {
    var n := |out| - 1;
    if a == n {
      p := |Project(out[..n], src)|;
    } else {
      assert out[..n][a] == out[a];
      p := ProjectPosition(out[..n], src, a);
    }
  }

  /** A dispatcher that gave its request away has told the client nothing. */
  lemma GaveAwaySilently(s: State, i: nat, a: nat)
    requires i < |s.ds| && !s.ds[i].Holds() && Orderly(s.ds[i])
    requires SendContract(s.ds[i].req.id, s.ds[i].received) && DispatcherSlot(s.out, s.ds, i)
    requires a < |s.out|
    ensures s.out[a].src != FromDispatcher(i)
  {
    var d := s.ds[i];
    assert d.received == [Lost];
    assert d.received[..0] == [];
    assert Replies(d.req.id, d.received) == [];
    if s.out[a].src == FromDispatcher(i) {
      var p := ProjectPosition(s.out, FromDispatcher(i), a);
    }
  }

  /** One channel yields at most one reply. */
  lemma OneReplyPerChannel(s: State, i: nat, a: nat, b: nat)
    requires i < |s.ds| && Orderly(s.ds[i]) && SendContract(s.ds[i].req.id, s.ds[i].received)
    requires DispatcherSlot(s.out, s.ds, i) && a < b < |s.out|
    requires s.out[a].src == FromDispatcher(i) && s.out[b].src == FromDispatcher(i)
    requires s.ds[i].Holds()
    ensures !(s.out[a].m.Answers(s.ds[i].req.id) && s.out[b].m.Answers(s.ds[i].req.id))
  {
    var d := s.ds[i];
    var id := d.req.id;
    var p, q := ProjectPositions(s.out, FromDispatcher(i), a, b);
    var r := if d.phase.LostSeen? then d.received[..|d.received| - 1] else d.received;
    RepliesByEvent(id, r);
    assert forall j :: 0 <= j < |r| ==> Owed(id, r[j]) == [Replies(id, r)[j]];
    assert Replies(id, d.received) == Replies(id, r);
    assert Owed(id, r[p]) == [s.out[a].m] && Owed(id, r[q]) == [s.out[b].m];
    assert r[p].Msg?;
  }

  /** What is owed for a stream is its messages and error responses under the request's own id. */
  lemma {:induction false} RepliesFrom(id: string, r: seq<Event>, p: nat)
    requires p < |Replies(id, r)|
    ensures Msg(Replies(id, r)[p]) in r || Replies(id, r)[p].id == id
  {
    var n := |r| - 1;
    if p < |Replies(id, r[..n])| {
      RepliesFrom(id, r[..n], p);
      assert Msg(Replies(id, r[..n])[p]) in r[..n] ==> Msg(Replies(id, r[..n])[p]) in r;
    } else {
      assert Replies(id, r)[p] == Owed(id, r[n])[p - |Replies(id, r[..n])|];
      assert r[n] in r;
    }
  }

  lemma {:induction false} CopiesFrom(r: seq<Event>, p: nat)
    requires p < |Copies(r)|
    ensures Msg(Copies(r)[p]) in r
  {
    var n := |r| - 1;
    if p < |Copies(r[..n])| {
      CopiesFrom(r[..n], p);
      assert Msg(Copies(r[..n])[p]) in r[..n];
    } else {
      assert r[n] in r;
    }
  }

  /** Answers to accepted requests arrive on no channel but the request's own. */
  ghost predicate NoForeignAnswers(s: State) {
    && (forall i, m: Message, t :: 0 <= i < |s.ds| && Msg(m) in s.ds[i].received && 0 <= t < |s.tokens| && m.Answers(s.tokens[t].id) ==>
          s.ds[i].token == t)
    && (forall k, m: Message, t :: 0 <= k < |s.relays| && Msg(m) in s.relays[k].received && 0 <= t < |s.tokens| ==>
          !m.Answers(s.tokens[t].id))
  }
}
