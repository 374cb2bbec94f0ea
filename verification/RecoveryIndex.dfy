/**
 How far the inFlight map can be trusted as an index of unanswered requests. Queueing a request for
 replay and deleting its entry are two mutex sections (internal/proxy/proxy.go:311-314), so the delete
 can come after the replayed copy was registered under the same id.
 */
module RecoveryIndex {
  import opened Prelude
  import opened Jsonrpc
  import opened RecoveryModel
  import opened RecoveryOwnership
  import opened RecoveryPasses
  import opened RecoveryStreams

  ghost predicate DistinctIds(tokens: seq<Message>) {
    forall t, u :: 0 <= t < u < |tokens| ==> tokens[t].id != tokens[u].id
  }

  /** No final response has been dealt with and the dispatcher has not said goodbye to its entry. */
  ghost predicate Unfinished(d: Dispatcher) {
    && d.Holds() && !d.phase.Settling? && !d.phase.Done?
    && forall j :: 0 <= j < |d.received| && IsAnswer(d.received[j], d.req.id) ==>
         j == |d.received| - 1 && (d.phase.Relaying? || d.phase.Matched?)
  }

  ghost predicate Listed(inFlight: map<string, Message>, req: Message) {
    req.id in inFlight && inFlight[req.id] == req
  }

  /** The dispatcher's phase agrees with the last event. */
  ghost predicate PhaseKnown(d: Dispatcher) {
    && (d.phase.Relaying? ==> d.received != [] && d.received[|d.received| - 1] == Msg(d.phase.m))
    && (d.phase.Matched? || d.phase.Settling? ==>
          d.received != [] && IsAnswer(d.received[|d.received| - 1], d.req.id))
  }

  ghost predicate PhasesKnown(s: State) {
    forall i :: 0 <= i < |s.ds| ==> PhaseKnown(s.ds[i])
  }

  /** A first attempt that still holds its request is the only dispatcher that request ever had. */
  ghost predicate FirstAlone(s: State) {
    && (forall i, j :: 0 <= i < |s.ds| && 0 <= j < |s.ds| && i != j && s.ds[i].token == s.ds[j].token && s.ds[i].origin.FirstSend? ==>
          s.ds[j].origin.Replay? && !s.ds[i].Holds())
    && (s.reader.Registered? ==> s.reader.token < |s.tokens| && forall i :: 0 <= i < |s.ds| ==> s.ds[i].token != s.reader.token)
  }

  lemma DKeepsFirstAlone(s: State, i: nat, a: DStep)
    requires FirstAlone(s) && i < |s.ds| && DEnabled(s, s.ds[i], a)
    ensures FirstAlone(DApply(s, i, a))
  {
    var s' := DApply(s, i, a);
    assert forall j :: 0 <= j < |s.ds| ==> s'.ds[j].token == s.ds[j].token && s'.ds[j].origin == s.ds[j].origin;
    assert forall j :: 0 <= j < |s.ds| && s'.ds[j].Holds() ==> s.ds[j].Holds();
  }

  lemma RKeepsFirstAlone(s: State, a: RStep)
    requires FirstAlone(s) && DispatchersGenuine(s) && REnabled(s, a)
    ensures FirstAlone(RApply(s, a))
  {
    assert forall i :: 0 <= i < |s.ds| ==> Genuine(s.tokens, Ticket(s.ds[i].token, s.ds[i].req));
  }

  lemma SpawnKeepsFirstAlone(s: State)
    requires FirstAlone(s) && Owned(s) && CEnabled(s, CSpawn)
    ensures FirstAlone(CApply(s, CSpawn))
  {
    var s' := CApply(s, CSpawn);
    var t := s.recovery.p.pending[s.recovery.next].token;
    CountTail(s.recovery.p.pending, s.recovery.next, t);
    assert Owners(s, t) <= 1;
    assert AtReader(s.reader, t) == 0;
    forall i | 0 <= i < |s.ds| && s.ds[i].token == t ensures !s.ds[i].Holds() {
      if s.ds[i].Holds() {
        LiveContains(s.ds, i);
      }
    }
  }

  lemma CKeepsFirstAlone(s: State, a: CStep)
    requires FirstAlone(s) && Owned(s) && CEnabled(s, a)
    ensures FirstAlone(CApply(s, a))
  {
    if a.CSpawn? {
      SpawnKeepsFirstAlone(s);
    }
  }

  // ---------------------------------------------------------------- the index

  /** The late delete: the old dispatcher has queued t but not deleted the entry, and t has been registered again. */
  ghost predicate Overlap(s: State, i: nat, t: nat) {
    && i < |s.ds| && s.ds[i].phase.Queued? && s.ds[i].token == t
    && ((exists j :: 0 <= j < |s.ds| && s.ds[j].token == t && Unfinished(s.ds[j])) || Relisting(s.recovery, t))
  }

  ghost predicate Relisting(c: Recovery, t: nat) {
    c.Replaying? && c.listed && c.next < |c.p.pending| && c.p.pending[c.next].token == t
  }

  ghost predicate Overlapped(s: State) {
    exists i: nat, t: nat :: Overlap(s, i, t)
  }

  /** An old attempt deletes the entry under which its request has been listed again. */
  ghost predicate LateDelete(s: State, a: Step) {
    a.Dispatch? && a.d.DUnregister? && !Over(s.recovery) && exists t: nat :: Overlap(s, a.i, t)
  }

  ghost predicate Trusted(d: Dispatcher, replaysToo: bool) {
    Unfinished(d) && (replaysToo || d.origin.FirstSend?)
  }

  /** inFlight lists every unfinished first attempt and, if asked for, every unfinished replay. */
  ghost predicate Indexed(s: State, replaysToo: bool) {
    !Over(s.recovery) ==>
      && (forall i :: 0 <= i < |s.ds| && Trusted(s.ds[i], replaysToo) ==> Listed(s.sh.inFlight, s.ds[i].req))
      && (s.reader.Registered? ==> Listed(s.sh.inFlight, s.reader.req))
      && (replaysToo && s.recovery.Replaying? && s.recovery.listed && s.recovery.next < |s.recovery.p.pending| ==>
            Listed(s.sh.inFlight, s.recovery.p.pending[s.recovery.next].req))
  }

  lemma SameIdSameRequest(s: State, t: Ticket, u: Ticket)
    requires DistinctIds(s.tokens) && Genuine(s.tokens, t) && Genuine(s.tokens, u)
    ensures t.req.id == u.req.id <==> t == u
  {
    if t.token < u.token || u.token < t.token {
    }
  }

  /** Whose entry a delete can take away: nobody's else, unless the attempts overlap. */
  lemma DeleteIsOwn(s: State, i: nat, j: nat, replaysToo: bool)
    requires Owned(s) && DispatchersGenuine(s) && DistinctIds(s.tokens) && FirstAlone(s)
    requires i < |s.ds| && j < |s.ds| && i != j && Trusted(s.ds[j], replaysToo)
    requires s.ds[i].Holds() || s.ds[i].phase.Queued?
    ensures s.ds[i].req.id != s.ds[j].req.id || (replaysToo && Overlap(s, i, s.ds[i].token))
  {
    var d, e := s.ds[i], s.ds[j];
    SameIdSameRequest(s, Ticket(d.token, d.req), Ticket(e.token, e.req));
    if d.token == e.token {
      if d.Holds() {
        HeldOnce(s, i, j);
      } else if replaysToo {
        assert Overlap(s, i, d.token);
      }
    }
  }

  lemma HeldOnce(s: State, i: nat, j: nat)
    requires Owned(s) && i < |s.ds| && j < |s.ds| && i != j && s.ds[i].Holds() && s.ds[j].Holds()
    ensures s.ds[i].token != s.ds[j].token
  {
    assert Owners(s, s.ds[i].token) <= 1;
    if s.ds[i].token == s.ds[j].token {
      if i < j { LiveTwice(s.ds, i, j); } else { LiveTwice(s.ds, j, i); }
    }
  }

  lemma ReaderIdIsOwn(s: State, i: nat)
    requires DispatchersGenuine(s) && ElsewhereGenuine(s) && DistinctIds(s.tokens) && FirstAlone(s)
    requires i < |s.ds| && s.reader.Registered?
    ensures s.ds[i].req.id != s.reader.req.id
  {
    SameIdSameRequest(s, Ticket(s.ds[i].token, s.ds[i].req), Ticket(s.reader.token, s.reader.req));
  }

  /** An unfinished dispatcher was unfinished before its last step. */
  lemma UnfinishedBefore(s: State, i: nat, a: DStep)
    requires i < |s.ds| && DEnabled(s, s.ds[i], a) && PhaseKnown(s.ds[i])
    ensures PhaseKnown(DNext(s, s.ds[i], a))
    ensures Unfinished(DNext(s, s.ds[i], a)) ==> Unfinished(s.ds[i]) && !a.DUnregister?
  {
    var d, d' := s.ds[i], DNext(s, s.ds[i], a);
    assert forall j :: 0 <= j < |d.received| ==> d'.received[j] == d.received[j];
    if a.DReset? {
      assert IsAnswer(d'.received[|d.received| - 1], d.req.id);
    }
  }

  lemma RelistedIdIsOwn(s: State, i: nat)
    requires Owned(s) && DispatchersGenuine(s) && ElsewhereGenuine(s) && DistinctIds(s.tokens)
    requires i < |s.ds| && (s.ds[i].Holds() || s.ds[i].phase.Queued?)
    requires s.recovery.Replaying? && s.recovery.listed && s.recovery.next < |s.recovery.p.pending|
    ensures s.ds[i].req.id != s.recovery.p.pending[s.recovery.next].req.id || Overlap(s, i, s.ds[i].token)
  {
    var c := s.recovery;
    var u := c.p.pending[c.next];
    assert Genuine(s.tokens, u);
    SameIdSameRequest(s, Ticket(s.ds[i].token, s.ds[i].req), u);
    if s.ds[i].token == u.token {
      CountTail(c.p.pending, c.next, u.token);
      assert Owners(s, u.token) <= 1;
      if s.ds[i].Holds() {
        LiveContains(s.ds, i);
      } else {
        assert Overlap(s, i, u.token);
      }
    }
  }

  ghost predicate IndexReady(s: State) {
    Owned(s) && DispatchersGenuine(s) && ElsewhereGenuine(s) && DistinctIds(s.tokens) && FirstAlone(s) && PhasesKnown(s)
  }

  lemma DKeepsIndexed(s: State, i: nat, a: DStep, replaysToo: bool)
    requires IndexReady(s) && Indexed(s, replaysToo) && i < |s.ds| && DEnabled(s, s.ds[i], a)
    requires replaysToo ==> !LateDelete(s, Dispatch(i, a))
    ensures Indexed(DApply(s, i, a), replaysToo)
  {
    if !Over(s.recovery) {
      var s' := DApply(s, i, a);
      forall j | 0 <= j < |s'.ds| && Trusted(s'.ds[j], replaysToo) ensures Listed(s'.sh.inFlight, s'.ds[j].req) {
        if j == i {
          UnfinishedBefore(s, i, a);
        } else if a.DUnregister? {
          DeleteIsOwn(s, i, j, replaysToo);
        }
      }
      if a.DUnregister? && s.reader.Registered? {
        ReaderIdIsOwn(s, i);
      }
      if a.DUnregister? && replaysToo && s.recovery.Replaying? && s.recovery.listed && s.recovery.next < |s.recovery.p.pending| {
        RelistedIdIsOwn(s, i);
      }
    }
  }

  lemma RKeepsIndexed(s: State, a: RStep, replaysToo: bool)
    requires IndexReady(s) && Indexed(s, replaysToo) && REnabled(s, a) && DistinctIds(RApply(s, a).tokens)
    requires Excluded(s)
    ensures Indexed(RApply(s, a), replaysToo)
  {
    if a.RRegister? {
      RegisterKeepsIndexed(s, replaysToo);
    }
  }

  lemma RegisterKeepsIndexed(s: State, replaysToo: bool)
    requires DispatchersGenuine(s) && Indexed(s, replaysToo) && Excluded(s)
    requires REnabled(s, RRegister) && DistinctIds(RApply(s, RRegister).tokens)
    ensures Indexed(RApply(s, RRegister), replaysToo)
  {
    var s' := RApply(s, RRegister);
    forall i | 0 <= i < |s.ds| ensures s.ds[i].req.id != s.reader.m.id {
      assert Genuine(s.tokens, Ticket(s.ds[i].token, s.ds[i].req));
      assert s'.tokens[s.ds[i].token] == s.ds[i].req && s'.tokens[|s.tokens|] == s.reader.m;
    }
  }

  lemma CListKeepsIndexed(s: State, replaysToo: bool)
    requires IndexReady(s) && Indexed(s, replaysToo) && CEnabled(s, CList)
    ensures Indexed(CApply(s, CList), replaysToo)
  {
    var u := s.recovery.p.pending[s.recovery.next];
    assert Genuine(s.tokens, u);
    forall i | 0 <= i < |s.ds| ensures s.ds[i].req.id == u.req.id ==> s.ds[i].req == u.req {
      SameIdSameRequest(s, Ticket(s.ds[i].token, s.ds[i].req), u);
    }
  }

  lemma CKeepsIndexed(s: State, a: CStep, replaysToo: bool)
    requires IndexReady(s) && Indexed(s, replaysToo) && CEnabled(s, a) && Excluded(s)
    ensures Indexed(CApply(s, a), replaysToo)
  {
    if a.CList? {
      CListKeepsIndexed(s, replaysToo);
    } else {
      CMovesKeepIndexed(s, a, replaysToo);
    }
  }

  lemma CMovesKeepIndexed(s: State, a: CStep, replaysToo: bool)
    requires Indexed(s, replaysToo) && CEnabled(s, a) && Excluded(s) && !a.CList?
    ensures Indexed(CApply(s, a), replaysToo)
  {
  }

  /** A step from s after which inFlight no longer lists every unfinished attempt. */
  ghost predicate Breaks(s: State, a: Step) {
    Enabled(s, a) && DistinctIds(Apply(s, a).tokens) && !Indexed(Apply(s, a), true)
  }

  /** Once attempts overlap, the delete that is already enabled takes the entry of the newer attempt. */
  lemma OverlapBreaks(s: State, i: nat, t: nat)
    requires Overlap(s, i, t) && !Over(s.recovery)
    requires DispatchersGenuine(s) && ElsewhereGenuine(s) && DistinctIds(s.tokens)
    ensures Breaks(s, Dispatch(i, DUnregister))
  {
    var s' := Apply(s, Dispatch(i, DUnregister));
    assert Genuine(s.tokens, Ticket(s.ds[i].token, s.ds[i].req));
    assert s.ds[i].req.id !in s'.sh.inFlight;
    if Relisting(s.recovery, t) {
      assert Genuine(s.tokens, s.recovery.p.pending[s.recovery.next]);
    } else {
      var j :| 0 <= j < |s.ds| && s.ds[j].token == t && Unfinished(s.ds[j]);
      assert Genuine(s.tokens, Ticket(s.ds[j].token, s.ds[j].req));
      assert Trusted(s'.ds[j], true) && !Listed(s'.sh.inFlight, s'.ds[j].req);
    }
  }
}
