/**
 What a recovery pass knows and does: the requests it handles are accepted ones, inFlight cannot
 grow while it runs, and it replays nothing before a complete handshake.
 */
module RecoveryPasses {
  import opened Prelude
  import opened Jsonrpc
  import opened RecoveryModel

  // ---------------------------------------------------------------- requests are genuine

  ghost predicate Genuine(tokens: seq<Message>, t: Ticket) {
    t.token < |tokens| && tokens[t.token] == t.req
  }

  ghost predicate AllGenuine(tokens: seq<Message>, ts: seq<Ticket>) {
    forall j :: 0 <= j < |ts| ==> Genuine(tokens, ts[j])
  }

  /** The pass a phase of doRecovery belongs to. */
  function PassOf(c: Recovery): Option<Pass> {
    match c
    case Grabbed(p) => Some(p)
    case Cleared(p) => Some(p)
    case Initializing(p) => Some(p)
    case Initialized(p) => Some(p)
    case Notifying(p) => Some(p)
    case Replaying(p, _, _) => Some(p)
    case Failing(p, _, _, _) => Some(p)
    case Unlocking(p, _) => Some(p)
    case _ => None
  }

  ghost predicate DispatchersGenuine(s: State) {
    forall i :: 0 <= i < |s.ds| ==> Genuine(s.tokens, Ticket(s.ds[i].token, s.ds[i].req))
  }

  ghost predicate ElsewhereGenuine(s: State) {
    && AllGenuine(s.tokens, s.sh.pendingReplay)
    && (PassOf(s.recovery).Some? ==> AllGenuine(s.tokens, PassOf(s.recovery).value.pending))
    && (s.reader.Registered? ==> Genuine(s.tokens, Ticket(s.reader.token, s.reader.req)))
    && forall t :: 0 <= t < |s.tokens| ==> s.tokens[t].IsRequest()
  }

  lemma DKeepsGenuine(s: State, i: nat, a: DStep)
    requires DispatchersGenuine(s) && ElsewhereGenuine(s) && i < |s.ds| && DEnabled(s, s.ds[i], a)
    ensures DispatchersGenuine(DApply(s, i, a)) && ElsewhereGenuine(DApply(s, i, a))
  {
    var s' := DApply(s, i, a);
    assert s'.ds[i].token == s.ds[i].token && s'.ds[i].req == s.ds[i].req;
  }

  lemma RKeepsGenuine(s: State, a: RStep)
    requires DispatchersGenuine(s) && ElsewhereGenuine(s) && REnabled(s, a)
    ensures DispatchersGenuine(RApply(s, a)) && ElsewhereGenuine(RApply(s, a))
  {
  }

  lemma CKeepsGenuine(s: State, a: CStep)
    requires DispatchersGenuine(s) && ElsewhereGenuine(s) && CEnabled(s, a)
    ensures ElsewhereGenuine(CApply(s, a))
    ensures DispatchersGenuine(CApply(s, a))
  {
  }

  // ---------------------------------------------------------------- inFlight during a pass

  ghost predicate Keyed(m: map<string, Message>) {
    forall k :: k in m ==> m[k].id == k && k != ""
  }

  ghost predicate Within(m: map<string, Message>, snapshot: map<string, Message>) {
    forall k :: k in m ==> k in snapshot && snapshot[k] == m[k]
  }

  /** Up to the point where requests are replayed, inFlight is contained in the pass's snapshot. */
  ghost predicate Covered(s: State) {
    match s.recovery
    case Replaying(_, _, _) => true
    case Unlocking(p, _) => Within(s.sh.inFlight, p.snapshot) && (p.init.Some? ==> s.sh.inFlight == map[])
    case c => PassOf(c).Some? ==> Within(s.sh.inFlight, PassOf(c).value.snapshot)
  }

  ghost predicate IdsKnown(s: State) {
    && Keyed(s.sh.inFlight)
    && (PassOf(s.recovery).Some? ==> Keyed(PassOf(s.recovery).value.snapshot))
    && ((s.reader.Captured? && s.reader.m.IsRequest()) ==> s.reader.m.id != "")
  }

  lemma DKeepsCovered(s: State, i: nat, a: DStep)
    requires Covered(s) && IdsKnown(s) && i < |s.ds| && DEnabled(s, s.ds[i], a)
    ensures Covered(DApply(s, i, a)) && IdsKnown(DApply(s, i, a))
  {
  }

  lemma RKeepsCovered(s: State, a: RStep)
    requires Covered(s) && IdsKnown(s) && Excluded(s) && REnabled(s, a)
    ensures Covered(RApply(s, a)) && IdsKnown(RApply(s, a))
  {
  }

  lemma ListKeepsCovered(s: State)
    requires Covered(s) && IdsKnown(s) && ElsewhereGenuine(s) && CEnabled(s, CList)
    ensures Covered(CApply(s, CList)) && IdsKnown(CApply(s, CList))
  {
    assert Genuine(s.tokens, s.recovery.p.pending[s.recovery.next]);
  }

  lemma OthersKeepCovered(s: State, a: CStep)
    requires Covered(s) && IdsKnown(s) && CEnabled(s, a) && !a.CList?
    ensures Covered(CApply(s, a)) && IdsKnown(CApply(s, a))
  {
  }

  lemma CKeepsCovered(s: State, a: CStep)
    requires Covered(s) && IdsKnown(s) && ElsewhereGenuine(s) && CEnabled(s, a)
    ensures Covered(CApply(s, a)) && IdsKnown(CApply(s, a))
  {
    if a.CList? { ListKeepsCovered(s); } else { OthersKeepCovered(s, a); }
  }

  // ---------------------------------------------------------------- the order of a pass

  /** The log entries of one pass, in order. */
  ghost function Of(log: seq<Entry>, k: nat): seq<Entry> {
    if log == [] then [] else Of(log[..|log| - 1], k) + (if InPass(log[|log| - 1], k) then [log[|log| - 1]] else [])
  }

  predicate InPass(e: Entry, k: nat) {
    !e.Sent? && e.pass == k
  }

  /**
   The entries open with a complete handshake: reset, the captured initialize, a good answer to it and,
   if an initialized notification had been captured, that notification sent and drained.
   */
  ghost predicate Handshake(es: seq<Entry>) {
    && |es| >= 4
    && es[0].Began? && es[0].init.Some?
    && es[1].SessionReset?
    && es[2] == InitSent(es[0].pass, es[0].init.value)
    && es[3].InitAnswered? && es[3].m.Answers(es[0].init.value.id) && es[3].m.error.NoError?
    && (es[0].notif.Some? ==>
        |es| >= 6 && es[4] == NotifSent(es[0].pass, es[0].notif.value) && es[5].NotifDrained?)
  }

  /** How far the running pass has come, read off its own log entries. */
  ghost predicate Progress(c: Recovery, es: seq<Entry>) {
    match c
    case Grabbed(p) => es == [Began(p.number, p.init, p.notif)]
    case Cleared(p) => es == [Began(p.number, p.init, p.notif), SessionReset(p.number)]
    case Initializing(p) => p.init.Some? &&
      es == [Began(p.number, p.init, p.notif), SessionReset(p.number), InitSent(p.number, p.init.value)]
    case Initialized(p) => |es| == 4 && Greeted(p, es)
    case Notifying(p) => |es| == 5 && Greeted(p, es) && p.notif.Some? && es[4] == NotifSent(p.number, p.notif.value)
    case Replaying(p, _, _) => Handshake(es)
    case _ => true
  }

  ghost predicate Greeted(p: Pass, es: seq<Entry>)
    requires |es| >= 4
  {
    p.init.Some? && es[..3] == [Began(p.number, p.init, p.notif), SessionReset(p.number), InitSent(p.number, p.init.value)] &&
    es[3].InitAnswered? && es[3].m.Answers(p.init.value.id) && es[3].m.error.NoError?
  }

  ghost predicate PassesNumbered(s: State) {
    && (forall q :: 0 <= q < |s.log| && !s.log[q].Sent? ==> s.log[q].pass <= s.passes)
    && (s.recovery.Locked? ==> forall q :: 0 <= q < |s.log| && !s.log[q].Sent? ==> s.log[q].pass < s.passes)
    && (PassOf(s.recovery).Some? ==> PassOf(s.recovery).value.number == s.passes)
  }

  ghost predicate HandshakeFirst(s: State) {
    && (PassOf(s.recovery).Some? ==> Progress(s.recovery, Of(s.log, s.passes)))
    && (forall i :: 0 <= i < |s.ds| && s.ds[i].origin.Replay? ==> Handshake(Of(s.log, s.ds[i].origin.pass)))
  }

  /** Before every Send of a replayed request stands the handshake of the pass that replayed it. */
  ghost predicate SendsInOrder(s: State) {
    && (forall q :: 0 <= q < |s.log| && s.log[q].Sent? ==> s.log[q].i < |s.ds|)
    && (forall q :: 0 <= q < |s.log| && s.log[q].Sent? && s.ds[s.log[q].i].origin.Replay? ==>
          Handshake(Of(s.log[..q], s.ds[s.log[q].i].origin.pass)))
  }

  lemma {:induction false} OfAppend(log: seq<Entry>, e: Entry, k: nat)
    ensures Of(log + [e], k) == Of(log, k) + if InPass(e, k) then [e] else []
  {
    assert (log + [e])[..|log|] == log;
  }

  lemma {:induction false} OfNone(log: seq<Entry>, k: nat)
    requires forall q :: 0 <= q < |log| && !log[q].Sent? ==> log[q].pass != k
    ensures Of(log, k) == []
  {
    if log != [] {
      OfNone(log[..|log| - 1], k);
    }
  }

  lemma HandshakeGrows(es: seq<Entry>, more: seq<Entry>)
    requires Handshake(es)
    ensures Handshake(es + more)
  {
  }

  /** Appending to the log keeps the handshake of every replayed dispatcher. */
  lemma LogGrows(s: State, e: Entry)
    requires HandshakeFirst(s)
    ensures forall i :: 0 <= i < |s.ds| && s.ds[i].origin.Replay? ==> Handshake(Of(s.log + [e], s.ds[i].origin.pass))
  {
    forall i | 0 <= i < |s.ds| && s.ds[i].origin.Replay? ensures Handshake(Of(s.log + [e], s.ds[i].origin.pass)) {
      var k := s.ds[i].origin.pass;
      OfAppend(s.log, e, k);
      HandshakeGrows(Of(s.log, k), if InPass(e, k) then [e] else []);
    }
  }

  lemma DKeepsHandshake(s: State, i: nat, a: DStep)
    requires HandshakeFirst(s) && PassesNumbered(s) && i < |s.ds| && DEnabled(s, s.ds[i], a)
    ensures HandshakeFirst(DApply(s, i, a)) && PassesNumbered(DApply(s, i, a))
  {
    if a.DSend? {
      LogGrows(s, Sent(i));
      OfAppend(s.log, Sent(i), s.passes);
    }
    assert DApply(s, i, a).ds[i].origin == s.ds[i].origin;
  }

  lemma DKeepsOrder(s: State, i: nat, a: DStep)
    requires HandshakeFirst(s) && SendsInOrder(s) && i < |s.ds| && DEnabled(s, s.ds[i], a)
    ensures SendsInOrder(DApply(s, i, a))
  {
    var s' := DApply(s, i, a);
    assert forall j :: 0 <= j < |s.ds| ==> s'.ds[j].origin == s.ds[j].origin;
    forall q | 0 <= q < |s'.log| && s'.log[q].Sent? && s'.ds[s'.log[q].i].origin.Replay?
      ensures Handshake(Of(s'.log[..q], s'.ds[s'.log[q].i].origin.pass))
    {
      assert s'.log[..q] == if q < |s.log| then s.log[..q] else s.log;
    }
  }

  lemma RKeepsHandshake(s: State, a: RStep)
    requires HandshakeFirst(s) && PassesNumbered(s) && SendsInOrder(s) && REnabled(s, a)
    ensures HandshakeFirst(RApply(s, a)) && PassesNumbered(RApply(s, a)) && SendsInOrder(RApply(s, a))
  {
  }

  /** A recovery step logs at most one entry, of its own pass and never a Send. */
  lemma CLogs(s: State, a: CStep)
    requires CEnabled(s, a)
    ensures |CApply(s, a).log| <= |s.log| + 1 && s.log <= CApply(s, a).log
    ensures CApply(s, a).log != s.log ==> var e := CApply(s, a).log[|s.log|];
      !e.Sent? && (PassesNumbered(s) ==> e.pass == s.passes)
  {
  }

  lemma CKeepsNumbers(s: State, a: CStep)
    requires PassesNumbered(s) && CEnabled(s, a)
    ensures PassesNumbered(CApply(s, a))
  {
    CLogs(s, a);
  }

  lemma GrabStartsProgress(s: State)
    requires PassesNumbered(s) && CEnabled(s, CGrab)
    ensures var s' := CApply(s, CGrab); Progress(s'.recovery, Of(s'.log, s.passes))
  {
    OfNone(s.log, s.passes);
    OfAppend(s.log, Began(s.passes, s.sh.firstInitialize, s.sh.initializedNotif), s.passes);
  }

  lemma GreetingAdvances(s: State, a: CStep)
    requires CEnabled(s, a) && (a.CReset? || a.CSendInit? || a.CInitEvent?)
    requires PassesNumbered(s) && Progress(s.recovery, Of(s.log, s.passes))
    ensures Progress(CApply(s, a).recovery, Of(CApply(s, a).log, s.passes))
  {
    var s' := CApply(s, a);
    if s'.log != s.log {
      var e := s'.log[|s.log|];
      assert s'.log == s.log + [e] && e.pass == s.passes;
      OfAppend(s.log, e, s.passes);
    }
  }

  lemma NoticeAdvances(s: State, a: CStep)
    requires CEnabled(s, a) && (a.CSkipNotif? || a.CSendNotif? || a.CNotifEvent? || a.CNotifClosed?)
    requires PassesNumbered(s) && Progress(s.recovery, Of(s.log, s.passes))
    ensures Progress(CApply(s, a).recovery, Of(CApply(s, a).log, s.passes))
  {
    var s' := CApply(s, a);
    var es := Of(s.log, s.passes);
    if s'.log != s.log {
      var e := s'.log[|s.log|];
      assert s'.log == s.log + [e] && e.pass == s.passes;
      OfAppend(s.log, e, s.passes);
    }
    if !a.CNotifEvent? {
      assert es[0] == es[..3][0] && es[1] == es[..3][1] && es[2] == es[..3][2];
    }
  }

  lemma ReplayAdvances(s: State, a: CStep)
    requires CEnabled(s, a) && (a.CList? || a.CSpawn? || a.CFinish?)
    requires PassesNumbered(s) && Progress(s.recovery, Of(s.log, s.passes))
    ensures Progress(CApply(s, a).recovery, Of(CApply(s, a).log, s.passes))
  {
    if a.CSpawn? {
      OfAppend(s.log, Spawned(s.passes, |s.ds|), s.passes);
      HandshakeGrows(Of(s.log, s.passes), [Spawned(s.passes, |s.ds|)]);
    }
  }

  lemma CKeepsProgress(s: State, a: CStep)
    requires HandshakeFirst(s) && PassesNumbered(s) && CEnabled(s, a) && !a.CLock?
    ensures PassOf(CApply(s, a).recovery).Some? ==> Progress(CApply(s, a).recovery, Of(CApply(s, a).log, s.passes))
  {
    match a
    case CGrab => GrabStartsProgress(s);
    case CReset => GreetingAdvances(s, a);
    case CSendInit => GreetingAdvances(s, a);
    case CInitEvent(_) => GreetingAdvances(s, a);
    case CSkipNotif => NoticeAdvances(s, a);
    case CSendNotif => NoticeAdvances(s, a);
    case CNotifEvent(_) => NoticeAdvances(s, a);
    case CNotifClosed => NoticeAdvances(s, a);
    case CList => ReplayAdvances(s, a);
    case CSpawn => ReplayAdvances(s, a);
    case CFinish => ReplayAdvances(s, a);
    case _ =>
  }

  lemma CKeepsHandshakes(s: State, a: CStep)
    requires HandshakeFirst(s) && PassesNumbered(s) && CEnabled(s, a)
    ensures HandshakeFirst(CApply(s, a))
  {
    var s' := CApply(s, a);
    CLogs(s, a);
    if !a.CLock? {
      CKeepsProgress(s, a);
    }
    if s'.log != s.log {
      LogGrows(s, s'.log[|s.log|]);
      assert s'.log == s.log + [s'.log[|s.log|]];
    }
  }

  lemma CKeepsOrder(s: State, a: CStep)
    requires SendsInOrder(s) && CEnabled(s, a)
    ensures SendsInOrder(CApply(s, a))
  {
    var s' := CApply(s, a);
    CLogs(s, a);
    assert s.ds <= s'.ds;
    forall q | 0 <= q < |s'.log| && s'.log[q].Sent? && s'.ds[s'.log[q].i].origin.Replay?
      ensures Handshake(Of(s'.log[..q], s'.ds[s'.log[q].i].origin.pass))
    {
      assert q < |s.log| && s'.log[..q] == s.log[..q];
    }
  }
}
