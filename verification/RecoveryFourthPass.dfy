/**
 How many passes, and sends of one request, fit into a stretch without a reset of the attempt counter. Counting an
 attempt and taking recoveryMu are separate steps (internal/proxy/proxy.go:516-559), and a final response can zero the
 counter between them: the pass already admitted then runs uncounted, and three more can follow it.
 */
module RecoveryFourthPass {
  import opened Prelude
  import opened Jsonrpc
  import opened RecoveryModel
  import opened RecoveryOwnership
  import opened RecoveryPasses
  import opened RecoveryBounds
  import opened RecoveryTheorems
  import opened RecoveryLateDelete

  // ---------------------------------------------------------------- stretches without a reset

  ghost predicate Runs(s: State, run: seq<Step>, t: State) {
    Valid(s, run) && NoReset(run) && Final(s, run) == t
  }

  /** Some stretch without a reset leads from s to t. */
  ghost predicate Reaches(s: State, t: State) {
    exists run: seq<Step> :: Runs(s, run, t)
  }

  lemma Stays(s: State)
    ensures Reaches(s, s)
  {
    assert Runs(s, [], s);
  }

  lemma Goes(s: State, t: State, a: Step)
    requires Reaches(s, t) && Enabled(t, a) && !IsReset(a)
    ensures Reaches(s, Apply(t, a))
  {
    var run: seq<Step> :| Runs(s, run, t);
    Extend(s, run, a);
    assert Runs(s, run + [a], Apply(t, a));
  }

  lemma {:induction false} Joins(s: State, a: seq<Step>, b: seq<Step>)
    requires Valid(s, a) && Valid(Final(s, a), b)
    ensures Valid(s, a + b) && Final(s, a + b) == Final(Final(s, a), b)
    decreases |a|
  {
    if a == [] {
      assert a + b == b;
    } else {
      Joins(Apply(s, a[0]), a[1..], b);
      assert (a + b)[1..] == a[1..] + b;
    }
  }

  lemma Chains(s: State, t: State, u: State)
    requires Reaches(s, t) && Reaches(t, u)
    ensures Reaches(s, u)
  {
    var a: seq<Step>, b: seq<Step> :| Runs(s, a, t) && Runs(t, b, u);
    Joins(s, a, b);
    assert Runs(s, a + b, u);
  }

  lemma StaysReachable(s: State, t: State)
    requires Reachable(s) && Reaches(s, t)
    ensures Reachable(t)
  {
    var a: seq<Step>, b: seq<Step> :| Leads(a, s) && Runs(s, b, t);
    Joins(INITIAL, a, b);
    assert Leads(a + b, t);
  }

  // ---------------------------------------------------------------- one pass

  /** The reader waits for the next message, recovery has not given up, and an initialize request is captured. */
  ghost predicate Able(s: State) {
    && s.reader.Waiting? && s.sh.failure.None?
    && s.sh.firstInitialize.Some? && s.sh.firstInitialize.value.IsRequest()
  }

  /** The same while the reader may still be busy with a message: it can finish without any reset. */
  ghost predicate Ready(s: State) {
    && !s.reader.Finished? && s.sh.failure.None?
    && s.sh.firstInitialize.Some? && s.sh.firstInitialize.value.IsRequest()
  }

  /** What finishing a message leaves alone. */
  ghost predicate OnlyRead(s: State, t: State) {
    t.recovery == s.recovery && t.passes == s.passes && t.sh.attempts == s.sh.attempts && s.ds <= t.ds
  }

  lemma {:induction false} ReaderFinishes(s: State) returns (t: State)
    requires Ready(s)
    ensures Reaches(s, t) && Able(t) && OnlyRead(s, t)
    decreases match s.reader
      case Entered(_) => 4 case Captured(_) => 3 case Registered(_, _) => 2 case Handled => 1 case _ => 0
  {
    Stays(s);
    if s.reader.Waiting? {
      t := s;
    } else {
      var a := if s.reader.Entered? then RCapture else if s.reader.Handled? then RRelease
               else if s.reader.Captured? && s.reader.m.IsRequest() then RRegister else RSpawn;
      Goes(s, s, Read(a));
      var u := RApply(s, a);
      t := ReaderFinishes(u);
      Chains(s, u, t);
    }
  }

  /** What a pass started in s takes out of the proxy. */
  function TakenPass(s: State): Pass {
    Pass(s.passes + 1, s.sh.firstInitialize, s.sh.initializedNotif, s.sh.pendingReplay, s.sh.inFlight)
  }

  /** Only the recovery goroutine has moved, and apart from its own phase it has at most logged. */
  ghost predicate SameButPhase(s: State, t: State) {
    && t.sh == s.sh && t.reader == s.reader && t.relays == s.relays && t.ds == s.ds && t.passes == s.passes
    && t.tokens == s.tokens
  }

  lemma Begins(s: State) returns (t: State)
    requires s.recovery.Admitted? && s.reader.Waiting? && s.sh.firstInitialize.Some?
    ensures Reaches(s, t) && t.recovery == Cleared(TakenPass(s))
    ensures SameButPhase(s.(passes := s.passes + 1, sh := s.sh.TakePending()), t)
  {
    Stays(s);
    Goes(s, s, Recover(CLock));
    t := Apply(s, Recover(CLock));
    Goes(s, t, Recover(CGrab));
    t := Apply(t, Recover(CGrab));
    Goes(s, t, Recover(CReset));
    t := Apply(t, Recover(CReset));
  }

  function GoodAnswer(init: Message): Message {
    Message(init.id, "", "", "{}", NoError)
  }

  lemma Greets(s: State, p: Pass) returns (t: State)
    requires s.recovery == Cleared(p) && p.init.Some? && p.init.value.IsRequest()
    ensures Reaches(s, t) && t.recovery == Initialized(p) && SameButPhase(s, t)
  {
    Stays(s);
    Goes(s, s, Recover(CSendInit));
    t := Apply(s, Recover(CSendInit));
    var e := CInitEvent(GoodAnswer(p.init.value));
    assert e.m.Answers(p.init.value.id);
    Goes(s, t, Recover(e));
    t := Apply(t, Recover(e));
  }

  lemma Notifies(s: State, p: Pass) returns (t: State)
    requires s.recovery == Initialized(p)
    ensures Reaches(s, t) && t.recovery == Replaying(p, 0, false) && SameButPhase(s, t)
  {
    Stays(s);
    if p.notif.None? {
      Goes(s, s, Recover(CSkipNotif));
      t := Apply(s, Recover(CSkipNotif));
    } else {
      Goes(s, s, Recover(CSendNotif));
      t := Apply(s, Recover(CSendNotif));
      Goes(s, t, Recover(CNotifClosed));
      t := Apply(t, Recover(CNotifClosed));
    }
  }

  /** The dispatchers a pass starts for the given requests. */
  function Started(pass: nat, requests: seq<Ticket>): seq<Dispatcher> {
    seq(|requests|, k requires 0 <= k < |requests| =>
      Dispatcher(requests[k].token, requests[k].req, Replay(pass), Sending, []))
  }

  /** Apart from inFlight, the proxy's fields are as they were. */
  ghost predicate SameFields(a: Shared, b: Shared) {
    a.(inFlight := map[]) == b.(inFlight := map[])
  }

  lemma ReplaysOne(s: State, p: Pass, next: nat) returns (t: State)
    requires s.recovery == Replaying(p, next, false) && next < |p.pending|
    ensures Reaches(s, t) && t.recovery == Replaying(p, next + 1, false) && SameFields(s.sh, t.sh)
    ensures t.reader == s.reader && t.passes == s.passes && t.tokens == s.tokens
    ensures t.ds == s.ds + Started(p.number, [p.pending[next]])
  {
    Stays(s);
    Goes(s, s, Recover(CList));
    t := Apply(s, Recover(CList));
    Goes(s, t, Recover(CSpawn));
    t := Apply(t, Recover(CSpawn));
  }

  lemma {:induction false} Replays(s: State, p: Pass, next: nat) returns (t: State)
    requires s.recovery == Replaying(p, next, false) && next <= |p.pending|
    ensures Reaches(s, t) && t.recovery == Idle && SameFields(s.sh, t.sh)
    ensures t.reader == s.reader && t.passes == s.passes && t.tokens == s.tokens
    ensures t.ds == s.ds + Started(p.number, p.pending[next..])
    decreases |p.pending| - next
  {
    if next == |p.pending| {
      Stays(s);
      Goes(s, s, Recover(CFinish));
      t := Apply(s, Recover(CFinish));
      assert s.ds + [] == s.ds;
    } else {
      var u := ReplaysOne(s, p, next);
      t := Replays(u, p, next + 1);
      Chains(s, u, t);
      var one, rest := Started(p.number, [p.pending[next]]), Started(p.number, p.pending[next + 1..]);
      assert Started(p.number, p.pending[next..]) == one + rest;
      Assoc(s.ds, one, rest);
    }
  }

  /** An admitted pass can succeed: it starts a dispatcher for every queued request and leaves the counter alone. */
  lemma PassRuns(s: State) returns (t: State)
    requires Able(s) && s.recovery.Admitted?
    ensures Reaches(s, t) && Able(t) && t.recovery == Idle && t.passes == s.passes + 1
    ensures t.sh.attempts == s.sh.attempts && t.sh.pendingReplay == [] && t.sh.trigger == s.sh.trigger
    ensures t.ds == s.ds + Started(s.passes + 1, s.sh.pendingReplay)
  {
    var c := ReadyToReplay(s);
    t := Replays(c, TakenPass(s), 0);
    Chains(s, c, t);
    assert s.sh.pendingReplay[0..] == s.sh.pendingReplay;
  }

  lemma ReadyToReplay(s: State) returns (t: State)
    requires Able(s) && s.recovery.Admitted?
    ensures Reaches(s, t) && t.recovery == Replaying(TakenPass(s), 0, false)
    ensures SameButPhase(s.(passes := s.passes + 1, sh := s.sh.TakePending()), t)
  {
    var a := Begins(s);
    var b := Greets(a, TakenPass(s));
    t := Notifies(b, TakenPass(s));
    Chains(s, a, b);
    Chains(s, b, t);
  }

  // ---------------------------------------------------------------- losing the session again

  const NOTE := Message("", "notifications/cancelled", "", "", NoError)

  lemma Forwarded(s: State) returns (t: State)
    requires Able(s) && !WriterHeld(s.recovery)
    ensures Reaches(s, t) && t == s.(relays := s.relays + [Relay(Forward(NOTE), Opening, [])])
  {
    assert NOTE.IsNotification() && !NOTE.IsRequest();
    Stays(s);
    Goes(s, s, Read(RTake(NOTE)));
    t := Apply(s, Read(RTake(NOTE)));
    Goes(s, t, Read(RCapture));
    t := Apply(t, Read(RCapture));
    Goes(s, t, Read(RSpawn));
    t := Apply(t, Read(RSpawn));
    Goes(s, t, Read(RRelease));
    t := Apply(t, Read(RRelease));
  }

  /** A forwarder's channel reports the loss. */
  lemma RelayLoses(s: State, k: nat) returns (t: State)
    requires k < |s.relays| && s.relays[k].phase.Opening?
    ensures Reaches(s, t) && t.sh == s.sh.Signal() && t.reader == s.reader && t.recovery == s.recovery
    ensures t.ds == s.ds && t.passes == s.passes && t.tokens == s.tokens
  {
    Stays(s);
    Goes(s, s, Copy(k, XOpen(true)));
    t := Apply(s, Copy(k, XOpen(true)));
    Goes(s, t, Copy(k, XReceive(Lost)));
    t := Apply(t, Copy(k, XReceive(Lost)));
    Goes(s, t, Copy(k, XTrigger));
    t := Apply(t, Copy(k, XTrigger));
  }

  /** The client sends a notification, and forwarding it meets a lost session. */
  lemma LosesAgain(s: State) returns (t: State)
    requires Able(s) && !WriterHeld(s.recovery)
    ensures Reaches(s, t) && t.sh == s.sh.Signal() && t.reader == s.reader && t.recovery == s.recovery
    ensures t.ds == s.ds && t.passes == s.passes && t.tokens == s.tokens
  {
    var u := Forwarded(s);
    t := RelayLoses(u, |s.relays|);
    Chains(s, u, t);
  }

  lemma IsAdmitted(s: State) returns (t: State)
    requires s.recovery.Idle? && s.sh.trigger && s.sh.attempts < MAX_RECOVERY_ATTEMPTS
    ensures Reaches(s, t) && t == s.(recovery := Admitted, sh := s.sh.TakeSignal().CountAttempt())
  {
    Stays(s);
    Goes(s, s, Recover(CConsume));
    t := Apply(s, Recover(CConsume));
    Goes(s, t, Recover(CCount));
    t := Apply(t, Recover(CCount));
  }

  // ---------------------------------------------------------------- passes

  /** The budget of passes can be spent to the last one. */
  lemma {:induction false} ManyPasses(s: State) returns (t: State)
    requires Able(s) && (s.recovery.Idle? || s.recovery.Admitted?)
    ensures Reaches(s, t) && t.passes - s.passes == Budget(s)
    decreases MAX_RECOVERY_ATTEMPTS - Min(s.sh.attempts, MAX_RECOVERY_ATTEMPTS), Admission(s.recovery)
  {
    if s.recovery.Admitted? {
      var u := PassRuns(s);
      t := ManyPasses(u);
      Chains(s, u, t);
    } else if s.sh.attempts < MAX_RECOVERY_ATTEMPTS {
      var u := LosesAgain(s);
      var v := IsAdmitted(u);
      t := ManyPasses(v);
      Chains(s, u, v);
      Chains(s, v, t);
    } else {
      Stays(s);
      t := s;
    }
  }

  /** A pass is admitted although the counter stands at zero. */
  predicate Overtaken(s: State) {
    s.recovery.Admitted? && s.sh.attempts == 0
  }

  /** No stretch without a final response that starts in s runs more than three passes. */
  ghost predicate AtMostThree(s: State) {
    forall run: seq<Step> :: Valid(s, run) && NoReset(run) ==> Final(s, run).passes - s.passes <= MAX_RECOVERY_ATTEMPTS
  }

  lemma ThreePasses(s: State)
    requires !Overtaken(s)
    ensures AtMostThree(s)
  {
    forall run: seq<Step> | Valid(s, run) && NoReset(run) ensures Final(s, run).passes - s.passes <= MAX_RECOVERY_ATTEMPTS {
      StretchPasses(s, run);
    }
  }

  /** Exactly when three passes are the limit: unless one is already admitted although the counter stands at zero. */
  lemma ThreePassesExactly(s: State)
    requires Ready(s)
    ensures AtMostThree(s) <==> !Overtaken(s)
  {
    if Overtaken(s) {
      var u := ReaderFinishes(s);
      var t := ManyPasses(u);
      Chains(s, u, t);
      var run: seq<Step> :| Runs(s, run, t);
      assert Final(s, run).passes - s.passes == 4;
    } else {
      ThreePasses(s);
    }
  }

  // ---------------------------------------------------------------- sends of one request

  /** A dispatcher about to send meets a lost session and hands its request over. */
  lemma DispatcherLoses(s: State, i: nat) returns (t: State)
    requires i < |s.ds| && s.ds[i].phase.Sending?
    ensures Reaches(s, t) && t.sh.pendingReplay == s.sh.pendingReplay + [Ticket(s.ds[i].token, s.ds[i].req)]
    ensures SameFields(t.sh, s.sh.Signal().(pendingReplay := t.sh.pendingReplay))
    ensures t.reader == s.reader && t.recovery == s.recovery && t.passes == s.passes && t.tokens == s.tokens
    ensures t.out == s.out && t.dropped == s.dropped && t.planned == s.planned
    ensures t.sh.inFlight == s.sh.inFlight - {s.ds[i].req.id}
    ensures forall x :: Tries(t.ds, x) == Tries(s.ds, x)
  {
    Stays(s);
    var u := DispatcherStep(s, s, i, DSend(None));
    u := DispatcherStep(s, u, i, DReceive(Lost));
    u := DispatcherStep(s, u, i, DQueue);
    u := DispatcherStep(s, u, i, DUnregister);
    t := DispatcherStep(s, u, i, DTrigger);
  }

  lemma DispatcherStep(s: State, t: State, i: nat, a: DStep) returns (u: State)
    requires Reaches(s, t) && i < |t.ds| && DEnabled(t, t.ds[i], a) && !a.DReset?
    ensures u == DApply(t, i, a) && Reaches(s, u)
    ensures |u.ds| == |t.ds| && u.ds[i] == DNext(t, t.ds[i], a) && u.sh == DShared(t.sh, t.ds[i], a)
    ensures forall x :: Tries(u.ds, x) == Tries(t.ds, x)
  {
    Goes(s, t, Dispatch(i, a));
    u := DApply(t, i, a);
    forall x: nat ensures Tries(u.ds, x) == Tries(t.ds, x) {
      TriesUpdate(t.ds, i, DNext(t, t.ds[i], a), x);
    }
  }

  lemma {:induction false} TriesStarted(ds: seq<Dispatcher>, pass: nat, requests: seq<Ticket>, k: nat)
    requires k < |requests|
    ensures Tries(ds + Started(pass, requests), requests[k].token) >= Tries(ds, requests[k].token) + 1
  {
    var x, n := requests[k].token, |requests| - 1;
    var front, last := Started(pass, requests[..n]), Started(pass, requests)[n];
    assert ds + Started(pass, requests) == (ds + front) + [last];
    TriesAppend(ds + front, last, x);
    if k < n {
      TriesStarted(ds, pass, requests[..n], k);
    } else {
      TriesGrow(ds, front, x);
    }
  }

  lemma {:induction false} TriesGrow(ds: seq<Dispatcher>, more: seq<Dispatcher>, x: nat)
    ensures Tries(ds + more, x) >= Tries(ds, x)
  {
    if more == [] {
      assert ds + more == ds;
    } else {
      var n := |more| - 1;
      assert ds + more == (ds + more[..n]) + [more[n]];
      TriesAppend(ds + more[..n], more[n], x);
      TriesGrow(ds, more[..n], x);
    }
  }

  /** A queued request can be sent again in the admitted pass and in every pass the counter still allows. */
  lemma {:induction false} ManySends(s: State, k: nat) returns (t: State)
    requires Able(s) && s.recovery.Admitted? && s.sh.attempts <= MAX_RECOVERY_ATTEMPTS && k < |s.sh.pendingReplay|
    ensures Reaches(s, t)
    ensures var x := s.sh.pendingReplay[k].token; Tries(t.ds, x) - Tries(s.ds, x) >= Budget(s)
    decreases MAX_RECOVERY_ATTEMPTS - s.sh.attempts
  {
    var q, x := s.sh.pendingReplay, s.sh.pendingReplay[k].token;
    t := PassRuns(s);
    TriesStarted(s.ds, s.passes + 1, q, k);
    if s.sh.attempts < MAX_RECOVERY_ATTEMPTS {
      assert t.ds[|s.ds| + k] == Started(s.passes + 1, q)[k];
      var u := DispatcherLoses(t, |s.ds| + k);
      var v := IsAdmitted(u);
      var w := ManySends(v, 0);
      Chains(s, t, u);
      Chains(s, u, v);
      Chains(s, v, w);
      t := w;
    }
  }

  const CALL := Message("1", "tools/list", "", "", NoError)

  lemma AcceptsCall(s: State) returns (t: State)
    requires s.reader.Waiting? && s.sh.failure.None? && !WriterHeld(s.recovery)
    ensures Reaches(s, t)
    ensures t == s.(sh := s.sh.Register(CALL), tokens := s.tokens + [CALL],
      ds := s.ds + [Dispatcher(|s.tokens|, CALL, FirstSend, Sending, [])])
  {
    assert CALL.IsRequest();
    Stays(s);
    Goes(s, s, Read(RTake(CALL)));
    t := Apply(s, Read(RTake(CALL)));
    Goes(s, t, Read(RCapture));
    t := Apply(t, Read(RCapture));
    Goes(s, t, Read(RRegister));
    t := Apply(t, Read(RRegister));
    Goes(s, t, Read(RSpawn));
    t := Apply(t, Read(RSpawn));
    Goes(s, t, Read(RRelease));
    t := Apply(t, Read(RRelease));
  }

  /** No stretch without a final response that starts in s sends any request more than four times. */
  ghost predicate AtMostFour(s: State) {
    forall run: seq<Step>, x: nat :: Valid(s, run) && NoReset(run) ==>
      Tries(Final(s, run).ds, x) - Tries(s.ds, x) <= MAX_RECOVERY_ATTEMPTS + 1
  }

  /** From an overtaken state the next request accepted can be sent five times. */
  lemma FiveSends(s: State) returns (t: State, x: nat)
    requires Ready(s) && Overtaken(s)
    ensures Reaches(s, t) && Tries(t.ds, x) - Tries(s.ds, x) >= MAX_RECOVERY_ATTEMPTS + 2
  {
    var u := ReaderFinishes(s);
    x := |u.tokens|;
    t := FiveSendsOfNext(u);
    Chains(s, u, t);
    assert u.ds == s.ds + u.ds[|s.ds|..];
    TriesGrow(s.ds, u.ds[|s.ds|..], x);
  }

  lemma FiveSendsOfNext(s: State) returns (t: State)
    requires Able(s) && Overtaken(s)
    ensures Reaches(s, t) && Tries(t.ds, |s.tokens|) - Tries(s.ds, |s.tokens|) >= MAX_RECOVERY_ATTEMPTS + 2
  {
    var a := AcceptsCall(s);
    TriesAppend(s.ds, a.ds[|s.ds|], |s.tokens|);
    var b := DispatcherLoses(a, |s.ds|);
    t := ManySends(b, |b.sh.pendingReplay| - 1);
    Chains(s, a, b);
    Chains(s, b, t);
  }

  lemma FourSends(s: State)
    requires Reachable(s) && !Overtaken(s)
    ensures AtMostFour(s)
  {
    ReachableInv(s);
    assert Owned(s) && Excluded(s);
    forall run: seq<Step>, x: nat | Valid(s, run) && NoReset(run)
      ensures Tries(Final(s, run).ds, x) - Tries(s.ds, x) <= MAX_RECOVERY_ATTEMPTS + 1
    {
      StretchRetries(s, run, x);
    }
  }

  /** Four sends per request are the limit under the same condition. */
  lemma FourSendsExactly(s: State)
    requires Ready(s) && Reachable(s)
    ensures AtMostFour(s) <==> !Overtaken(s)
  {
    if Overtaken(s) {
      var t, x := FiveSends(s);
      var run: seq<Step> :| Runs(s, run, t);
      assert Tries(Final(s, run).ds, x) - Tries(s.ds, x) > MAX_RECOVERY_ATTEMPTS + 1;
    } else {
      FourSends(s);
    }
  }

  // ---------------------------------------------------------------- such a state is reachable

  /** The final response has been forwarded and unlisted, but the counter not yet zeroed. */
  const SETTLING := ACCEPTED.(
    sh := ACCEPTED.sh.(inFlight := map[]),
    ds := [Dispatcher(0, REQUEST, FirstSend, Settling, [Msg(ANSWER)])],
    out := [Write(FromDispatcher(0), ANSWER, true)], log := [Sent(0)])

  lemma AnswerRequest() returns (run: seq<Step>)
    ensures Leads(run, SETTLING)
  {
    Classified();
    run := Accept();
    Extend(INITIAL, run, Dispatch(0, DSend(None))); run := run + [Dispatch(0, DSend(None))];
    assert Final(INITIAL, run).ds == [Dispatcher(0, REQUEST, FirstSend, Reading, [])];
    Extend(INITIAL, run, Dispatch(0, DReceive(Msg(ANSWER)))); run := run + [Dispatch(0, DReceive(Msg(ANSWER)))];
    assert [] + [Msg(ANSWER)] == [Msg(ANSWER)];
    assert Final(INITIAL, run).ds == [Dispatcher(0, REQUEST, FirstSend, Relaying(ANSWER), [Msg(ANSWER)])];
    Extend(INITIAL, run, Dispatch(0, DWrite(true))); run := run + [Dispatch(0, DWrite(true))];
    Extend(INITIAL, run, Dispatch(0, DUnregister)); run := run + [Dispatch(0, DUnregister)];
    assert Final(INITIAL, run).ds == SETTLING.ds && Final(INITIAL, run).out == SETTLING.out;
    assert map["1" := REQUEST] - {"1"} == map[];
  }

  /** The attempt is counted, then the dispatcher zeroes the counter. */
  lemma CountsThenResets(s: State) returns (t: State)
    requires Able(s) && s.recovery.Idle? && s.sh.attempts == 0 && s.ds != [] && s.ds[0].phase.Settling? && Reachable(s)
    ensures Able(t) && Overtaken(t) && Reachable(t)
  {
    var u := LosesAgain(s);
    var v := IsAdmitted(u);
    Chains(s, u, v);
    StaysReachable(s, v);
    var run: seq<Step> :| Leads(run, v);
    Extend(INITIAL, run, Dispatch(0, DReset));
    t := Apply(v, Dispatch(0, DReset));
    assert Leads(run + [Dispatch(0, DReset)], t);
  }

  /** So without any final response in between four passes can run, and five sends of one request. */
  lemma FourPassesCanRun()
    ensures exists s: State :: Reachable(s) && !AtMostThree(s) && !AtMostFour(s)
  {
    Classified();
    var run := AnswerRequest();
    assert Reachable(SETTLING);
    var s := CountsThenResets(SETTLING);
    ThreePassesExactly(s);
    FourSendsExactly(s);
  }
}
