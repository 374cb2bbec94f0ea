/**
 A run in which the inFlight index is wrong: one client request, two session losses, no failure. The
 first attempt queues its request, a pass triggered by the listener replays it, and only then does the
 first attempt delete the entry - the replayed copy's entry.
 */
module RecoveryLateDelete {
  import opened Prelude
  import opened Jsonrpc
  import opened RecoveryModel
  import opened RecoveryStreams
  import opened RecoveryIndex

  const REQUEST := Message("1", "initialize", "", "", NoError)
  const ANSWER := Message("1", "", "", "{}", NoError)

  lemma Extend(s: State, run: seq<Step>, a: Step)
    requires Valid(s, run) && Enabled(Final(s, run), a)
    ensures Valid(s, run + [a]) && Final(s, run + [a]) == Apply(Final(s, run), a)
    decreases |run|
  {
    if run == [] {
      assert [a][1..] == [];
    } else {
      Extend(Apply(s, run[0]), run[1..], a);
      assert (run + [a])[1..] == run[1..] + [a];
    }
  }

  lemma Classified()
    ensures REQUEST.IsRequest() && ANSWER.Answers("1")
  {
  }

  /** The client's request has been accepted and its dispatcher started. */
  const ACCEPTED := INITIAL.(
    sh := INITIAL.sh.(firstInitialize := Some(REQUEST), inFlight := map["1" := REQUEST]),
    ds := [Dispatcher(0, REQUEST, FirstSend, Sending, [])], tokens := [REQUEST])

  lemma Accept() returns (run: seq<Step>)
    ensures Valid(INITIAL, run) && Final(INITIAL, run) == ACCEPTED
  {
    Classified();
    run := [];
    Extend(INITIAL, run, Read(RTake(REQUEST))); run := run + [Read(RTake(REQUEST))];
    Extend(INITIAL, run, Read(RCapture)); run := run + [Read(RCapture)];
    Extend(INITIAL, run, Read(RRegister)); run := run + [Read(RRegister)];
    Extend(INITIAL, run, Read(RSpawn)); run := run + [Read(RSpawn)];
    Extend(INITIAL, run, Read(RRelease)); run := run + [Read(RRelease)];
  }

  /** The session was lost and the dispatcher has queued the request. */
  const STRANDED := ACCEPTED.(
    sh := ACCEPTED.sh.(pendingReplay := [Ticket(0, REQUEST)]),
    ds := [Dispatcher(0, REQUEST, FirstSend, Queued, [Lost])], log := [Sent(0)])

  lemma LoseRequest() returns (run: seq<Step>)
    ensures Valid(INITIAL, run) && Final(INITIAL, run) == STRANDED
  {
    run := Accept();
    Extend(INITIAL, run, Dispatch(0, DSend(None))); run := run + [Dispatch(0, DSend(None))];
    assert Final(INITIAL, run).ds == [Dispatcher(0, REQUEST, FirstSend, Reading, [])];
    Extend(INITIAL, run, Dispatch(0, DReceive(Lost))); run := run + [Dispatch(0, DReceive(Lost))];
    assert [] + [Lost] == [Lost];
    assert Final(INITIAL, run).ds == [Dispatcher(0, REQUEST, FirstSend, LostSeen, [Lost])];
    Extend(INITIAL, run, Dispatch(0, DQueue)); run := run + [Dispatch(0, DQueue)];
    assert Final(INITIAL, run).ds == STRANDED.ds && Final(INITIAL, run).log == STRANDED.log;
  }

  /** The listener has noticed as well and asked for recovery. */
  const QUEUED := STRANDED.(sh := STRANDED.sh.(trigger := true), relays := [Relay(Listener, Barrier, [Lost])])

  lemma LoseListener() returns (run: seq<Step>)
    ensures Valid(INITIAL, run) && Final(INITIAL, run) == QUEUED
  {
    run := LoseRequest();
    Extend(INITIAL, run, Copy(0, XOpen(true))); run := run + [Copy(0, XOpen(true))];
    Extend(INITIAL, run, Copy(0, XReceive(Lost))); run := run + [Copy(0, XReceive(Lost))];
    assert [] + [Lost] == [Lost];
    assert Final(INITIAL, run).relays == [Relay(Listener, LossSeen, [Lost])];
    Extend(INITIAL, run, Copy(0, XTrigger)); run := run + [Copy(0, XTrigger)];
    assert Final(INITIAL, run).relays == QUEUED.relays;
  }

  const PASS := Pass(1, Some(REQUEST), None, [Ticket(0, REQUEST)], map["1" := REQUEST])

  /** The pass holds the request and has a good answer to initialize. */
  const GREETED := QUEUED.(
    sh := QUEUED.sh.(pendingReplay := [], trigger := false, attempts := 1), passes := 1,
    recovery := Initialized(PASS),
    log := [Sent(0), Began(1, Some(REQUEST), None), SessionReset(1), InitSent(1, REQUEST), InitAnswered(1, ANSWER)])

  lemma Greet() returns (run: seq<Step>)
    ensures Valid(INITIAL, run) && Final(INITIAL, run) == GREETED
  {
    Classified();
    run := LoseListener();
    Extend(INITIAL, run, Recover(CConsume)); run := run + [Recover(CConsume)];
    Extend(INITIAL, run, Recover(CCount)); run := run + [Recover(CCount)];
    Extend(INITIAL, run, Recover(CLock)); run := run + [Recover(CLock)];
    Extend(INITIAL, run, Recover(CGrab)); run := run + [Recover(CGrab)];
    Extend(INITIAL, run, Recover(CReset)); run := run + [Recover(CReset)];
    Extend(INITIAL, run, Recover(CSendInit)); run := run + [Recover(CSendInit)];
    Extend(INITIAL, run, Recover(CInitEvent(ANSWER))); run := run + [Recover(CInitEvent(ANSWER))];
  }

  /** The request has been registered again and its second dispatcher started. */
  const REPLAYED := GREETED.(
    recovery := Replaying(PASS, 1, false),
    ds := GREETED.ds + [Dispatcher(0, REQUEST, Replay(1), Sending, [])], log := GREETED.log + [Spawned(1, 1)])

  const RELISTED := GREETED.(recovery := Replaying(PASS, 0, true))

  lemma Relist() returns (run: seq<Step>)
    ensures Valid(INITIAL, run) && Final(INITIAL, run) == RELISTED
  {
    run := Greet();
    Extend(INITIAL, run, Recover(CSkipNotif)); run := run + [Recover(CSkipNotif)];
    Extend(INITIAL, run, Recover(CList)); run := run + [Recover(CList)];
  }

  lemma SpawnsOne()
    ensures Enabled(RELISTED, Recover(CSpawn)) && Apply(RELISTED, Recover(CSpawn)) == REPLAYED
  {
  }

  lemma ReplayRequest() returns (run: seq<Step>)
    ensures Valid(INITIAL, run) && Final(INITIAL, run) == REPLAYED
  {
    run := Relist();
    SpawnsOne();
    Extend(INITIAL, run, Recover(CSpawn)); run := run + [Recover(CSpawn)];
  }

  /** A request with an unanswered second attempt is not listed. */
  ghost predicate MissesReplay(s: State) {
    && DistinctIds(s.tokens) && !Over(s.recovery)
    && |s.ds| == 2 && Unfinished(s.ds[1]) && s.ds[1].origin.Replay? && s.ds[1].req.id !in s.sh.inFlight
  }

  /**
   So `inFlight` is not an index of the requests still being served: without any recovery failure and with
   distinct ids, a request whose dispatcher is still to send it can be missing from it.
   */
  lemma IndexCanMissReplay()
    ensures exists s: State :: Reachable(s) && MissesReplay(s)
  {
    var run := ReplayRequest();
    Extend(INITIAL, run, Dispatch(0, DUnregister));
    var last := run + [Dispatch(0, DUnregister)];
    assert Leads(last, Final(INITIAL, last)) && MissesReplay(Final(INITIAL, last));
  }
}
