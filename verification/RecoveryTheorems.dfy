/**
 The guarantees of the recovery protocol, for every run of the transition system: every schedule,
 every server behaviour, every client input, any number of session losses.
 */
module RecoveryTheorems {
  import opened Prelude
  import opened Jsonrpc
  import opened RecoveryModel
  import opened RecoveryOwnership
  import opened RecoverySafety
  import opened RecoveryPasses
  import opened RecoveryStreams
  import opened RecoveryBounds
  import opened RecoveryProgress
  import opened RecoveryIndex

  // ---------------------------------------------------------------- one invariant

  ghost predicate AllOrderly(s: State) {
    forall i :: 0 <= i < |s.ds| ==> Orderly(s.ds[i])
  }

  /** Before recovery fails nothing is planned on its behalf; a blanket covers snapshot and pending. */
  ghost predicate Blanket(p: Pass, planned: seq<Message>) {
    exists order: seq<string>, text: string ::
      RangeOrder(order, p.snapshot) && planned == Errors(FailIds(order, p.snapshot, p.pending), text)
  }

  ghost predicate Blanketed(s: State) {
    match s.recovery
    case Failing(p, _, _, _) => Blanket(p, s.planned)
    case Unlocking(p, _) => if p.init.Some? then Blanket(p, s.planned) else s.planned == []
    case _ => !Over(s.recovery) ==> s.planned == []
  }

  /** Every dispatcher's stream and phase agree. */
  ghost predicate Shaped(s: State) {
    AllOrderly(s) && PhasesKnown(s)
  }

  /** Who is awake and who may run. */
  ghost predicate Coordinated(s: State) {
    Awake(s) && Excluded(s) && InitKnown(s.recovery) && Blanketed(s)
  }

  /** What a pass handles. */
  ghost predicate Informed(s: State) {
    Sized(s) && DispatchersGenuine(s) && Covered(s) && IdsKnown(s) && FirstAlone(s)
  }

  /** In which order a pass acts. */
  ghost predicate Ordered(s: State) {
    PassesNumbered(s) && HandshakeFirst(s) && SendsInOrder(s)
  }

  ghost predicate Inv(s: State) {
    Coordinated(s) && Shaped(s) && Shuffled(s) && Informed(s) && Ordered(s)
  }

  lemma InitiallyInformed()
    ensures Informed(INITIAL) && Ordered(INITIAL)
  {
    InitiallyOwned();
  }

  lemma InitiallyQuiet()
    ensures Coordinated(INITIAL) && Shaped(INITIAL) && Shuffled(INITIAL)
  {
  }

  lemma Initially()
    ensures Inv(INITIAL)
  {
    InitiallyInformed();
    InitiallyQuiet();
  }

  lemma DKeepsInv(s: State, i: nat, a: DStep)
    requires Inv(s) && i < |s.ds| && DEnabled(s, s.ds[i], a)
    ensures Inv(DApply(s, i, a))
  {
    StepKeepsOwned(s, Dispatch(i, a));
    DKeepsAwake(s, i, a);
    DKeepsShuffled(s, i, a);
    DKeepsOrderly(s, i, a);
    DKeepsGenuine(s, i, a);
    DKeepsNames(s, i, a);
    DKeepsCovered(s, i, a);
    DKeepsHandshake(s, i, a);
    DKeepsOrder(s, i, a);
    DKeepsFirstAlone(s, i, a);
    UnfinishedBefore(s, i, a);
  }

  lemma XKeepsInv(s: State, k: nat, a: XStep)
    requires Inv(s) && k < |s.relays| && XEnabled(s, s.relays[k], a)
    ensures Inv(XApply(s, k, a))
  {
    StepKeepsOwned(s, Copy(k, a));
    XKeepsShuffled(s, k, a);
  }

  lemma RKeepsCoordinated(s: State, a: RStep)
    requires Coordinated(s) && REnabled(s, a)
    ensures Coordinated(RApply(s, a))
  {
    RKeepsAwake(s, a);
  }

  lemma RKeepsShaped(s: State, a: RStep)
    requires Shaped(s) && REnabled(s, a)
    ensures Shaped(RApply(s, a))
  {
  }

  lemma RKeepsInformed(s: State, a: RStep)
    requires Informed(s) && Excluded(s) && REnabled(s, a)
    ensures Informed(RApply(s, a))
  {
    StepKeepsOwned(s, Read(a));
    RKeepsGenuine(s, a);
    RKeepsNames(s, a);
    RKeepsCovered(s, a);
    RKeepsFirstAlone(s, a);
  }

  lemma RKeepsInv(s: State, a: RStep)
    requires Inv(s) && REnabled(s, a)
    ensures Inv(RApply(s, a))
  {
    RKeepsCoordinated(s, a);
    RKeepsShaped(s, a);
    RKeepsShuffled(s, a);
    RKeepsInformed(s, a);
    RKeepsHandshake(s, a);
  }

  lemma CKeepsBlanketed(s: State, a: CStep)
    requires Blanketed(s) && CEnabled(s, a) && InitKnown(s.recovery)
    ensures Blanketed(CApply(s, a))
  {
    if a.CFail? {
      var p := s.recovery.p;
      assert s.planned == [];
      assert RangeOrder(a.order, p.snapshot) &&
        CApply(s, a).planned == Errors(FailIds(a.order, p.snapshot, p.pending), FailText(a.why));
    }
  }

  lemma CKeepsCoordinated(s: State, a: CStep)
    requires Coordinated(s) && CEnabled(s, a)
    ensures Coordinated(CApply(s, a))
  {
    CKeepsAwake(s, a);
    CKeepsExcluded(s, a);
    CKeepsBlanketed(s, a);
  }

  lemma CKeepsShaped(s: State, a: CStep)
    requires Shaped(s) && CEnabled(s, a)
    ensures Shaped(CApply(s, a))
  {
  }

  lemma CKeepsInformed(s: State, a: CStep)
    requires Informed(s) && CEnabled(s, a)
    ensures Informed(CApply(s, a))
  {
    StepKeepsOwned(s, Recover(a));
    CKeepsGenuine(s, a);
    CKeepsNames(s, a);
    CKeepsCovered(s, a);
    CKeepsFirstAlone(s, a);
  }

  lemma CKeepsInv(s: State, a: CStep)
    requires Inv(s) && CEnabled(s, a)
    ensures Inv(CApply(s, a))
  {
    CKeepsCoordinated(s, a);
    CKeepsShaped(s, a);
    CKeepsShuffled(s, a);
    CKeepsInformed(s, a);
    CKeepsNumbers(s, a);
    CKeepsHandshakes(s, a);
    CKeepsOrder(s, a);
  }

  lemma StepKeepsInv(s: State, a: Step)
    requires Inv(s) && Enabled(s, a)
    ensures Inv(Apply(s, a))
  {
    match a
    case Dispatch(i, d) => DKeepsInv(s, i, d);
    case Copy(k, x) => XKeepsInv(s, k, x);
    case Read(r) => RKeepsInv(s, r);
    case Recover(c) => CKeepsInv(s, c);
    case Cancel => StepKeepsOwned(s, Cancel);
  }

  lemma {:induction false} RunKeepsInv(s: State, run: seq<Step>)
    requires Inv(s) && Valid(s, run)
    ensures Inv(Final(s, run))
    decreases |run|
  {
    if run != [] {
      StepKeepsInv(s, run[0]);
      RunKeepsInv(Apply(s, run[0]), run[1..]);
    }
  }

  lemma ReachableInv(s: State)
    requires Reachable(s)
    ensures Inv(s)
  {
    var run: seq<Step> :| Leads(run, s);
    Initially();
    RunKeepsInv(INITIAL, run);
  }

  // ---------------------------------------------------------------- conservation and replies

  /**
   Every accepted request is in exactly one place: with one dispatcher that has not queued it, in
   pendingReplay, in a running pass, at the reader, or - only once recovery has failed - given up.
   */
  lemma OneOwner(s: State, t: nat)
    requires Reachable(s)
    ensures Live(s.ds, t) + Count(s.sh.pendingReplay, t) + Count(Rest(s.recovery), t) + AtReader(s.reader, t) + Count(s.dropped, t)
        == (if t < |s.tokens| then 1 else 0) &&
      (!Over(s.recovery) ==> Count(s.dropped, t) == 0)
  {
    ReachableInv(s);
    assert Owners(s, t) == if t < |s.tokens| then 1 else 0;
  }

  /** The write replies to request t: from one of its dispatchers or from a failing recovery. */
  ghost predicate ReplyTo(s: State, w: Write, t: nat) {
    t < |s.tokens| && w.m.Answers(s.tokens[t].id) &&
    match w.src
    case FromDispatcher(i) => i < |s.ds| && s.ds[i].token == t
    case FromRelay(_) => false
    case FromRecovery => true
  }

  /**
   If every Send channel keeps its contract, then until recovery fails the client is sent at most one
   reply per accepted request, across any number of session losses and replays.
   */
  lemma AtMostOneReply(s: State, t: nat, a: nat, b: nat)
    requires Reachable(s) && ContractKept(s) && !Over(s.recovery)
    requires a < b < |s.out|
    ensures !(ReplyTo(s, s.out[a], t) && ReplyTo(s, s.out[b], t))
  {
    ReachableInv(s);
    if ReplyTo(s, s.out[a], t) && ReplyTo(s, s.out[b], t) {
      NoBlanketYet(s, a);
      NoBlanketYet(s, b);
      TwoRepliesImpossible(s, t, a, b, s.out[a].src.i, s.out[b].src.i);
    }
  }

  lemma DispatcherAnswers(s: State, t: nat, i: nat, a: nat)
    requires DispatchersGenuine(s) && DistinctIds(s.tokens) && NoForeignAnswers(s) && DispatcherSlot(s.out, s.ds, i)
    requires t < |s.tokens| && a < |s.out| && s.out[a].src == FromDispatcher(i) && s.out[a].m.Answers(s.tokens[t].id)
    ensures i < |s.ds| && s.ds[i].token == t
  {
    var p := ProjectPosition(s.out, FromDispatcher(i), a);
    var d := s.ds[i];
    assert Genuine(s.tokens, Ticket(d.token, d.req));
    RepliesFrom(d.req.id, d.received, p);
  }

  lemma RelayAnswersNothing(s: State, t: nat, k: nat, a: nat)
    requires NoForeignAnswers(s) && RelaySlot(s.out, s.relays, k)
    requires t < |s.tokens| && a < |s.out| && s.out[a].src == FromRelay(k)
    ensures !s.out[a].m.Answers(s.tokens[t].id)
  {
    var p := ProjectPosition(s.out, FromRelay(k), a);
    CopiesFrom(s.relays[k].received, p);
  }

  lemma AnswerIsOwn(s: State, t: nat, a: nat)
    requires Inv(s) && DistinctIds(s.tokens) && NoForeignAnswers(s) && !Over(s.recovery)
    requires t < |s.tokens| && a < |s.out| && s.out[a].m.Answers(s.tokens[t].id)
    ensures ReplyTo(s, s.out[a], t)
  {
    match s.out[a].src
    case FromDispatcher(i) =>
      assert DispatcherSlot(s.out, s.ds, i);
      DispatcherAnswers(s, t, i, a);
    case FromRelay(k) =>
      assert RelaySlot(s.out, s.relays, k);
      RelayAnswersNothing(s, t, k, a);
    case FromRecovery => NoBlanketYet(s, a);
  }

  /**
   If moreover ids are distinct and answers arrive only on their request's own channels, then of all Write calls, from
   whatever goroutine, at most one answers a given id.
   */
  lemma AtMostOneReplyPerId(s: State, t: nat, a: nat, b: nat)
    requires Reachable(s) && ContractKept(s) && !Over(s.recovery) && DistinctIds(s.tokens) && NoForeignAnswers(s)
    requires t < |s.tokens| && a < b < |s.out|
    ensures !(s.out[a].m.Answers(s.tokens[t].id) && s.out[b].m.Answers(s.tokens[t].id))
  {
    ReachableInv(s);
    if s.out[a].m.Answers(s.tokens[t].id) && s.out[b].m.Answers(s.tokens[t].id) {
      AnswerIsOwn(s, t, a);
      AnswerIsOwn(s, t, b);
      AtMostOneReply(s, t, a, b);
    }
  }

  lemma NoBlanketYet(s: State, a: nat)
    requires Inv(s) && !Over(s.recovery) && a < |s.out|
    ensures s.out[a].src != FromRecovery
  {
    if s.out[a].src == FromRecovery {
      var p := ProjectPosition(s.out, FromRecovery, a);
    }
  }

  lemma TwoRepliesImpossible(s: State, t: nat, a: nat, b: nat, i: nat, j: nat)
    requires Inv(s) && ContractKept(s) && t < |s.tokens| && a < b < |s.out| && i < |s.ds| && j < |s.ds|
    requires s.out[a].src == FromDispatcher(i) && s.out[b].src == FromDispatcher(j)
    requires s.ds[i].token == t && s.ds[j].token == t
    ensures !(s.out[a].m.Answers(s.tokens[t].id) && s.out[b].m.Answers(s.tokens[t].id))
  {
    assert DispatcherSlot(s.out, s.ds, i) && DispatcherSlot(s.out, s.ds, j);
    assert Genuine(s.tokens, Ticket(s.ds[i].token, s.ds[i].req));
    if !s.ds[i].Holds() {
      GaveAwaySilently(s, i, a);
    } else if !s.ds[j].Holds() {
      GaveAwaySilently(s, j, b);
    } else if i == j {
      OneReplyPerChannel(s, i, a, b);
    } else {
      assert Owners(s, t) <= 1;
      if i < j { LiveTwice(s.ds, i, j); } else { LiveTwice(s.ds, j, i); }
    }
  }

  /**
   The writes made for a dispatcher are exactly the replies to what it was given, in order, up to the point where
   it stopped (or to the message it is about to write); a lost session contributes nothing.
   */
  lemma DispatcherOutput(s: State, i: nat)
    requires Reachable(s) && i < |s.ds|
    ensures var all := Replies(s.ds[i].req.id, s.ds[i].received);
      Project(s.out, FromDispatcher(i)) ==
        if (s.ds[i].phase.Relaying? || s.ds[i].phase.Refusing?) && all != [] then all[..|all| - 1] else all
  {
    ReachableInv(s);
    assert DispatcherSlot(s.out, s.ds, i);
  }

  /** The listener and every forwarder pass on exactly the messages they received, in order. */
  lemma RelayOutput(s: State, k: nat)
    requires Reachable(s) && k < |s.relays|
    ensures var all := Copies(s.relays[k].received);
      Project(s.out, FromRelay(k)) == if s.relays[k].phase.Copying? && all != [] then all[..|all| - 1] else all
  {
    ReachableInv(s);
    assert RelaySlot(s.out, s.relays, k);
  }

  /**
   Recovery writes nothing of its own until it has failed - replayed handshakes stay invisible - and then
   what the failure planned, in order.
   */
  lemma RecoveryOutput(s: State)
    requires Reachable(s)
    ensures Project(s.out, FromRecovery) <= s.planned && (!Over(s.recovery) ==> Project(s.out, FromRecovery) == [])
  {
    ReachableInv(s);
  }

  /** Nothing else reaches the client: every write belongs to a goroutine that exists. */
  lemma NoOtherOutput(s: State, a: nat)
    requires Reachable(s) && a < |s.out|
    ensures match s.out[a].src
      case FromDispatcher(i) => i < |s.ds|
      case FromRelay(k) => k < |s.relays|
      case FromRecovery => Over(s.recovery)
  {
    ReachableInv(s);
    var p := ProjectPosition(s.out, s.out[a].src, a);
    match s.out[a].src
    case FromDispatcher(i) => assert DispatcherSlot(s.out, s.ds, i);
    case FromRelay(k) => assert RelaySlot(s.out, s.relays, k);
    case FromRecovery =>
  }

  // ---------------------------------------------------------------- wake-up and rest

  /** A request waiting for replay is never forgotten while recovery is alive. */
  lemma NoLostWakeup(s: State)
    requires Reachable(s)
    ensures s.sh.pendingReplay != [] && !Over(s.recovery) ==>
        s.sh.trigger || WillGrab(s.recovery) || exists i :: 0 <= i < |s.ds| && Signalling(s.ds[i])
  {
    ReachableInv(s);
  }

  /** No dispatcher and no recovery step can be taken. */
  ghost predicate AtRest(s: State) {
    && (forall i: nat, d: DStep :: i < |s.ds| ==> !Enabled(s, Dispatch(i, d)))
    && (forall c: CStep :: !Enabled(s, Recover(c)))
  }

  lemma RestingDispatcher(s: State, i: nat)
    requires AtRest(s) && i < |s.ds|
    ensures s.ds[i].phase.Done? || s.ds[i].phase.HandedOver?
  {
    assert !Enabled(s, Dispatch(i, DSend(None)));
    assert !Enabled(s, Dispatch(i, DClose));
    assert !Enabled(s, Dispatch(i, DWrite(true)));
    assert !Enabled(s, Dispatch(i, DUnregister));
    assert !Enabled(s, Dispatch(i, DReset));
    assert !Enabled(s, Dispatch(i, DQueue));
    assert !Enabled(s, Dispatch(i, DTrigger));
  }

  lemma RestingRecovery(s: State)
    requires AtRest(s) && InitKnown(s.recovery) && ReplayBounds(s) && !Over(s.recovery) && !ReaderHeld(s.reader)
    ensures s.recovery.Idle? && !s.sh.trigger
  {
    assert !Enabled(s, Recover(CConsume)) && !Enabled(s, Recover(CCount)) && !Enabled(s, Recover(CLock));
    assert !Enabled(s, Recover(CGrab)) && !Enabled(s, Recover(CReset)) && !Enabled(s, Recover(CSendInit));
    assert !Enabled(s, Recover(CSkipNotif)) && !Enabled(s, Recover(CSendNotif)) && !Enabled(s, Recover(CNotifClosed));
    assert !Enabled(s, Recover(CList)) && !Enabled(s, Recover(CSpawn)) && !Enabled(s, Recover(CFinish));
    assert !Enabled(s, Recover(CInitEvent(Message("", "", "", "", NoError))));
  }

  lemma {:induction false} LiveFinder(ds: seq<Dispatcher>, t: nat) returns (i: nat)
    requires Live(ds, t) > 0
    ensures i < |ds| && ds[i].token == t && ds[i].Holds()
  {
    var n := |ds| - 1;
    if LiveOne(ds[n], t) > 0 {
      i := n;
    } else {
      i := LiveFinder(ds[..n], t);
    }
  }

  /**
   The machinery never rests with a request waiting: when no dispatcher and no recovery step is possible,
   recovery has not failed and no message is being accepted, every accepted request has been finished by a dispatcher.
   */
  lemma NothingStranded(s: State, t: nat)
    requires Reachable(s) && AtRest(s)
    requires !Over(s.recovery) && !ReaderHeld(s.reader)
    requires t < |s.tokens|
    ensures exists i :: 0 <= i < |s.ds| && s.ds[i].token == t && s.ds[i].phase.Done?
  {
    ReachableInv(s);
    RestingRecovery(s);
    forall i: nat | i < |s.ds| ensures s.ds[i].phase.Done? || s.ds[i].phase.HandedOver? {
      RestingDispatcher(s, i);
    }
    assert s.sh.pendingReplay == [] && s.dropped == [];
    assert Owners(s, t) == 1;
    var i := LiveFinder(s.ds, t);
  }

  // ---------------------------------------------------------------- bounded replay

  /** What the counting argument needs to know of a state. */
  ghost predicate Countable(s: State) {
    Owned(s) && Excluded(s) && forall i :: 0 <= i < |s.ds| ==> s.ds[i].token < |s.tokens|
  }

  lemma IsCountable(s: State)
    requires Inv(s)
    ensures Countable(s)
  {
    forall i | 0 <= i < |s.ds| ensures s.ds[i].token < |s.tokens| {
      assert Genuine(s.tokens, Ticket(s.ds[i].token, s.ds[i].req));
    }
  }

  lemma StretchGrowth(s: State, run: seq<Step>, end: State)
    requires Valid(s, run) && Final(s, run) == end && NoReset(run) && Countable(s) && Countable(end)
    ensures |end.ds| - |s.ds| <= (1 + Budget(s)) * |end.tokens|
  {
    StretchSends(s, run, 0);
    forall t: nat | t < |end.tokens| ensures Tries(end.ds, t) - Tries(s.ds, t) <= 1 + Budget(s) {
      StretchRetries(s, run, t);
    }
    GrowthBounded(s.ds, end.ds, |end.tokens|, 1 + Budget(s));
  }

  /**
   In any stretch without a reset, from any reachable state, N accepted requests cause at most 4N sends, and as many
   more per request as a pass admitted with the counter at zero allows: one.
   */
  lemma StretchTotal(s: State, run: seq<Step>, end: State)
    requires Reachable(s) && Valid(s, run) && Final(s, run) == end && NoReset(run)
    ensures |end.ds| - |s.ds| <= (1 + Budget(s)) * |end.tokens|
    ensures !(s.recovery.Admitted? && s.sh.attempts == 0) ==> |end.ds| - |s.ds| <= (1 + MAX_RECOVERY_ATTEMPTS) * |end.tokens|
  {
    ReachableInv(s);
    RunKeepsInv(s, run);
    IsCountable(s);
    IsCountable(end);
    StretchGrowth(s, run, end);
    Scales(1 + Budget(s), 1 + MAX_RECOVERY_ATTEMPTS, |end.tokens|);
  }

  lemma Scales(a: nat, b: nat, n: nat)
    ensures a <= b ==> a * n <= b * n
  {
  }

  /** With no final response at all: at most three passes, and at most four sends per accepted request. */
  lemma BoundedReplay(run: seq<Step>, s: State)
    requires Leads(run, s) && NoReset(run)
    ensures s.passes <= 3 && |s.ds| <= 4 * |s.tokens|
  {
    StretchPasses(INITIAL, run);
    assert Leads([], INITIAL);
    StretchTotal(INITIAL, run, s);
  }

  /** Steps the machinery takes on its own account. */
  ghost function Work(run: seq<Step>): nat {
    if run == [] then 0 else (if FromOutside(run[0]) then 0 else 1) + Work(run[1..])
  }

  /** What the outside gave the machinery to do, final responses included. */
  ghost function Gifts(s: State, run: seq<Step>): nat
    requires Valid(s, run)
    decreases |run|
  {
    if run == [] then 0 else Gift(s, run[0]) + Gifts(Apply(s, run[0]), run[1..])
  }

  /**
   Over every run the dispatchers and the recovery goroutine take at most a bounded number of steps per accepted
   request, received message and final response, whatever the listener and the forwarders do.
   */
  lemma {:induction false} WorkIsBounded(s: State, run: seq<Step>)
    requires Inv(s) && Valid(s, run)
    ensures Work(run) + Potential(Final(s, run)) <= Potential(s) + Gifts(s, run)
    decreases |run|
  {
    if run != [] {
      StepPays(s, run[0]);
      StepKeepsInv(s, run[0]);
      WorkIsBounded(Apply(s, run[0]), run[1..]);
    }
  }

  // ---------------------------------------------------------------- replay order

  /**
   Every Send of a replayed request is preceded, among the actions of the pass that replayed it, by a
   session reset, the captured initialize, a response to it with the same id and no error and, if an initialized
   notification had been captured, that notification sent and its channel drained - in this order.
   */
  lemma ReplayAfterHandshake(s: State, q: nat)
    requires Reachable(s) && q < |s.log|
    requires s.log[q].Sent? && s.log[q].i < |s.ds| && s.ds[s.log[q].i].origin.Replay?
    ensures Handshake(Of(s.log[..q], s.ds[s.log[q].i].origin.pass))
  {
    ReachableInv(s);
  }

  // ---------------------------------------------------------------- failed passes

  /** When a replay step fails, everything in inFlight was already in the pass's snapshot. */
  lemma NothingSlipsIn(s: State, order: seq<string>, why: string)
    requires Reachable(s) && Enabled(s, Recover(CFail(order, why)))
    ensures Within(s.sh.inFlight, s.recovery.p.snapshot)
  {
    ReachableInv(s);
    SnapshotCovers(s);
  }

  lemma SnapshotCovers(s: State)
    requires Covered(s) && MayFail(s.recovery)
    ensures Within(s.sh.inFlight, s.recovery.p.snapshot)
  {
  }

  lemma {:induction false} EmitAllExact(seen: seq<string>, ids: seq<string>)
    requires NoDup(seen) && "" !in seen
    ensures NoDup(EmitAll(seen, ids)) && "" !in EmitAll(seen, ids)
    ensures forall id :: id in EmitAll(seen, ids) <==> id in seen || (id in ids && id != "")
  {
    if ids != [] {
      var n := |ids| - 1;
      EmitAllExact(seen, ids[..n]);
      assert ids == ids[..n] + [ids[n]];
    }
  }

  /** failAllPending reports each id of snapshot and pending once, whatever order Go ranges in. */
  lemma FailIdsExact(order: seq<string>, snapshot: map<string, Message>, pending: seq<Ticket>)
    requires RangeOrder(order, snapshot) && Keyed(snapshot)
    ensures NoDup(FailIds(order, snapshot, pending))
    ensures forall id :: id in FailIds(order, snapshot, pending) <==>
      id in snapshot || (id != "" && id in TicketIds(pending))
  {
    EmitAllExact([], SnapshotIds(order, snapshot));
    EmitAllExact(EmitAll([], SnapshotIds(order, snapshot)), TicketIds(pending));
    assert SnapshotIds(order, snapshot) == order;
  }

  /** The list is one -32000 error response per id, each id once. */
  ghost predicate OneErrorEach(ms: seq<Message>, ids: iset<string>) {
    && (forall a, b :: 0 <= a < b < |ms| ==> ms[a].id != ms[b].id)
    && (forall a :: 0 <= a < |ms| ==> ms[a].id in ids && ms[a].error.RpcError? && ms[a].error.code == -32000)
    && (forall id :: id in ids ==> exists a :: 0 <= a < |ms| && ms[a].id == id)
  }

  /** The ids a failed pass answers for. */
  ghost function Answerable(p: Pass): iset<string> {
    iset id | id in p.snapshot || (id != "" && id in TicketIds(p.pending))
  }

  lemma BlanketExact(p: Pass, planned: seq<Message>)
    requires Blanket(p, planned) && Keyed(p.snapshot)
    ensures OneErrorEach(planned, Answerable(p))
  {
    var order: seq<string>, text: string :| RangeOrder(order, p.snapshot) && planned == Errors(FailIds(order, p.snapshot, p.pending), text);
    var ids := FailIds(order, p.snapshot, p.pending);
    FailIdsExact(order, p.snapshot, p.pending);
    forall id | id in Answerable(p) ensures exists a :: 0 <= a < |planned| && planned[a].id == id {
      assert id in ids;
      var a :| 0 <= a < |ids| && ids[a] == id;
      assert planned[a].id == id;
    }
  }

  /** The ids a failing pass reports: none if it stopped for want of a captured initialize. */
  ghost function Reportable(p: Pass): iset<string> {
    if p.init.Some? then Answerable(p) else iset{}
  }

  /**
   A pass that failed in a replay step has, before it lets go of recoveryMu, written exactly one error for every
   distinct id of its snapshot and its pending requests, and left inFlight empty. A pass that found no captured
   initialize has written nothing at all, although it has already taken the pending requests.
   */
  lemma FailedPassCoverage(s: State)
    requires Reachable(s) && s.recovery.Unlocking?
    ensures OneErrorEach(Project(s.out, FromRecovery), Reportable(s.recovery.p)) &&
      (s.recovery.p.init.Some? ==> s.sh.inFlight == map[])
  {
    ReachableInv(s);
    assert Project(s.out, FromRecovery) == s.planned;
    if s.recovery.p.init.Some? {
      BlanketExact(s.recovery.p, s.planned);
    }
  }

  /**
   failAndShutdown plans one error for every distinct id in inFlight and pendingReplay at that moment, and by the
   time recovery has halted everything ever planned has been written.
   */
  lemma ShutdownCoverage(s: State, order: seq<string>)
    requires Reachable(s) && Enabled(s, Recover(CShutdown(order)))
    ensures var s' := Apply(s, Recover(CShutdown(order)));
      var rest := Pass(0, None, None, s.sh.pendingReplay, s.sh.inFlight);
      s.planned <= s'.planned && OneErrorEach(s'.planned[|s.planned|..], Answerable(rest)) &&
      s'.sh.pendingReplay == [] && s'.sh.failure.Some?
  {
    ReachableInv(s);
    ShutdownPlans(s, order);
  }

  lemma ShutdownPlans(s: State, order: seq<string>)
    requires CEnabled(s, CShutdown(order)) && Keyed(s.sh.inFlight)
    ensures var s' := CApply(s, CShutdown(order));
      var rest := Pass(0, None, None, s.sh.pendingReplay, s.sh.inFlight);
      s.planned <= s'.planned && OneErrorEach(s'.planned[|s.planned|..], Answerable(rest)) &&
      s'.sh.pendingReplay == [] && s'.sh.failure.Some?
  {
    var rest := Pass(0, None, None, s.sh.pendingReplay, s.sh.inFlight);
    var more := Errors(FailIds(order, s.sh.inFlight, s.sh.pendingReplay), FailText(s.recovery.cause));
    assert (s.planned + more)[|s.planned|..] == more;
    BlanketErrors(rest, order, FailText(s.recovery.cause));
  }

  lemma BlanketErrors(p: Pass, order: seq<string>, text: string)
    requires RangeOrder(order, p.snapshot) && Keyed(p.snapshot)
    ensures OneErrorEach(Errors(FailIds(order, p.snapshot, p.pending), text), Answerable(p))
  {
    assert Blanket(p, Errors(FailIds(order, p.snapshot, p.pending), text));
    BlanketExact(p, Errors(FailIds(order, p.snapshot, p.pending), text));
  }

  /** A failed pass and a shutdown leave inFlight empty when they have written their errors. */
  lemma ReportingClears(s: State)
    requires Reachable(s) && Enabled(s, Recover(CClear))
    ensures Apply(s, Recover(CClear)).sh.inFlight == map[] && Project(s.out, FromRecovery) == s.planned
  {
    ReachableInv(s);
    assert Project(s.out, FromRecovery) + [] == s.planned;
  }

  lemma HaltedMeansWritten(s: State)
    requires Reachable(s) && s.recovery.Halted?
    ensures Project(s.out, FromRecovery) == s.planned
  {
    ReachableInv(s);
    assert Project(s.out, FromRecovery) + [] == s.planned;
  }

  // ---------------------------------------------------------------- counters and captures

  /** The number of triggers taken since the last final response, read off the schedule. */
  ghost function TriggersSinceReply(run: seq<Step>, before: nat): nat {
    if run == [] then before
    else TriggersSinceReply(run[1..],
      if run[0] == Recover(CCount) then before + 1 else if IsReset(run[0]) then 0 else before)
  }

  lemma {:induction false} AttemptsAreCounted(s: State, run: seq<Step>)
    requires Valid(s, run)
    ensures Final(s, run).sh.attempts == TriggersSinceReply(run, s.sh.attempts)
    decreases |run|
  {
    if run != [] {
      AttemptsAreCounted(Apply(s, run[0]), run[1..]);
    }
  }

  /** The latest accepted initialize request. */
  ghost function LastInitialize(tokens: seq<Message>): Option<Message> {
    if tokens == [] then None
    else if tokens[|tokens| - 1].verb == METHOD_INITIALIZE then Some(tokens[|tokens| - 1])
    else LastInitialize(tokens[..|tokens| - 1])
  }

  /** The latest forwarded initialized notification. */
  ghost function LastInitialized(relays: seq<Relay>): Option<Message> {
    if relays == [] then None
    else if IsInitialized(relays[|relays| - 1].kind) then Some(relays[|relays| - 1].kind.m)
    else LastInitialized(relays[..|relays| - 1])
  }

  predicate IsInitialized(k: RelayKind) {
    k.Forward? && k.m.IsNotification() && k.m.verb == METHOD_INITIALIZED
  }

  /** What the reader has captured but not yet accepted or forwarded counts already. */
  ghost predicate Captures(s: State) {
    && s.sh.firstInitialize == (if s.reader.Captured? && s.reader.m.IsRequest() && s.reader.m.verb == METHOD_INITIALIZE
                                then Some(s.reader.m) else LastInitialize(s.tokens))
    && s.sh.initializedNotif == (if s.reader.Captured? && IsInitialized(Forward(s.reader.m))
                                 then Some(s.reader.m) else LastInitialized(s.relays))
  }

  lemma {:induction false} UpdateKeepsLast(relays: seq<Relay>, k: nat, r: Relay)
    requires k < |relays| && r.kind == relays[k].kind
    ensures LastInitialized(relays[k := r]) == LastInitialized(relays)
  {
    var n := |relays| - 1;
    if k == n {
      assert relays[k := r][..n] == relays[..n];
    } else {
      UpdateKeepsLast(relays[..n], k, r);
      assert relays[k := r][..n] == relays[..n][k := r];
    }
  }

  lemma CaptureKeepsCaptures(s: State)
    requires Captures(s) && REnabled(s, RCapture)
    ensures Captures(RApply(s, RCapture))
  {
  }

  lemma RegisterKeepsCaptures(s: State)
    requires Captures(s) && REnabled(s, RRegister)
    ensures Captures(RApply(s, RRegister))
  {
    LastInitializeGrows(s.tokens, s.reader.m);
  }

  lemma LastInitializeGrows(tokens: seq<Message>, m: Message)
    ensures LastInitialize(tokens + [m]) == if m.verb == METHOD_INITIALIZE then Some(m) else LastInitialize(tokens)
  {
    assert (tokens + [m])[..|tokens|] == tokens;
  }

  lemma LastInitializedGrows(relays: seq<Relay>, r: Relay)
    ensures LastInitialized(relays + [r]) == if IsInitialized(r.kind) then Some(r.kind.m) else LastInitialized(relays)
  {
    assert (relays + [r])[..|relays|] == relays;
  }

  lemma SpawnKeepsCaptures(s: State)
    requires Captures(s) && REnabled(s, RSpawn)
    ensures Captures(RApply(s, RSpawn))
  {
    if s.reader.Captured? {
      LastInitializedGrows(s.relays, Relay(Forward(s.reader.m), Opening, []));
    }
  }

  lemma RKeepsCaptures(s: State, a: RStep)
    requires Captures(s) && REnabled(s, a)
    ensures Captures(RApply(s, a))
  {
    match a
    case RCapture => CaptureKeepsCaptures(s);
    case RRegister => RegisterKeepsCaptures(s);
    case RSpawn => SpawnKeepsCaptures(s);
    case _ =>
  }

  lemma RecoveryCapturesNothing(s: State, a: CStep)
    requires CEnabled(s, a)
    ensures CApply(s, a).sh.firstInitialize == s.sh.firstInitialize
    ensures CApply(s, a).sh.initializedNotif == s.sh.initializedNotif
    ensures CApply(s, a).reader == s.reader && CApply(s, a).tokens == s.tokens && CApply(s, a).relays == s.relays
  {
  }

  lemma StepKeepsCaptures(s: State, a: Step)
    requires Captures(s) && Enabled(s, a)
    ensures Captures(Apply(s, a))
  {
    match a
    case Dispatch(i, d) =>
    case Copy(k, x) => UpdateKeepsLast(s.relays, k, XNext(s, s.relays[k], x));
    case Read(r) => RKeepsCaptures(s, r);
    case Recover(c) => RecoveryCapturesNothing(s, c);
    case Cancel =>
  }

  lemma {:induction false} RunKeepsCaptures(s: State, run: seq<Step>)
    requires Captures(s) && Valid(s, run)
    ensures Captures(Final(s, run))
    decreases |run|
  {
    if run != [] {
      StepKeepsCaptures(s, run[0]);
      RunKeepsCaptures(Apply(s, run[0]), run[1..]);
    }
  }

  /** Recovery replays the client's latest initialize and its latest initialized notification. */
  lemma LatestCaptured(s: State)
    requires Reachable(s)
    ensures Captures(s)
  {
    var run: seq<Step> :| Leads(run, s);
    RunKeepsCaptures(INITIAL, run);
  }

  // ---------------------------------------------------------------- the inFlight index

  lemma {:induction false} TokensGrow(s: State, run: seq<Step>)
    requires Valid(s, run)
    ensures s.tokens <= Final(s, run).tokens
    decreases |run|
  {
    if run != [] {
      assert s.tokens <= Apply(s, run[0]).tokens;
      TokensGrow(Apply(s, run[0]), run[1..]);
    }
  }

  lemma StepKeepsIndexed(s: State, a: Step, replaysToo: bool)
    requires Inv(s) && Enabled(s, a) && Indexed(s, replaysToo) && DistinctIds(Apply(s, a).tokens)
    requires replaysToo ==> !LateDelete(s, a)
    ensures Indexed(Apply(s, a), replaysToo)
  {
    assert s.tokens <= Apply(s, a).tokens;
    match a
    case Dispatch(i, d) => DKeepsIndexed(s, i, d, replaysToo);
    case Copy(k, x) =>
    case Read(r) => RKeepsIndexed(s, r, replaysToo);
    case Recover(c) => CKeepsIndexed(s, c, replaysToo);
    case Cancel =>
  }

  /** No step of the run is a late delete. */
  ghost predicate NeverLate(s: State, run: seq<Step>)
    requires Valid(s, run)
    decreases |run|
  {
    run == [] || (!LateDelete(s, run[0]) && NeverLate(Apply(s, run[0]), run[1..]))
  }

  /** In every state along the run inFlight lists every unfinished attempt. */
  ghost predicate AlwaysIndexed(s: State, run: seq<Step>)
    requires Valid(s, run)
    decreases |run|
  {
    Indexed(s, true) && (run == [] || AlwaysIndexed(Apply(s, run[0]), run[1..]))
  }

  lemma {:induction false} RunKeepsIndexed(s: State, run: seq<Step>, replaysToo: bool)
    requires Inv(s) && Valid(s, run) && Indexed(s, replaysToo) && DistinctIds(Final(s, run).tokens)
    requires replaysToo ==> NeverLate(s, run)
    ensures Indexed(Final(s, run), replaysToo)
    decreases |run|
  {
    if run != [] {
      TokensGrow(Apply(s, run[0]), run[1..]);
      StepKeepsInv(s, run[0]);
      StepKeepsIndexed(s, run[0], replaysToo);
      RunKeepsIndexed(Apply(s, run[0]), run[1..], replaysToo);
    }
  }

  /** With distinct ids, a first attempt without a final response is listed in inFlight until recovery fails. */
  lemma FirstAttemptsListed(s: State, i: nat)
    requires Reachable(s) && DistinctIds(s.tokens) && !Over(s.recovery)
    requires i < |s.ds| && Unfinished(s.ds[i]) && s.ds[i].origin.FirstSend?
    ensures Listed(s.sh.inFlight, s.ds[i].req)
  {
    var run: seq<Step> :| Leads(run, s);
    Initially();
    RunKeepsIndexed(INITIAL, run, false);
    assert Trusted(s.ds[i], false);
  }

  /** A step from a complete index leaves it complete if and only if it is no late delete. */
  lemma StepBreaksExactly(s: State, a: Step)
    requires Inv(s) && Enabled(s, a) && DistinctIds(Apply(s, a).tokens) && Indexed(s, true)
    ensures Indexed(Apply(s, a), true) <==> !LateDelete(s, a)
  {
    if LateDelete(s, a) {
      var t: nat :| Overlap(s, a.i, t);
      OverlapBreaks(s, a.i, t);
    } else {
      StepKeepsIndexed(s, a, true);
    }
  }

  /**
   The index breaks exactly at overlaps: while it lists every unfinished attempt, some step can make it miss one
   if and only if an old attempt has yet to delete its entry and the request is listed again.
   */
  lemma BreaksExactly(s: State)
    requires Reachable(s) && DistinctIds(s.tokens) && !Over(s.recovery) && Indexed(s, true)
    ensures (exists a: Step :: Breaks(s, a)) <==> Overlapped(s)
  {
    ReachableInv(s);
    if Overlapped(s) {
      var i: nat, t: nat :| Overlap(s, i, t);
      OverlapBreaks(s, i, t);
    } else {
      forall a: Step | Enabled(s, a) && DistinctIds(Apply(s, a).tokens) ensures Indexed(Apply(s, a), true) {
        StepBreaksExactly(s, a);
      }
    }
  }

  lemma {:induction false} RunBreaksExactly(s: State, run: seq<Step>)
    requires Inv(s) && Valid(s, run) && Indexed(s, true) && DistinctIds(Final(s, run).tokens)
    ensures AlwaysIndexed(s, run) <==> NeverLate(s, run)
    decreases |run|
  {
    if run != [] {
      var s1 := Apply(s, run[0]);
      TokensGrow(s1, run[1..]);
      StepKeepsInv(s, run[0]);
      StepBreaksExactly(s, run[0]);
      if Indexed(s1, true) {
        RunBreaksExactly(s1, run[1..]);
      }
    }
  }

  /** With distinct ids, inFlight is complete all along a run if and only if the run contains no late delete. */
  lemma IndexedExactly(run: seq<Step>, s: State)
    requires Leads(run, s) && DistinctIds(s.tokens)
    ensures AlwaysIndexed(INITIAL, run) <==> NeverLate(INITIAL, run)
  {
    Initially();
    RunBreaksExactly(INITIAL, run);
  }

  /** Replayed attempts are listed as well after every run without a late delete. */
  lemma ReplaysListed(run: seq<Step>, s: State, i: nat)
    requires Leads(run, s) && NeverLate(INITIAL, run) && DistinctIds(s.tokens) && !Over(s.recovery)
    requires i < |s.ds| && Unfinished(s.ds[i])
    ensures Listed(s.sh.inFlight, s.ds[i].req)
  {
    Initially();
    RunKeepsIndexed(INITIAL, run, true);
    assert Trusted(s.ds[i], true);
  }
}
