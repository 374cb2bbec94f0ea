/**
 When a failed recovery leaves requests without a word. A pass that finds no captured initialize has already taken
 the pending requests when it gives up (internal/proxy/proxy.go:563-576); every other request it gives up is reported.
 So from a state between two passes every request given up is reported, on every run, exactly if an initialize request
 has been captured.
 */
module RecoverySilence {
  import opened Prelude
  import opened Jsonrpc
  import opened RecoveryModel
  import opened RecoverySafety
  import opened RecoveryPasses
  import opened RecoveryTheorems
  import opened RecoveryFourthPass

  /** The requests a step takes away without reporting them. */
  ghost function Hushed(s: State, a: Step): seq<Ticket> {
    if a == Recover(CGrab) && s.sh.firstInitialize.None? then s.sh.pendingReplay else []
  }

  /** The requests that passes without a captured initialize took away along the run. */
  ghost function Silenced(s: State, run: seq<Step>): seq<Ticket>
    requires Valid(s, run)
    decreases |run|
  {
    if run == [] then [] else Hushed(s, run[0]) + Silenced(Apply(s, run[0]), run[1..])
  }

  // ---------------------------------------------------------------- everything else is reported

  ghost predicate Names(planned: seq<Message>, id: string) {
    exists a :: 0 <= a < |planned| && IsErrorFor(planned[a], id)
  }

  predicate IsErrorFor(m: Message, id: string) {
    m.id == id && m.error.RpcError? && m.error.code == -32000
  }

  ghost predicate Accounted(dropped: seq<Ticket>, planned: seq<Message>, silent: seq<Ticket>) {
    forall k :: 0 <= k < |dropped| ==> dropped[k] in silent || Names(planned, dropped[k].req.id)
  }

  lemma NamesGrow(planned: seq<Message>, more: seq<Message>, id: string)
    requires Names(planned, id) || Names(more, id)
    ensures Names(planned + more, id)
  {
    if Names(planned, id) {
      var a :| 0 <= a < |planned| && IsErrorFor(planned[a], id);
      assert IsErrorFor((planned + more)[a], id);
    } else {
      var a :| 0 <= a < |more| && IsErrorFor(more[a], id);
      assert IsErrorFor((planned + more)[|planned| + a], id);
    }
  }

  lemma AccountedGrows(
      dropped: seq<Ticket>, planned: seq<Message>, silent: seq<Ticket>,
      lost: seq<Ticket>, more: seq<Message>, hushed: seq<Ticket>)
    requires Accounted(dropped, planned, silent) && Accounted(lost, more, hushed)
    ensures Accounted(dropped + lost, planned + more, silent + hushed)
  {
    forall k | 0 <= k < |dropped + lost|
      ensures (dropped + lost)[k] in silent + hushed || Names(planned + more, (dropped + lost)[k].req.id)
    {
      var t := (dropped + lost)[k];
      if t !in silent + hushed {
        NamesGrow(planned, more, t.req.id);
      }
    }
  }

  /** A blanket report names every pending request. */
  lemma BlanketNames(tokens: seq<Message>, order: seq<string>, snapshot: map<string, Message>, pending: seq<Ticket>, text: string)
    requires RangeOrder(order, snapshot) && Keyed(snapshot) && AllGenuine(tokens, pending)
    requires forall t :: 0 <= t < |tokens| ==> tokens[t].IsRequest()
    ensures Accounted(pending, Errors(FailIds(order, snapshot, pending), text), [])
  {
    var ids := FailIds(order, snapshot, pending);
    FailIdsExact(order, snapshot, pending);
    forall k | 0 <= k < |pending| ensures Names(Errors(ids, text), pending[k].req.id) {
      assert Genuine(tokens, pending[k]) && pending[k].req.HasId();
      assert TicketIds(pending)[k] == pending[k].req.id;
      assert pending[k].req.id in ids;
      var a :| 0 <= a < |ids| && ids[a] == pending[k].req.id;
      assert IsErrorFor(Errors(ids, text)[a], pending[k].req.id);
    }
  }

  lemma FailureAccounts(s: State, a: CStep, silent: seq<Ticket>)
    requires ElsewhereGenuine(s) && IdsKnown(s) && CEnabled(s, a) && Accounted(s.dropped, s.planned, silent)
    ensures Accounted(CApply(s, a).dropped, CApply(s, a).planned, silent + Hushed(s, Recover(a)))
  {
    match a
    case CFail(order, why) =>
      var p := s.recovery.p;
      BlanketNames(s.tokens, order, p.snapshot, p.pending, FailText(why));
      AccountedGrows(s.dropped, s.planned, silent, p.pending, Errors(FailIds(order, p.snapshot, p.pending), FailText(why)), []);
    case CShutdown(order) =>
      var q, text := s.sh.pendingReplay, FailText(s.recovery.cause);
      BlanketNames(s.tokens, order, s.sh.inFlight, q, text);
      AccountedGrows(s.dropped, s.planned, silent, q, Errors(FailIds(order, s.sh.inFlight, q), text), []);
    case CGrab =>
    case _ =>
  }

  lemma StepAccounts(s: State, a: Step, silent: seq<Ticket>)
    requires ElsewhereGenuine(s) && IdsKnown(s) && Enabled(s, a) && Accounted(s.dropped, s.planned, silent)
    ensures Accounted(Apply(s, a).dropped, Apply(s, a).planned, silent + Hushed(s, a))
  {
    match a
    case Recover(c) => FailureAccounts(s, c, silent);
    case Dispatch(_, _) =>
    case Copy(_, _) =>
    case Read(_) =>
    case Cancel =>
  }

  lemma {:induction false} RunAccounts(s: State, run: seq<Step>, silent: seq<Ticket>)
    requires Inv(s) && Valid(s, run) && Accounted(s.dropped, s.planned, silent)
    ensures Accounted(Final(s, run).dropped, Final(s, run).planned, silent + Silenced(s, run))
    decreases |run|
  {
    if run == [] {
      assert silent + [] == silent;
    } else {
      StepAccounts(s, run[0], silent);
      StepKeepsInv(s, run[0]);
      RunAccounts(Apply(s, run[0]), run[1..], silent + Hushed(s, run[0]));
      Assoc(silent, Hushed(s, run[0]), Silenced(Apply(s, run[0]), run[1..]));
    }
  }

  lemma {:induction false} WriteOf(out: seq<Write>, src: Source, p: nat) returns (a: nat)
    requires p < |Project(out, src)|
    ensures a < |out| && out[a].src == src && out[a].m == Project(out, src)[p]
  {
    var n := |out| - 1;
    if p < |Project(out[..n], src)| {
      a := WriteOf(out[..n], src, p);
    } else {
      a := n;
    }
  }

  /** Recovery has made a Write call with an error for this id. */
  ghost predicate ErrorWritten(out: seq<Write>, id: string) {
    exists a :: 0 <= a < |out| && out[a].src == FromRecovery && IsErrorFor(out[a].m, id)
  }

  lemma NamedIsWritten(out: seq<Write>, planned: seq<Message>, id: string)
    requires Project(out, FromRecovery) == planned && Names(planned, id)
    ensures ErrorWritten(out, id)
  {
    var p :| 0 <= p < |planned| && IsErrorFor(planned[p], id);
    var a := WriteOf(out, FromRecovery, p);
  }

  lemma DroppedAccounted(run: seq<Step>, s: State)
    requires Leads(run, s)
    ensures Accounted(s.dropped, s.planned, Silenced(INITIAL, run))
  {
    Initially();
    RunAccounts(INITIAL, run, []);
    assert [] + Silenced(INITIAL, run) == Silenced(INITIAL, run);
  }

  /**
   When the recovery goroutine has returned, a Write call with an error was made for every request it gave up, except
   those taken by a pass that had no captured initialize.
   */
  lemma GivenUpIsReported(run: seq<Step>, s: State, k: nat)
    requires Leads(run, s) && s.recovery.Halted? && k < |s.dropped|
    ensures s.dropped[k] in Silenced(INITIAL, run) || ErrorWritten(s.out, s.dropped[k].req.id)
  {
    DroppedAccounted(run, s);
    HaltedMeansWritten(s);
    if s.dropped[k] !in Silenced(INITIAL, run) {
      NamedIsWritten(s.out, s.planned, s.dropped[k].req.id);
    }
  }

  /** Once an initialize is captured no request is taken away in silence. */
  lemma {:induction false} CapturedMeansReported(s: State, run: seq<Step>)
    requires Valid(s, run) && s.sh.firstInitialize.Some?
    ensures Silenced(s, run) == []
    decreases |run|
  {
    if run != [] {
      CaptureStays(s, run[0]);
      CapturedMeansReported(Apply(s, run[0]), run[1..]);
    }
  }

  lemma CaptureStays(s: State, a: Step)
    requires Enabled(s, a) && s.sh.firstInitialize.Some?
    ensures Apply(s, a).sh.firstInitialize.Some?
  {
    match a
    case Recover(c) => RecoveryCapturesNothing(s, c);
    case Dispatch(_, _) =>
    case Copy(_, _) =>
    case Read(_) =>
    case Cancel =>
  }

  // ---------------------------------------------------------------- the exact condition

  /** After every run from s that ends with recovery over and done, each request given up has been reported. */
  ghost predicate AllReported(s: State) {
    forall run: seq<Step> :: Valid(s, run) ==> Reported(Final(s, run))
  }

  ghost predicate Reported(s: State) {
    s.recovery.Halted? ==> forall k :: 0 <= k < |s.dropped| ==> ErrorWritten(s.out, s.dropped[k].req.id)
  }

  /** With an initialize captured, nothing is given up without a report from here on. */
  lemma CapturedSuffices(s: State)
    requires Reachable(s) && !Over(s.recovery) && s.sh.firstInitialize.Some?
    ensures AllReported(s)
  {
    ReachableInv(s);
    forall run: seq<Step> | Valid(s, run) ensures Reported(Final(s, run)) {
      var end := Final(s, run);
      RunAccounts(s, run, []);
      CapturedMeansReported(s, run);
      LeadsOn(s, run);
      if end.recovery.Halted? {
        HaltedMeansWritten(end);
        forall k | 0 <= k < |end.dropped| ensures ErrorWritten(end.out, end.dropped[k].req.id) {
          NamedIsWritten(end.out, end.planned, end.dropped[k].req.id);
        }
      }
    }
  }

  lemma LeadsOn(s: State, run: seq<Step>)
    requires Reachable(s) && Valid(s, run)
    ensures Reachable(Final(s, run))
  {
    var before: seq<Step> :| Leads(before, s);
    Joins(INITIAL, before, run);
    assert Leads(before + run, Final(s, run));
  }

  /** Without a captured initialize there has been no successful pass, and no attempt has been counted before the first. */
  ghost predicate NoPassYet(s: State) {
    s.sh.firstInitialize.None? ==>
      && (s.recovery.Idle? || s.recovery.Consumed? ==> s.sh.attempts == 0)
      && (PassOf(s.recovery).Some? ==> s.recovery.Unlocking?)
  }

  lemma RecoveryKeepsNoPass(s: State, a: CStep)
    requires NoPassYet(s) && CEnabled(s, a)
    ensures NoPassYet(CApply(s, a))
  {
  }

  lemma {:induction false} RunKeepsNoPass(s: State, run: seq<Step>)
    requires NoPassYet(s) && Valid(s, run)
    ensures NoPassYet(Final(s, run))
    decreases |run|
  {
    if run != [] {
      match run[0] {
        case Recover(c) => RecoveryKeepsNoPass(s, c);
        case Dispatch(_, _) =>
        case Copy(_, _) =>
        case Read(_) =>
        case Cancel =>
      }
      RunKeepsNoPass(Apply(s, run[0]), run[1..]);
    }
  }

  /** The proxy is between two passes, and no message is being accepted. */
  ghost predicate Between(s: State) {
    (s.recovery.Idle? || s.recovery.Consumed? || s.recovery.Admitted?) && s.reader.Waiting? && s.sh.failure.None?
  }

  /** Recovery takes the signal, if it has not, and counts its first attempt, if it has not. */
  lemma FirstAttempt(s: State) returns (t: State)
    requires (s.recovery.Idle? && s.sh.trigger) || s.recovery.Consumed? || s.recovery.Admitted?
    requires s.recovery.Admitted? || s.sh.attempts == 0
    ensures Reaches(s, t) && t.recovery.Admitted? && t.reader == s.reader && t.out == s.out
    ensures t.sh.(trigger := false, attempts := 0) == s.sh.(trigger := false, attempts := 0)
  {
    Stays(s);
    t := s;
    if t.recovery.Idle? {
      Goes(s, t, Recover(CConsume));
      t := Apply(t, Recover(CConsume));
    }
    if t.recovery.Consumed? {
      Goes(s, t, Recover(CCount));
      t := Apply(t, Recover(CCount));
    }
  }

  /** The next request loses its session, and a pass is admitted. */
  lemma Orphans(s: State) returns (t: State)
    requires Between(s) && s.sh.firstInitialize.None? && NoPassYet(s)
    ensures Reaches(s, t) && t.recovery.Admitted? && t.reader.Waiting? && t.sh.firstInitialize.None?
    ensures t.sh.pendingReplay == s.sh.pendingReplay + [Ticket(|s.tokens|, CALL)]
    ensures t.sh.inFlight == s.sh.inFlight - {CALL.id} && t.out == s.out
  {
    var a := AcceptsCall(s);
    var b := DispatcherLoses(a, |s.ds|);
    t := FirstAttempt(b);
    Chains(s, a, b);
    Chains(s, b, t);
    AddThenRemove(s.sh.inFlight, CALL.id, CALL);
  }

  lemma AddThenRemove(m: map<string, Message>, id: string, req: Message)
    ensures m[id := req] - {id} == m - {id}
  {
  }

  lemma GivesUp(s: State) returns (t: State)
    requires s.recovery.Admitted? && s.reader.Waiting? && s.sh.firstInitialize.None?
    ensures Reaches(s, t) && t.recovery == Aborting(NO_INITIALIZE) && t.dropped == s.dropped + s.sh.pendingReplay
    ensures t.sh == s.sh.TakePending() && t.out == s.out
  {
    Stays(s);
    Goes(s, s, Recover(CLock));
    t := Apply(s, Recover(CLock));
    Goes(s, t, Recover(CGrab));
    t := Apply(t, Recover(CGrab));
    Goes(s, t, Recover(CUnlock));
    t := Apply(t, Recover(CUnlock));
  }

  lemma {:induction false} SomeRangeOrder(m: map<string, Message>) returns (order: seq<string>)
    ensures RangeOrder(order, m)
    decreases |m|
  {
    if m == map[] {
      order := [];
    } else {
      var k :| k in m;
      var rest := SomeRangeOrder(m - {k});
      order := rest + [k];
    }
  }

  /** What recovery has written since s names only the given ids. */
  ghost predicate WritesOnly(s: State, t: State, ids: seq<string>) {
    s.out <= t.out && forall a :: |s.out| <= a < |t.out| ==> t.out[a].m.id in ids
  }

  lemma {:induction false} EmitsAll(s: State) returns (t: State)
    requires s.recovery.ShuttingDown?
    ensures Reaches(s, t) && t.recovery == Halted && t.dropped == s.dropped && WritesOnly(s, t, s.recovery.todo)
    decreases |s.recovery.todo|
  {
    Stays(s);
    if s.recovery.todo == [] {
      Goes(s, s, Recover(CClear));
      t := Apply(s, Recover(CClear));
    } else {
      var e := Recover(CEmit(true));
      Goes(s, s, e);
      var u := Apply(s, e);
      t := EmitsAll(u);
      Chains(s, u, t);
      forall a | |s.out| <= a < |t.out| ensures t.out[a].m.id in s.recovery.todo {
        assert a == |s.out| ==> t.out[a] == u.out[a];
      }
    }
  }

  lemma ShutsDown(s: State) returns (t: State, ids: seq<string>)
    requires s.recovery.Aborting? && s.sh.pendingReplay == [] && Keyed(s.sh.inFlight)
    ensures Reaches(s, t) && t.recovery == Halted && t.dropped == s.dropped && WritesOnly(s, t, ids)
    ensures forall id :: id in ids <==> id in s.sh.inFlight
  {
    var order := SomeRangeOrder(s.sh.inFlight);
    ids := FailIds(order, s.sh.inFlight, []);
    FailIdsExact(order, s.sh.inFlight, []);
    Stays(s);
    Goes(s, s, Recover(CShutdown(order)));
    var u := Apply(s, Recover(CShutdown(order)));
    assert u.dropped == s.dropped + [] == s.dropped;
    t := EmitsAll(u);
    Chains(s, u, t);
  }

  /** A run on which the next request is given up while the only errors written are for entries of inFlight other than its own. */
  lemma GoesSilent(s: State) returns (t: State, ids: seq<string>)
    requires Reachable(s) && Between(s) && s.sh.firstInitialize.None? && NoPassYet(s)
    ensures Reaches(s, t) && t.recovery == Halted && Ticket(|s.tokens|, CALL) in t.dropped && WritesOnly(s, t, ids)
    ensures forall id :: id in ids <==> id in s.sh.inFlight && id != CALL.id
  {
    var a := Orphans(s);
    var b := GivesUp(a);
    Chains(s, a, b);
    StaysReachable(s, b);
    ReachableInv(b);
    t, ids := ShutsDown(b);
    Chains(s, b, t);
    assert b.dropped[|b.dropped| - 1] == Ticket(|s.tokens|, CALL);
  }

  /** Between two passes nothing is written for an id that the last shutdown does not name. */
  lemma NotWritten(s: State, t: State, ids: seq<string>, id: string)
    requires Inv(s) && !Over(s.recovery) && WritesOnly(s, t, ids) && id !in ids
    ensures !ErrorWritten(t.out, id)
  {
    forall a | 0 <= a < |t.out| && t.out[a].src == FromRecovery ensures !IsErrorFor(t.out[a].m, id) {
      if a < |s.out| {
        NoBlanketYet(s, a);
      }
    }
  }

  /** Without a captured initialize some run gives a request up without a report. */
  lemma CaptureIsNeeded(s: State)
    requires Reachable(s) && Between(s) && s.sh.firstInitialize.None?
    ensures !AllReported(s)
  {
    var before: seq<Step> :| Leads(before, s);
    RunKeepsNoPass(INITIAL, before);
    ReachableInv(s);
    var t, ids := GoesSilent(s);
    NotWritten(s, t, ids, CALL.id);
    var run: seq<Step> :| Runs(s, run, t);
    var k :| 0 <= k < |t.dropped| && t.dropped[k] == Ticket(|s.tokens|, CALL);
    assert !Reported(Final(s, run));
  }

  /**
   Exactly when every request that recovery gives up is reported, whatever happens: when an initialize request has
   been captured - the test that doRecovery makes before it resets the session.
   */
  lemma ReportedExactly(s: State)
    requires Reachable(s) && Between(s)
    ensures AllReported(s) <==> s.sh.firstInitialize.Some?
  {
    if s.sh.firstInitialize.Some? {
      CapturedSuffices(s);
    } else {
      CaptureIsNeeded(s);
    }
  }

  lemma FirstWrite(s: State, t: State, ids: seq<string>)
    requires WritesOnly(s, t, ids) && s.out == []
    ensures t.out == [] || t.out[0].m.id in ids
  {
  }

  /** From the start: the proxy can give up an accepted request and make no Write call at all. */
  lemma SilenceHappens()
    ensures exists s: State :: Reachable(s) && s.recovery.Halted? && Ticket(0, CALL) in s.dropped && s.out == []
  {
    assert Leads([], INITIAL);
    var t, ids := GoesSilent(INITIAL);
    StaysReachable(INITIAL, t);
    FirstWrite(INITIAL, t, ids);
  }
}
