/**
 What the client's messages and the goroutines they start come to, over every run: each message is accepted,
 forwarded or ignored by its kind, each goroutine ends for one of the reasons the source gives and for no other, no
 entry of inFlight outlives its request, and no pass runs without a signal.
 */
module RecoveryFates {
  import opened Prelude
  import opened Jsonrpc
  import opened RecoveryModel
  import opened RecoverySafety
  import opened RecoveryTheorems

  // ---------------------------------------------------------------- the index holds nothing that is over

  /** The dispatcher may still have an entry of its own in inFlight. */
  predicate Busy(d: Dispatcher) {
    !d.phase.Settling? && !d.phase.Done? && !d.phase.Unlisted? && !d.phase.HandedOver?
  }

  /** A pass has listed a request under this id and is about to start its dispatcher. */
  predicate JustRelisted(c: Recovery, id: string) {
    c.Replaying? && c.listed && c.next < |c.p.pending| && c.p.pending[c.next].req.id == id
  }

  /** Some request with this id is being served. */
  ghost predicate Current(s: State, id: string) {
    || (s.reader.Registered? && s.reader.req.id == id)
    || JustRelisted(s.recovery, id)
    || exists i :: 0 <= i < |s.ds| && Busy(s.ds[i]) && s.ds[i].req.id == id
  }

  ghost predicate NothingStale(s: State) {
    !Over(s.recovery) ==> forall id :: id in s.sh.inFlight ==> Current(s, id)
  }

  lemma DKeepsFresh(s: State, i: nat, a: DStep)
    requires NothingStale(s) && i < |s.ds| && DEnabled(s, s.ds[i], a)
    ensures NothingStale(DApply(s, i, a))
  {
    var s' := DApply(s, i, a);
    if !Over(s.recovery) {
      forall id | id in s'.sh.inFlight ensures Current(s', id) {
        assert Current(s, id);
        if j :| 0 <= j < |s.ds| && Busy(s.ds[j]) && s.ds[j].req.id == id {
          assert s'.ds[j].req.id == id && Busy(s'.ds[j]);
        }
      }
    }
  }

  lemma StillCurrent(s: State, s': State, id: string)
    requires Current(s, id) && s.ds <= s'.ds
    requires s.reader.Registered? && s.reader.req.id == id ==> Current(s', id)
    requires JustRelisted(s.recovery, id) ==> Current(s', id)
    ensures Current(s', id)
  {
    if j :| 0 <= j < |s.ds| && Busy(s.ds[j]) && s.ds[j].req.id == id {
      assert s'.ds[j] == s.ds[j];
    }
  }

  lemma RKeepsFresh(s: State, a: RStep)
    requires NothingStale(s) && REnabled(s, a)
    ensures NothingStale(RApply(s, a))
  {
    var s' := RApply(s, a);
    if !Over(s.recovery) {
      forall id | id in s'.sh.inFlight ensures Current(s', id) {
        if id in s.sh.inFlight {
          if a.RSpawn? && s.reader.Registered? {
            assert Busy(s'.ds[|s.ds|]);
          }
          StillCurrent(s, s', id);
        }
      }
    }
  }

  lemma CKeepsFresh(s: State, a: CStep)
    requires NothingStale(s) && CEnabled(s, a)
    ensures NothingStale(CApply(s, a))
  {
    var s' := CApply(s, a);
    if !Over(s'.recovery) {
      assert !Over(s.recovery);
      forall id | id in s'.sh.inFlight ensures Current(s', id) {
        if id in s.sh.inFlight {
          if a.CSpawn? {
            assert Busy(s'.ds[|s.ds|]);
          }
          StillCurrent(s, s', id);
        }
      }
    }
  }

  lemma {:induction false} RunKeepsFresh(s: State, run: seq<Step>)
    requires NothingStale(s) && Valid(s, run)
    ensures NothingStale(Final(s, run))
    decreases |run|
  {
    if run != [] {
      match run[0] {
        case Dispatch(i, d) => DKeepsFresh(s, i, d);
        case Read(r) => RKeepsFresh(s, r);
        case Recover(c) => CKeepsFresh(s, c);
        case Copy(_, _) =>
        case Cancel =>
      }
      RunKeepsFresh(Apply(s, run[0]), run[1..]);
    }
  }

  /**
   Until recovery fails, every key of inFlight is the id of a request registered at the reader, just relisted by a
   pass, or held by a dispatcher that has yet to delete its entry: a request that is over leaves the index.
   */
  lemma NoStaleEntry(s: State, id: string)
    requires Reachable(s) && !Over(s.recovery) && id in s.sh.inFlight
    ensures Current(s, id)
  {
    var run: seq<Step> :| Leads(run, s);
    RunKeepsFresh(INITIAL, run);
  }

  /** When dispatchers and recovery are at rest and no message is being accepted, the index is empty. */
  lemma RestEmptiesIndex(s: State)
    requires Reachable(s) && AtRest(s) && !Over(s.recovery) && !ReaderHeld(s.reader)
    ensures s.sh.inFlight == map[]
  {
    ReachableInv(s);
    RestingRecovery(s);
    forall id | id in s.sh.inFlight ensures false {
      NoStaleEntry(s, id);
      var i :| 0 <= i < |s.ds| && Busy(s.ds[i]) && s.ds[i].req.id == id;
      RestingDispatcher(s, i);
    }
  }

  // ---------------------------------------------------------------- what the client sends

  /** The messages the reader has taken, in order. */
  function Taken(run: seq<Step>): seq<Message> {
    if run == [] then []
    else
      var a := run[|run| - 1];
      Taken(run[..|run| - 1]) + if a.Read? && a.r.RTake? then [a.r.m] else []
  }

  function Requests(ms: seq<Message>): seq<Message> {
    if ms == [] then []
    else Requests(ms[..|ms| - 1]) + if ms[|ms| - 1].IsRequest() then [ms[|ms| - 1]] else []
  }

  /** Notifications and responses: what is passed on without waiting for a reply. */
  function Forwardable(ms: seq<Message>): seq<Message> {
    if ms == [] then []
    else
      var m := ms[|ms| - 1];
      Forwardable(ms[..|ms| - 1]) + if m.IsNotification() || m.IsResponse() then [m] else []
  }

  /** The messages that have a forwarder, in order. */
  function Forwarded(relays: seq<Relay>): seq<Message> {
    if relays == [] then []
    else
      var r := relays[|relays| - 1];
      Forwarded(relays[..|relays| - 1]) + if r.kind.Forward? then [r.kind.m] else []
  }

  /** The message taken last has not been accepted or forwarded yet. */
  predicate InHand(r: Reader) {
    r.Entered? || r.Captured?
  }

  ghost predicate PassedOn(s: State, taken: seq<Message>) {
    && (InHand(s.reader) ==> taken != [] && taken[|taken| - 1] == s.reader.m)
    && var done := if InHand(s.reader) && taken != [] then taken[..|taken| - 1] else taken;
       s.tokens == Requests(done) && Forwarded(s.relays) == Forwardable(done)
  }

  function TakenBy(a: Step): seq<Message> {
    if a.Read? && a.r.RTake? then [a.r.m] else []
  }

  lemma {:induction false} ForwardedUpdate(relays: seq<Relay>, k: nat, r: Relay)
    requires k < |relays| && r.kind == relays[k].kind
    ensures Forwarded(relays[k := r]) == Forwarded(relays)
  {
    var n := |relays| - 1;
    if k == n {
      assert relays[k := r][..n] == relays[..n];
    } else {
      ForwardedUpdate(relays[..n], k, r);
      assert relays[k := r][..n] == relays[..n][k := r];
    }
  }

  lemma ForwardedGrows(relays: seq<Relay>, r: Relay)
    ensures Forwarded(relays + [r]) == Forwarded(relays) + if r.kind.Forward? then [r.kind.m] else []
  {
    assert (relays + [r])[..|relays|] == relays;
  }

  /** One message more, as the reader's switch sees it. */
  lemma Sorted(taken: seq<Message>)
    requires taken != []
    ensures var m, front := taken[|taken| - 1], taken[..|taken| - 1];
      && Requests(taken) == Requests(front) + (if m.IsRequest() then [m] else [])
      && Forwardable(taken) == Forwardable(front) + (if m.IsNotification() || m.IsResponse() then [m] else [])
  {
  }

  lemma RPassesOn(s: State, a: RStep, taken: seq<Message>)
    requires PassedOn(s, taken) && REnabled(s, a)
    ensures PassedOn(RApply(s, a), taken + TakenBy(Read(a)))
  {
    match a
    case RTake(m) => assert (taken + [m])[..|taken|] == taken;
    case RRegister =>
      Sorted(taken);
      assert taken + [] == taken;
    case RSpawn =>
      assert taken + [] == taken;
      if s.reader.Captured? {
        Sorted(taken);
        ForwardedGrows(s.relays, Relay(Forward(s.reader.m), Opening, []));
      }
    case _ => assert taken + [] == taken;
  }

  lemma StepPassesOn(s: State, a: Step, taken: seq<Message>)
    requires PassedOn(s, taken) && Enabled(s, a)
    ensures PassedOn(Apply(s, a), taken + TakenBy(a))
  {
    assert taken + [] == taken;
    match a
    case Read(r) => RPassesOn(s, r, taken);
    case Copy(k, x) => ForwardedUpdate(s.relays, k, XNext(s, s.relays[k], x));
    case Recover(c) => RecoveryCapturesNothing(s, c);
    case Dispatch(_, _) =>
    case Cancel =>
  }

  lemma TakenHead(a: Step, run: seq<Step>)
    ensures Taken([a] + run) == TakenBy(a) + Taken(run)
  {
    if run == [] {
      assert [a] + run == [a] && [a][..0] == [];
    } else {
      var n := |run| - 1;
      TakenHead(a, run[..n]);
      assert ([a] + run)[..n + 1] == [a] + run[..n];
      Assoc(TakenBy(a), Taken(run[..n]), TakenBy(run[n]));
    }
  }

  lemma {:induction false} RunPassesOn(s: State, run: seq<Step>, taken: seq<Message>)
    requires PassedOn(s, taken) && Valid(s, run)
    ensures PassedOn(Final(s, run), taken + Taken(run))
    decreases |run|
  {
    if run == [] {
      assert taken + [] == taken;
    } else {
      StepPassesOn(s, run[0], taken);
      RunPassesOn(Apply(s, run[0]), run[1..], taken + TakenBy(run[0]));
      TakenHead(run[0], run[1..]);
      assert [run[0]] + run[1..] == run;
      Assoc(taken, TakenBy(run[0]), Taken(run[1..]));
    }
  }

  /**
   Of the messages the client sent, in order, exactly the requests have been accepted and exactly the notifications and
   responses have a forwarder; the one in the reader's hand is next.
   */
  lemma EverythingIsPassedOn(run: seq<Step>, s: State)
    requires Leads(run, s)
    ensures PassedOn(s, Taken(run))
  {
    RunPassesOn(INITIAL, run, []);
    assert [] + Taken(run) == Taken(run);
  }

  // ---------------------------------------------------------------- why goroutines end

  /** A step in state s that ends dispatcher i without a session loss: an error, a closed channel, cancellation. */
  predicate EndsDispatcher(s: State, a: Step, i: nat) {
    a.Dispatch? && a.i == i &&
    match a.d
    case DClose => true
    case DCancel => s.cancelled
    case DSend(refused) => refused.Some?
    case DReceive(ev) => ev.Fail?
    case _ => false
  }

  /** A step that makes dispatcher i hand its request to recovery. */
  predicate LosesDispatcher(a: Step, i: nat) {
    a.Dispatch? && a.i == i && a.d.DReceive? && a.d.ev.Lost?
  }

  predicate Ending(p: Phase) { p.Refusing? || p.Leaving? || p.Done? }
  predicate HandingOver(p: Phase) { p.LostSeen? || p.Queued? || p.Unlisted? || p.HandedOver? }

  ghost predicate DispatcherEnded(s: State, run: seq<Step>, i: nat)
    requires Valid(s, run)
    decreases |run|
  {
    run != [] && (EndsDispatcher(s, run[0], i) || DispatcherEnded(Apply(s, run[0]), run[1..], i))
  }

  ghost predicate DispatcherLost(run: seq<Step>, i: nat) {
    run != [] && (LosesDispatcher(run[0], i) || DispatcherLost(run[1..], i))
  }

  /** Nothing has been done yet for dispatchers that do not exist. */
  ghost predicate Fated(s: State, i: nat, ended: bool, lost: bool) {
    if i < |s.ds| then (Ending(s.ds[i].phase) <==> ended) && (HandingOver(s.ds[i].phase) <==> lost) else !ended && !lost
  }

  lemma DispatcherTurns(s: State, i: nat, a: DStep)
    requires i < |s.ds| && DEnabled(s, s.ds[i], a)
    ensures Ending(DNext(s, s.ds[i], a).phase) <==> Ending(s.ds[i].phase) || EndsDispatcher(s, Dispatch(i, a), i)
    ensures HandingOver(DNext(s, s.ds[i], a).phase) <==> HandingOver(s.ds[i].phase) || LosesDispatcher(Dispatch(i, a), i)
  {
  }

  lemma CSpawnsFresh(s: State, a: CStep)
    requires CEnabled(s, a)
    ensures s.ds <= CApply(s, a).ds && |CApply(s, a).ds| <= |s.ds| + 1
    ensures forall i :: |s.ds| <= i < |CApply(s, a).ds| ==> CApply(s, a).ds[i].phase.Sending?
  {
  }

  lemma StepFates(s: State, a: Step, i: nat, ended: bool, lost: bool)
    requires Enabled(s, a) && Fated(s, i, ended, lost)
    ensures Fated(Apply(s, a), i, ended || EndsDispatcher(s, a, i), lost || LosesDispatcher(a, i))
  {
    match a
    case Dispatch(k, d) => DispatcherTurns(s, k, d);
    case Recover(c) => CSpawnsFresh(s, c);
    case Read(_) =>
    case Copy(_, _) =>
    case Cancel =>
  }

  lemma {:induction false} RunFates(s: State, run: seq<Step>, i: nat, ended: bool, lost: bool)
    requires Valid(s, run) && Fated(s, i, ended, lost)
    ensures Fated(Final(s, run), i, ended || DispatcherEnded(s, run, i), lost || DispatcherLost(run, i))
    decreases |run|
  {
    if run != [] {
      var a := run[0];
      StepFates(s, a, i, ended, lost);
      RunFates(Apply(s, a), run[1..], i, ended || EndsDispatcher(s, a, i), lost || LosesDispatcher(a, i));
    }
  }

  /**
   A dispatcher ends if and only if its Send failed, its channel brought an error or closed, or the proxy was cancelled;
   it hands its request over if and only if its channel reported a lost session. Otherwise it goes on, final responses
   or not.
   */
  lemma DispatcherFate(run: seq<Step>, s: State, i: nat)
    requires Leads(run, s) && i < |s.ds|
    ensures Ending(s.ds[i].phase) <==> DispatcherEnded(INITIAL, run, i)
    ensures HandingOver(s.ds[i].phase) <==> DispatcherLost(run, i)
  {
    RunFates(INITIAL, run, i, false, false);
  }

  /** A step in state s that ends relay k. */
  predicate EndsRelay(s: State, a: Step, k: nat) {
    a.Copy? && a.k == k && k < |s.relays| &&
    match a.x
    case XOpen(ok) => !ok
    case XReceive(ev) => ev.Fail?
    case XClose => true
    case XTrigger => s.relays[k].kind.Forward?
    case XBarrier => s.sh.failure.Some? || s.cancelled
    case XQuit => s.cancelled && s.relays[k].kind.Listener?
    case XWrite(_) => false
  }

  ghost predicate RelayEnded(s: State, run: seq<Step>, k: nat)
    requires Valid(s, run)
    decreases |run|
  {
    run != [] && (EndsRelay(s, run[0], k) || RelayEnded(Apply(s, run[0]), run[1..], k))
  }

  ghost predicate RelayFated(s: State, k: nat, ended: bool) {
    if k < |s.relays| then s.relays[k].phase.Stopped? <==> ended else !ended
  }

  lemma StepFatesRelay(s: State, a: Step, k: nat, ended: bool)
    requires Enabled(s, a) && RelayFated(s, k, ended)
    ensures RelayFated(Apply(s, a), k, ended || EndsRelay(s, a, k))
  {
    match a
    case Recover(c) => RecoveryCapturesNothing(s, c);
    case Dispatch(_, _) =>
    case Read(_) =>
    case Copy(_, _) =>
    case Cancel =>
  }

  lemma {:induction false} RunFatesRelay(s: State, run: seq<Step>, k: nat, ended: bool)
    requires Valid(s, run) && RelayFated(s, k, ended)
    ensures RelayFated(Final(s, run), k, ended || RelayEnded(s, run, k))
    decreases |run|
  {
    if run != [] {
      StepFatesRelay(s, run[0], k, ended);
      RunFatesRelay(Apply(s, run[0]), run[1..], k, ended || EndsRelay(s, run[0], k));
    }
  }

  /**
   A relay ends if and only if its stream could not be opened, failed or closed, a forwarder has signalled a lost
   session, or the listener found the proxy failed or cancelled; after a recovery that succeeds the listener goes on.
   */
  lemma RelayFate(run: seq<Step>, s: State, k: nat)
    requires Leads(run, s) && k < |s.relays|
    ensures s.relays[k].phase.Stopped? <==> RelayEnded(INITIAL, run, k)
  {
    RunFatesRelay(INITIAL, run, k, false);
  }

  // ---------------------------------------------------------------- signals and passes

  predicate Signals(a: Step) {
    (a.Dispatch? && a.d.DTrigger?) || (a.Copy? && a.x.XTrigger?)
  }

  function SignalsIn(run: seq<Step>): nat {
    if run == [] then 0 else (if Signals(run[0]) then 1 else 0) + SignalsIn(run[1..])
  }

  /** Passes begun, the one on its way, and the signal in the channel. */
  function Prompted(s: State): nat {
    s.passes + (if s.recovery.Consumed? || s.recovery.Admitted? then 1 else 0) + if s.sh.trigger then 1 else 0
  }

  lemma RecoveryPrompts(s: State, a: CStep)
    requires CEnabled(s, a)
    ensures Prompted(CApply(s, a)) <= Prompted(s)
  {
  }

  lemma {:induction false} RunPrompts(s: State, run: seq<Step>)
    requires Valid(s, run)
    ensures Prompted(Final(s, run)) <= Prompted(s) + SignalsIn(run)
    decreases |run|
  {
    if run != [] {
      match run[0] {
        case Recover(c) => RecoveryPrompts(s, c);
        case Dispatch(_, _) =>
        case Copy(_, _) =>
        case Read(_) =>
        case Cancel =>
      }
      RunPrompts(Apply(s, run[0]), run[1..]);
    }
  }

  /** Each pass consumes a signal of its own: there are at most as many passes as signals. */
  lemma PassesNeedSignals(run: seq<Step>, s: State)
    requires Leads(run, s)
    ensures s.passes <= SignalsIn(run)
  {
    RunPrompts(INITIAL, run);
  }

  // ---------------------------------------------------------------- after a failure

  /** How many more messages the reader can take: none once it has stopped or holds one. */
  function MayTake(s: State): nat {
    if s.reader.Waiting? then 1 else 0
  }

  lemma FailureStays(s: State, a: Step)
    requires Enabled(s, a) && s.sh.failure.Some?
    ensures Apply(s, a).sh.failure.Some?
  {
    match a
    case Recover(c) => RecoveryKeepsFailure(s, c);
    case Dispatch(_, _) =>
    case Copy(_, _) =>
    case Read(_) =>
    case Cancel =>
  }

  lemma RecoveryKeepsFailure(s: State, a: CStep)
    requires CEnabled(s, a) && s.sh.failure.Some?
    ensures CApply(s, a).sh.failure.Some?
  {
  }

  lemma RecoveryLeavesReader(s: State, a: Step)
    requires Enabled(s, a) && !a.Read?
    ensures Apply(s, a).reader == s.reader
  {
    match a
    case Recover(c) => RecoveryCapturesNothing(s, c);
    case Dispatch(_, _) =>
    case Copy(_, _) =>
    case Cancel =>
  }

  /** Once a failure is recorded the reader takes at most one more message. */
  lemma {:induction false} OneMoreAfterFailure(s: State, run: seq<Step>)
    requires Valid(s, run) && s.sh.failure.Some?
    ensures |Taken(run)| <= MayTake(s)
    decreases |run|
  {
    if run != [] {
      var a := run[0];
      FailureStays(s, a);
      OneMoreAfterFailure(Apply(s, a), run[1..]);
      TakenHead(a, run[1..]);
      assert [a] + run[1..] == run;
      if !a.Read? { RecoveryLeavesReader(s, a); }
    }
  }

  /** Who has stopped, and why. */
  ghost predicate StoppedMeansCancelled(s: State) {
    && (s.reader.Finished? ==> s.cancelled)
    && (s.recovery.ShuttingDown? ==> s.sh.failure.Some?)
    && (s.recovery.Halted? ==> s.sh.failure.Some? || s.cancelled)
  }

  lemma RecoveryKeepsCancelled(s: State, a: CStep)
    requires CEnabled(s, a) && StoppedMeansCancelled(s)
    ensures StoppedMeansCancelled(CApply(s, a))
  {
  }

  lemma {:induction false} RunStops(s: State, run: seq<Step>)
    requires Valid(s, run) && StoppedMeansCancelled(s)
    ensures StoppedMeansCancelled(Final(s, run))
    decreases |run|
  {
    if run != [] {
      match run[0] {
        case Recover(c) => RecoveryKeepsCancelled(s, c);
        case Dispatch(_, _) =>
        case Copy(_, _) =>
        case Read(_) =>
        case Cancel =>
      }
      RunStops(Apply(s, run[0]), run[1..]);
    }
  }

  /** When the reader has stopped, everything else has been told to; recovery returns only failed or cancelled. */
  lemma StopsAreKnown(s: State)
    requires Reachable(s)
    ensures s.reader.Finished? ==> s.cancelled
    ensures s.recovery.Halted? ==> s.sh.failure.Some? || s.cancelled
  {
    var run: seq<Step> :| Leads(run, s);
    RunStops(INITIAL, run);
  }
}
