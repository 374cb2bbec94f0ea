/**
 Inductive invariants of the recovery protocol besides ownership: the wake-up argument, the
 exclusion between accepting and recovering, what each goroutine has received and written,
 and what a failing pass knows about inFlight.
 */
module RecoverySafety {
  import opened Prelude
  import opened Jsonrpc
  import opened RecoveryModel

  // ---------------------------------------------------------------- wake-up and locking

  /** A dispatcher that has queued its request and will still signal. */
  ghost predicate Signalling(d: Dispatcher) {
    d.phase.Queued? || d.phase.Unlisted?
  }

  /** The recovery goroutine has a signal and will still look at pendingReplay. */
  ghost predicate WillGrab(c: Recovery) {
    c.Consumed? || c.Admitted? || c.Locked?
  }

  ghost predicate Awake(s: State) {
    s.sh.pendingReplay != [] && !Over(s.recovery) ==>
      s.sh.trigger || WillGrab(s.recovery) || exists i :: 0 <= i < |s.ds| && Signalling(s.ds[i])
  }

  ghost predicate InitKnown(c: Recovery) {
    match c
    case Grabbed(p) => p.init.Some?
    case Cleared(p) => p.init.Some?
    case Initializing(p) => p.init.Some?
    case Initialized(p) => p.init.Some?
    case Notifying(p) => p.init.Some? && p.notif.Some?
    case Replaying(p, _, _) => p.init.Some?
    case Failing(p, _, _, _) => p.init.Some?
    case _ => true
  }

  lemma DKeepsAwake(s: State, i: nat, a: DStep)
    requires Awake(s) && i < |s.ds| && DEnabled(s, s.ds[i], a)
    ensures Awake(DApply(s, i, a))
  {
    var s' := DApply(s, i, a);
    if s'.sh.pendingReplay != [] && !Over(s.recovery) && !s'.sh.trigger && !WillGrab(s.recovery) {
      if a.DQueue? {
        assert Signalling(s'.ds[i]);
      } else {
        var j :| 0 <= j < |s.ds| && Signalling(s.ds[j]);
        assert Signalling(s'.ds[j]);
      }
    }
  }

  lemma AppendKeepsSignalling(ds: seq<Dispatcher>, d: Dispatcher)
    requires exists i :: 0 <= i < |ds| && Signalling(ds[i])
    ensures exists i :: 0 <= i < |ds + [d]| && Signalling((ds + [d])[i])
  {
    var i :| 0 <= i < |ds| && Signalling(ds[i]);
    assert Signalling((ds + [d])[i]);
  }

  lemma RKeepsAwake(s: State, a: RStep)
    requires Awake(s) && REnabled(s, a)
    ensures Awake(RApply(s, a))
  {
    var s' := RApply(s, a);
    if s'.sh.pendingReplay != [] && !Over(s.recovery) && !s'.sh.trigger && !WillGrab(s.recovery) && s'.ds != s.ds {
      AppendKeepsSignalling(s.ds, s'.ds[|s.ds|]);
    }
  }

  lemma CKeepsAwake(s: State, a: CStep)
    requires Awake(s) && CEnabled(s, a)
    ensures Awake(CApply(s, a))
  {
    if a.CSpawn? && s.sh.pendingReplay != [] && !s.sh.trigger {
      AppendKeepsSignalling(s.ds, CApply(s, a).ds[|s.ds|]);
    }
  }

  lemma CKeepsExcluded(s: State, a: CStep)
    requires Excluded(s) && InitKnown(s.recovery) && CEnabled(s, a)
    ensures Excluded(CApply(s, a)) && InitKnown(CApply(s, a).recovery)
  {
  }

  // ---------------------------------------------------------------- what was received and written

  /** The messages of the Write calls made on behalf of one source, in call order. */
  ghost function Project(out: seq<Write>, src: Source): seq<Message> {
    if out == [] then []
    else Project(out[..|out| - 1], src) + (if out[|out| - 1].src == src then [out[|out| - 1].m] else [])
  }

  /** What a dispatcher owes the client for one event. */
  ghost function Owed(id: string, ev: Event): seq<Message> {
    match ev
    case Msg(m) => [m]
    case Lost => []
    case Fail(text) => [ErrorResponse(id, text)]
    case Refused(text) => [ErrorResponse(id, SendText(text))]
  }

  ghost function Replies(id: string, received: seq<Event>): seq<Message> {
    if received == [] then [] else Replies(id, received[..|received| - 1]) + Owed(id, received[|received| - 1])
  }

  /** A relay passes messages through and reports no error. */
  ghost function Copies(received: seq<Event>): seq<Message> {
    if received == [] then []
    else Copies(received[..|received| - 1]) + (if received[|received| - 1].Msg? then [received[|received| - 1].m] else [])
  }

  ghost function Unreported(c: Recovery): seq<Message> {
    if c.Failing? || c.ShuttingDown? then Errors(c.todo, c.text) else []
  }

  ghost predicate DispatcherSlot(out: seq<Write>, ds: seq<Dispatcher>, i: nat) {
    Project(out, FromDispatcher(i)) ==
      if i < |ds| then Settled(ds[i]) else []
  }

  /** The dispatcher's replies up to the one it is about to write. */
  ghost function Settled(d: Dispatcher): seq<Message> {
    var all := Replies(d.req.id, d.received);
    if (d.phase.Relaying? || d.phase.Refusing?) && all != [] then all[..|all| - 1] else all
  }

  ghost predicate RelaySlot(out: seq<Write>, relays: seq<Relay>, k: nat) {
    Project(out, FromRelay(k)) == if k < |relays| then Passed(relays[k]) else []
  }

  ghost function Passed(r: Relay): seq<Message> {
    var all := Copies(r.received);
    if r.phase.Copying? && all != [] then all[..|all| - 1] else all
  }

  ghost predicate DispatcherShuffle(s: State) {
    forall i: nat :: DispatcherSlot(s.out, s.ds, i)
  }

  ghost predicate RelayShuffle(s: State) {
    forall k: nat :: RelaySlot(s.out, s.relays, k)
  }

  /** A message waiting to be written is the latest reply. */
  ghost predicate Pending(d: Dispatcher) {
    d.phase.Relaying? || d.phase.Refusing? ==>
      d.received != [] && Owed(d.req.id, d.received[|d.received| - 1]) == [d.phase.m]
  }

  ghost predicate PendingCopy(r: Relay) {
    r.phase.Copying? ==> r.received != [] && r.received[|r.received| - 1] == Msg(r.phase.m)
  }

  ghost predicate RecoveryShuffle(s: State) {
    Project(s.out, FromRecovery) + Unreported(s.recovery) == s.planned
  }

  lemma {:induction false} ProjectAppend(out: seq<Write>, w: Write, src: Source)
    ensures Project(out + [w], src) == Project(out, src) + if w.src == src then [w.m] else []
  {
    assert (out + [w])[..|out|] == out;
  }

  lemma {:induction false} RepliesAppend(id: string, r: seq<Event>, ev: Event)
    ensures Replies(id, r + [ev]) == Replies(id, r) + Owed(id, ev)
  {
    assert (r + [ev])[..|r|] == r;
  }

  lemma {:induction false} CopiesAppend(r: seq<Event>, ev: Event)
    ensures Copies(r + [ev]) == Copies(r) + if ev.Msg? then [ev.m] else []
  {
    assert (r + [ev])[..|r|] == r;
  }

  /** One more event adds exactly what is owed for it, to be written next. */
  lemma ReceiptSettles(d: Dispatcher, d': Dispatcher, ev: Event)
    requires d'.received == d.received + [ev] && d'.req == d.req && !d.phase.Relaying? && !d.phase.Refusing?
    requires (d'.phase.Relaying? || d'.phase.Refusing?) == (Owed(d.req.id, ev) != [])
    ensures Settled(d') == Settled(d)
  {
    RepliesAppend(d.req.id, d.received, ev);
  }

  lemma WriteSettles(d: Dispatcher, d': Dispatcher)
    requires Pending(d) && (d.phase.Relaying? || d.phase.Refusing?)
    requires d'.received == d.received && d'.req == d.req && !d'.phase.Relaying? && !d'.phase.Refusing?
    ensures Settled(d') == Settled(d) + [d.phase.m]
  {
  }

  lemma DSettles(s: State, d: Dispatcher, a: DStep)
    requires DEnabled(s, d, a) && Pending(d)
    ensures Pending(DNext(s, d, a))
    ensures Settled(DNext(s, d, a)) == Settled(d) + if a.DWrite? then [d.phase.m] else []
  {
    match a
    case DWrite(_) => WriteSettles(d, DNext(s, d, a));
    case DReceive(ev) => ReceiptSettles(d, DNext(s, d, a), ev);
    case DSend(Some(why)) => ReceiptSettles(d, DNext(s, d, a), Refused(why));
    case _ =>
  }

  lemma DOwnSlot(s: State, i: nat, a: DStep)
    requires i < |s.ds| && DEnabled(s, s.ds[i], a) && Pending(s.ds[i]) && DispatcherSlot(s.out, s.ds, i)
    ensures Pending(DApply(s, i, a).ds[i]) && DispatcherSlot(DApply(s, i, a).out, DApply(s, i, a).ds, i)
  {
    DSettles(s, s.ds[i], a);
    if a.DWrite? {
      ProjectAppend(s.out, Write(FromDispatcher(i), s.ds[i].phase.m, a.ok), FromDispatcher(i));
    }
  }

  ghost predicate AllPending(s: State) {
    (forall i :: 0 <= i < |s.ds| ==> Pending(s.ds[i])) && (forall k :: 0 <= k < |s.relays| ==> PendingCopy(s.relays[k]))
  }

  lemma DKeepsShuffle(s: State, i: nat, a: DStep)
    requires DispatcherShuffle(s) && AllPending(s) && i < |s.ds| && DEnabled(s, s.ds[i], a)
    ensures DispatcherShuffle(DApply(s, i, a)) && AllPending(DApply(s, i, a))
  {
    var s' := DApply(s, i, a);
    DOwnSlot(s, i, a);
    forall j: nat ensures DispatcherSlot(s'.out, s'.ds, j) {
      assert DispatcherSlot(s.out, s.ds, j);
      if j != i && a.DWrite? {
        ProjectAppend(s.out, s'.out[|s.out|], FromDispatcher(j));
      }
    }
  }

  lemma ReceiptPasses(r: Relay, r': Relay, ev: Event)
    requires r'.received == r.received + [ev] && !r.phase.Copying? && (r'.phase.Copying? <==> ev.Msg?)
    ensures Passed(r') == Passed(r)
  {
    CopiesAppend(r.received, ev);
  }

  lemma WritePasses(r: Relay, r': Relay)
    requires PendingCopy(r) && r.phase.Copying? && r'.received == r.received && !r'.phase.Copying?
    ensures Passed(r') == Passed(r) + [r.phase.m]
  {
  }

  lemma XOwnSlot(s: State, k: nat, a: XStep)
    requires k < |s.relays| && XEnabled(s, s.relays[k], a) && PendingCopy(s.relays[k]) && RelaySlot(s.out, s.relays, k)
    ensures PendingCopy(XApply(s, k, a).relays[k]) && RelaySlot(XApply(s, k, a).out, XApply(s, k, a).relays, k)
  {
    var r, r' := s.relays[k], XNext(s, s.relays[k], a);
    match a
    case XWrite(ok) =>
      WritePasses(r, r');
      ProjectAppend(s.out, Write(FromRelay(k), r.phase.m, ok), FromRelay(k));
    case XReceive(ev) => ReceiptPasses(r, r', ev);
    case _ =>
  }

  lemma XKeepsShuffle(s: State, k: nat, a: XStep)
    requires RelayShuffle(s) && AllPending(s) && k < |s.relays| && XEnabled(s, s.relays[k], a)
    ensures RelayShuffle(XApply(s, k, a)) && AllPending(XApply(s, k, a))
  {
    var s' := XApply(s, k, a);
    XOwnSlot(s, k, a);
    forall j: nat ensures RelaySlot(s'.out, s'.relays, j) {
      assert RelaySlot(s.out, s.relays, j);
      if j != k && a.XWrite? {
        ProjectAppend(s.out, s'.out[|s.out|], FromRelay(j));
      }
    }
  }

  /** A write made for one kind of source leaves the projections of the others alone. */
  lemma ForeignDispatcherSlots(s: State, s': State, w: Write)
    requires s'.out == s.out + [w] && s'.ds == s.ds && !w.src.FromDispatcher? && DispatcherShuffle(s)
    ensures DispatcherShuffle(s')
  {
    forall i: nat ensures DispatcherSlot(s'.out, s'.ds, i) {
      assert DispatcherSlot(s.out, s.ds, i);
      ProjectAppend(s.out, w, FromDispatcher(i));
    }
  }

  lemma ForeignRelaySlots(s: State, s': State, w: Write)
    requires s'.out == s.out + [w] && s'.relays == s.relays && !w.src.FromRelay? && RelayShuffle(s)
    ensures RelayShuffle(s')
  {
    forall k: nat ensures RelaySlot(s'.out, s'.relays, k) {
      assert RelaySlot(s.out, s.relays, k);
      ProjectAppend(s.out, w, FromRelay(k));
    }
  }

  /** A goroutine just started has neither received nor written anything. */
  lemma NewDispatcherSlot(s: State, s': State, d: Dispatcher)
    requires s'.ds == s.ds + [d] && s'.out == s.out && d.received == [] && d.phase.Sending? && DispatcherShuffle(s)
    ensures DispatcherShuffle(s')
  {
    forall i: nat ensures DispatcherSlot(s'.out, s'.ds, i) {
      assert DispatcherSlot(s.out, s.ds, i);
    }
  }

  lemma NewRelaySlot(s: State, s': State, r: Relay)
    requires s'.relays == s.relays + [r] && s'.out == s.out && r.received == [] && r.phase.Opening? && RelayShuffle(s)
    ensures RelayShuffle(s')
  {
    forall k: nat ensures RelaySlot(s'.out, s'.relays, k) {
      assert RelaySlot(s.out, s.relays, k);
    }
  }

  ghost predicate Shuffled(s: State) {
    DispatcherShuffle(s) && RelayShuffle(s) && RecoveryShuffle(s) && AllPending(s)
  }

  lemma DKeepsShuffled(s: State, i: nat, a: DStep)
    requires Shuffled(s) && i < |s.ds| && DEnabled(s, s.ds[i], a)
    ensures Shuffled(DApply(s, i, a))
  {
    DKeepsShuffle(s, i, a);
    if a.DWrite? {
      var w := Write(FromDispatcher(i), s.ds[i].phase.m, a.ok);
      ForeignRelaySlots(s, DApply(s, i, a), w);
      ProjectAppend(s.out, w, FromRecovery);
    }
  }

  lemma XKeepsShuffled(s: State, k: nat, a: XStep)
    requires Shuffled(s) && k < |s.relays| && XEnabled(s, s.relays[k], a)
    ensures Shuffled(XApply(s, k, a))
  {
    XKeepsShuffle(s, k, a);
    if a.XWrite? {
      var w := Write(FromRelay(k), s.relays[k].phase.m, a.ok);
      ForeignDispatcherSlots(s, XApply(s, k, a), w);
      ProjectAppend(s.out, w, FromRecovery);
    }
  }

  lemma RKeepsShuffled(s: State, a: RStep)
    requires Shuffled(s) && REnabled(s, a)
    ensures Shuffled(RApply(s, a))
  {
    var s' := RApply(s, a);
    if |s'.ds| > |s.ds| {
      NewDispatcherSlot(s, s', s'.ds[|s.ds|]);
    }
    if |s'.relays| > |s.relays| {
      NewRelaySlot(s, s', s'.relays[|s.relays|]);
    }
  }

  lemma CKeepsShuffled(s: State, a: CStep)
    requires Shuffled(s) && CEnabled(s, a)
    ensures Shuffled(CApply(s, a))
  {
    var s' := CApply(s, a);
    CKeepsRecoveryShuffle(s, a);
    if a.CSpawn? {
      NewDispatcherSlot(s, s', s'.ds[|s.ds|]);
    } else if a.CEmit? {
      ForeignDispatcherSlots(s, s', s'.out[|s.out|]);
      ForeignRelaySlots(s, s', s'.out[|s.out|]);
    }
  }

  lemma CKeepsRecoveryShuffle(s: State, a: CStep)
    requires RecoveryShuffle(s) && CEnabled(s, a)
    ensures RecoveryShuffle(CApply(s, a))
  {
    if a.CEmit? {
      EmitKeepsShuffle(s, a.ok);
    }
  }

  lemma EmitKeepsShuffle(s: State, ok: bool)
    requires RecoveryShuffle(s) && CEnabled(s, CEmit(ok))
    ensures RecoveryShuffle(CApply(s, CEmit(ok)))
  {
    var c := s.recovery;
    var m := ErrorResponse(c.todo[0], c.text);
    ProjectAppend(s.out, Write(FromRecovery, m, ok), FromRecovery);
    assert Errors(c.todo, c.text) == [m] + Errors(c.todo[1..], c.text);
    Assoc(Project(s.out, FromRecovery), [m], Errors(c.todo[1..], c.text));
  }
}
