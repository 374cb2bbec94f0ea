/**
 The mutable object behind the transition system: each mutex section of Proxy as a method, the sequential loops of a
 recovery pass, and the proof that the object, driven section by section in any order the transition system allows,
 holds the fields the transition system says. Go code between two sections belongs to the transition system, where
 other goroutines may intervene.
 */
module ProxyObject {
  import opened Prelude
  import opened Jsonrpc
  import opened RecoveryModel

  /** The first decisive item of the channel answers the replayed initialize. */
  ghost predicate InitAccepted(init: Message, events: seq<Event>) {
    exists j :: 0 <= j < |events| && Decides(init, events[j]) && Accepts(init, events[j]) &&
      forall k :: 0 <= k < j ==> !Decides(init, events[k])
  }

  predicate Decides(init: Message, ev: Event) {
    !ev.Msg? || ev.m.Answers(init.id)
  }

  predicate Accepts(init: Message, ev: Event) {
    ev.Msg? && ev.m.Answers(init.id) && ev.m.error.NoError?
  }

  class Proxy {
    var firstInitialize: Option<Message>
    var initializedNotif: Option<Message>
    var pendingReplay: seq<Ticket>
    var inFlight: map<string, Message>
    var recoveryAttempts: nat
    var recoveryTrigger: bool
    var recoveryFailErr: Option<string>

    ghost function Fields(): Shared
      reads this
    {
      Shared(firstInitialize, initializedNotif, pendingReplay, inFlight, recoveryAttempts, recoveryTrigger, recoveryFailErr)
    }

    constructor ()
      ensures Fields() == INITIAL.sh
    {
      firstInitialize, initializedNotif, pendingReplay, inFlight := None, None, [], map[];
      recoveryAttempts, recoveryTrigger, recoveryFailErr := 0, false, None;
    }

    method CaptureHandshake(m: Message)
      modifies this
      ensures Fields() == Capture(old(Fields()), m)
    {
      if m.IsRequest() && m.verb == METHOD_INITIALIZE {
        firstInitialize := Some(m);
      } else if m.IsNotification() && m.verb == METHOD_INITIALIZED {
        initializedNotif := Some(m);
      }
    }

    method AddInFlight(req: Message)
      modifies this
      ensures Fields() == old(Fields()).Register(req)
    {
      inFlight := inFlight[req.id := req];
    }

    method RemoveInFlight(id: string)
      modifies this
      ensures Fields() == old(Fields()).Unregister(id)
    {
      inFlight := inFlight - {id};
    }

    method QueueForReplay(t: Ticket)
      modifies this
      ensures Fields() == old(Fields()).Enqueue(t)
    {
      pendingReplay := pendingReplay + [t];
    }

    /** The non-blocking send: a second signal is absorbed by the first. */
    method TriggerRecovery()
      modifies this
      ensures Fields() == old(Fields()).Signal()
    {
      if !recoveryTrigger {
        recoveryTrigger := true;
      }
    }

    /** runRecovery receives from the trigger channel, if there is a signal. */
    method TakeTrigger() returns (taken: bool)
      modifies this
      ensures taken == old(recoveryTrigger) && Fields() == old(Fields()).TakeSignal()
    {
      taken, recoveryTrigger := recoveryTrigger, false;
    }

    method CountAttempt() returns (allowed: bool)
      modifies this
      ensures Fields() == old(Fields()).CountAttempt()
      ensures allowed <==> old(recoveryAttempts) < MAX_RECOVERY_ATTEMPTS
    {
      recoveryAttempts := recoveryAttempts + 1;
      var attempts := recoveryAttempts;
      allowed := !(attempts > MAX_RECOVERY_ATTEMPTS);
    }

    method FinalResponseSeen()
      modifies this
      ensures Fields() == old(Fields()).ResetAttempts()
    {
      recoveryAttempts := 0;
    }

    /** The first section of doRecovery. */
    method BeginPass(number: nat) returns (p: Pass)
      modifies this
      ensures p == Pass(number, old(firstInitialize), old(initializedNotif), old(pendingReplay), old(inFlight))
      ensures Fields() == old(Fields()).TakePending()
    {
      p := Pass(number, firstInitialize, initializedNotif, pendingReplay, inFlight);
      pendingReplay := [];
    }

    method ClearInFlight()
      modifies this
      ensures Fields() == old(Fields()).ClearInFlight()
    {
      inFlight := map[];
    }

    /** The section of failAndShutdown: what is still known is taken out, and the cause recorded once. */
    method TakeAll(cause: string) returns (snapshot: map<string, Message>, pending: seq<Ticket>)
      modifies this
      ensures snapshot == old(inFlight) && pending == old(pendingReplay)
      ensures Fields() == old(Fields()).TakePending().RecordFailure(cause)
    {
      snapshot, pending := inFlight, pendingReplay;
      pendingReplay := [];
      if recoveryFailErr.None? {
        recoveryFailErr := Some(cause);
      }
    }

    /** Reads the channel of the replayed initialize; other messages on it are ignored. */
    method ReplayInitialize(init: Message, events: seq<Event>) returns (ok: bool)
      ensures ok <==> InitAccepted(init, events)
    {
      var i := 0;
      while i < |events|
        invariant 0 <= i <= |events|
        invariant forall k :: 0 <= k < i ==> !Decides(init, events[k])
      {
        var me := events[i];
        if !me.Msg? {
          assert Decides(init, events[i]);
          return false;
        }
        if me.m.Answers(init.id) {
          assert Decides(init, events[i]);
          return me.m.error.NoError?;
        }
        i := i + 1;
      }
      ok := false;
    }

    /** One error per id, then an empty index; `order` is the order in which the map was ranged over. */
    method FailAllPending(snapshot: map<string, Message>, pending: seq<Ticket>, cause: string)
      returns (writes: seq<Message>, ghost order: seq<string>)
      modifies this
      ensures RangeOrder(order, snapshot)
      ensures writes == Errors(FailIds(order, snapshot, pending), FailText(cause))
      ensures Fields() == old(Fields()).ClearInFlight()
    {
      var seen: set<string> := {};
      ghost var ids: seq<string> := [];
      var left := snapshot.Keys;
      writes, order := [], [];
      while left != {}
        invariant left <= snapshot.Keys && NoDup(order) && forall k :: k in order <==> k in snapshot && k !in left
        invariant ids == EmitAll([], SnapshotIds(order, snapshot)) && Reported(seen, ids, writes, cause)
        invariant Fields() == old(Fields())
        decreases left
      {
        var k :| k in left;
        left := left - {k};
        ghost var longer := order + [k];
        assert SnapshotIds(longer, snapshot) == SnapshotIds(order, snapshot) + [snapshot[k].id];
        EmitLast([], SnapshotIds(order, snapshot), snapshot[k].id);
        seen, writes := Emit(seen, writes, snapshot[k].id, cause, ids);
        order, ids := longer, EmitId(ids, snapshot[k].id);
      }
      ghost var first := ids;
      assert TicketIds(pending[..0]) == [];
      for j := 0 to |pending|
        invariant ids == EmitAll(first, TicketIds(pending[..j])) && Reported(seen, ids, writes, cause)
        invariant Fields() == old(Fields())
      {
        assert TicketIds(pending[..j + 1]) == TicketIds(pending[..j]) + [pending[j].req.id];
        EmitLast(first, TicketIds(pending[..j]), pending[j].req.id);
        seen, writes := Emit(seen, writes, pending[j].req.id, cause, ids);
        ids := EmitId(ids, pending[j].req.id);
      }
      assert pending[..|pending|] == pending;
      ClearInFlight();
    }

    /** The closure `emit`: report an id unless it is empty or was reported before. */
    method Emit(seen: set<string>, writes: seq<Message>, id: string, cause: string, ghost ids: seq<string>)
      returns (seen': set<string>, writes': seq<Message>)
      requires Reported(seen, ids, writes, cause)
      ensures Reported(seen', EmitId(ids, id), writes', cause)
    {
      if |id| == 0 || id in seen {
        seen', writes' := seen, writes;
      } else {
        seen', writes' := seen + {id}, writes + [ErrorResponse(id, FailText(cause))];
      }
    }

    /** failAndShutdown: record the cause once, then report everything still known. */
    method FailAndShutdown(cause: string) returns (writes: seq<Message>, ghost order: seq<string>)
      modifies this
      ensures RangeOrder(order, old(inFlight))
      ensures writes == Errors(FailIds(order, old(inFlight), old(pendingReplay)), FailText(cause))
      ensures Fields() == old(Fields()).TakePending().RecordFailure(cause).ClearInFlight()
    {
      var snapshot, pending := TakeAll(cause);
      writes, order := FailAllPending(snapshot, pending, cause);
    }

    // -------------------------------------------------------------- the object as the shared part of the system

    /** A dispatcher's step, given what the dispatcher knows. */
    method DispatchStep(d: Dispatcher, a: DStep)
      modifies this
      ensures Fields() == DShared(old(Fields()), d, a)
    {
      match a
      case DUnregister => RemoveInFlight(d.req.id);
      case DReset => FinalResponseSeen();
      case DQueue => QueueForReplay(Ticket(d.token, d.req));
      case DTrigger => TriggerRecovery();
      case _ =>
    }

    /** A step of the recovery goroutine; only its own variables are read from s. */
    method RecoveryStep(s: State, a: CStep)
      modifies this
      requires Fields() == s.sh && CEnabled(s, a)
      ensures Fields() == CApply(s, a).sh
    {
      match a
      case CConsume => var taken := TakeTrigger();
      case CCount => var allowed := CountAttempt();
      case CGrab => var p := BeginPass(s.passes);
      case CList => AddInFlight(s.recovery.p.pending[s.recovery.next].req);
      case CClear => ClearInFlight();
      case CShutdown(_) => var snapshot, pending := TakeAll(s.recovery.cause);
      case _ =>
    }

    /** Any step of any goroutine: the section it runs, if any, changes the fields as the transition system says. */
    method Perform(s: State, a: Step)
      modifies this
      requires Fields() == s.sh && Enabled(s, a)
      ensures Fields() == Apply(s, a).sh
    {
      match a
      case Dispatch(i, d) => DispatchStep(s.ds[i], d);
      case Copy(_, x) => if x.XTrigger? { TriggerRecovery(); }
      case Read(r) =>
        if r.RCapture? {
          CaptureHandshake(s.reader.m);
        } else if r.RRegister? {
          AddInFlight(s.reader.m);
        }
      case Recover(c) => RecoveryStep(s, c);
      case Cancel =>
    }

    /** Over every run the object holds the fields of the state the run leads to. */
    method PerformAll(run: seq<Step>)
      modifies this
      requires Fields() == INITIAL.sh && Valid(INITIAL, run)
      ensures Fields() == Final(INITIAL, run).sh
    {
      var s := INITIAL;
      assert run[0..] == run;
      for i := 0 to |run|
        invariant Valid(s, run[i..]) && Final(s, run[i..]) == Final(INITIAL, run) && Fields() == s.sh
      {
        assert run[i..][0] == run[i] && run[i..][1..] == run[i + 1..];
        Perform(s, run[i]);
        s := Apply(s, run[i]);
      }
      assert run[|run|..] == [];
    }
  }

  /** The set of seen ids and the writes made so far both mirror the list of reported ids. */
  ghost predicate Reported(seen: set<string>, ids: seq<string>, writes: seq<Message>, cause: string) {
    writes == Errors(ids, FailText(cause)) && forall id :: id in seen <==> id in ids
  }

  lemma EmitLast(seen: seq<string>, ids: seq<string>, id: string)
    ensures EmitAll(seen, ids + [id]) == EmitId(EmitAll(seen, ids), id)
  {
    assert (ids + [id])[..|ids|] == ids;
  }
}
