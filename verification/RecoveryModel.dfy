/**
 The session-recovery protocol of internal/proxy/proxy.go as a transition system.

 One step is one mutex section, channel operation, lock acquisition, transport write or goroutine
 start, so a run interleaves the stdin reader, any number of request dispatchers, the relays
 (listener and fire-and-forget forwarders) and the recovery goroutine in every possible way.
 What the remote server, the client and the scheduler decide is carried by the step itself.

 `tokens`, `dropped`, `passes`, `planned`, `out` and `log` are history: no step's enabledness reads them.
 Token n is the n-th request the proxy accepted.
 */
module RecoveryModel {
  import opened Prelude
  import opened Jsonrpc

  const MAX_RECOVERY_ATTEMPTS := 3

  /** One item of a Send or Listen channel; `Refused` stands for Send itself returning an error. */
  datatype Event = Msg(m: Message) | Lost | Fail(text: string) | Refused(text: string)

  datatype Ticket = Ticket(token: nat, req: Message)

  // ---------------------------------------------------------------- shared fields

  /** The fields of Proxy guarded by mu, plus the trigger channel and recoveryFail. */
  datatype Shared = Shared(
    firstInitialize: Option<Message>,
    initializedNotif: Option<Message>,
    pendingReplay: seq<Ticket>,
    inFlight: map<string, Message>,
    attempts: nat,
    trigger: bool,
    failure: Option<string>)
  {
    function CaptureInitialize(m: Message): Shared { this.(firstInitialize := Some(m)) }
    function CaptureInitialized(m: Message): Shared { this.(initializedNotif := Some(m)) }
    function Register(req: Message): Shared { this.(inFlight := inFlight[req.id := req]) }
    function Unregister(id: string): Shared { this.(inFlight := inFlight - {id}) }
    function Enqueue(t: Ticket): Shared { this.(pendingReplay := pendingReplay + [t]) }
    function Signal(): Shared { this.(trigger := true) }
    function TakeSignal(): Shared { this.(trigger := false) }
    function CountAttempt(): Shared { this.(attempts := attempts + 1) }
    function ResetAttempts(): Shared { this.(attempts := 0) }
    function TakePending(): Shared { this.(pendingReplay := []) }
    function ClearInFlight(): Shared { this.(inFlight := map[]) }
    function RecordFailure(cause: string): Shared { if failure.None? then this.(failure := Some(cause)) else this }
  }

  // ---------------------------------------------------------------- goroutines

  datatype Origin = FirstSend | Replay(pass: nat)

  datatype Phase =
    | Sending                // Send not called yet
    | Reading                // in the select on the response channel
    | Relaying(m: Message)   // message received, not yet written
    | Refusing(m: Message)   // about to write an error response
    | Matched                // final response written, inFlight entry still there
    | Settling               // entry removed, attempts not yet zeroed
    | Leaving                // about to remove the entry and return
    | Done
    | LostSeen               // ErrSessionLost received, not yet queued
    | Queued                 // in pendingReplay, entry not yet removed
    | Unlisted               // entry removed, trigger not yet sent
    | HandedOver             // returned after the trigger

  datatype Dispatcher = Dispatcher(token: nat, req: Message, origin: Origin, phase: Phase, received: seq<Event>) {
    /** The dispatcher has not given its request away. */
    predicate Holds() {
      !phase.Queued? && !phase.Unlisted? && !phase.HandedOver?
    }
  }

  datatype RelayKind = Listener | Forward(m: Message)
  datatype RelayPhase = Opening | Streaming | Copying(m: Message) | LossSeen | Barrier | Stopped
  datatype Relay = Relay(kind: RelayKind, phase: RelayPhase, received: seq<Event>)

  datatype Reader = Waiting | Entered(m: Message) | Captured(m: Message) | Registered(token: nat, req: Message) | Handled | Finished

  /** What doRecovery copies out of the proxy at the start of a pass. */
  datatype Pass = Pass(number: nat, init: Option<Message>, notif: Option<Message>,
                       pending: seq<Ticket>, snapshot: map<string, Message>)

  datatype Recovery =
    | Idle
    | Consumed                                   // trigger received
    | Admitted                                   // attempt counted and allowed, waiting for recoveryMu
    | Locked                                     // recoveryMu held
    | Grabbed(p: Pass)
    | Cleared(p: Pass)                           // session reset
    | Initializing(p: Pass)                      // initialize sent
    | Initialized(p: Pass)                       // good answer received
    | Notifying(p: Pass)                         // initialized notification sent
    | Replaying(p: Pass, next: nat, listed: bool)
    | Failing(p: Pass, todo: seq<string>, text: string, cause: string)  // inside failAllPending
    | Unlocking(p: Pass, cause: string)
    | Aborting(cause: string)                    // in runRecovery, before failAndShutdown's section
    | ShuttingDown(todo: seq<string>, text: string)
    | Halted

  predicate WriterHeld(c: Recovery) {
    c.Locked? || c.Grabbed? || c.Cleared? || c.Initializing? || c.Initialized? || c.Notifying? ||
    c.Replaying? || c.Failing? || c.Unlocking?
  }

  predicate ReaderHeld(r: Reader) {
    r.Entered? || r.Captured? || r.Registered? || r.Handled?
  }

  /** Accepting messages and running a pass exclude each other through recoveryMu. */
  predicate Excluded(s: State) {
    !(WriterHeld(s.recovery) && ReaderHeld(s.reader))
  }

  /** Recovery has failed, or the goroutine has returned. */
  predicate Over(c: Recovery) {
    c.Failing? || c.Unlocking? || c.Aborting? || c.ShuttingDown? || c.Halted?
  }

  /** Requests held only in the local `pending` of a running pass. */
  function Rest(c: Recovery): seq<Ticket> {
    match c
    case Grabbed(p) => p.pending
    case Cleared(p) => p.pending
    case Initializing(p) => p.pending
    case Initialized(p) => p.pending
    case Notifying(p) => p.pending
    case Replaying(p, next, _) => if next <= |p.pending| then p.pending[next..] else []
    case _ => []
  }

  // ---------------------------------------------------------------- history

  datatype Source = FromDispatcher(i: nat) | FromRelay(k: nat) | FromRecovery

  /** One call of transport.Write; `ok` says whether the client saw it. */
  datatype Write = Write(src: Source, m: Message, ok: bool)

  datatype Entry =
    | Began(pass: nat, init: Option<Message>, notif: Option<Message>)
    | SessionReset(pass: nat)
    | InitSent(pass: nat, m: Message)
    | InitAnswered(pass: nat, m: Message)
    | NotifSent(pass: nat, m: Message)
    | NotifDrained(pass: nat)
    | Spawned(pass: nat, i: nat)
    | Sent(i: nat)

  datatype State = State(
    sh: Shared, reader: Reader, recovery: Recovery, ds: seq<Dispatcher>, relays: seq<Relay>, cancelled: bool,
    tokens: seq<Message>, dropped: seq<Ticket>, passes: nat, planned: seq<Message>, out: seq<Write>, log: seq<Entry>)

  const INITIAL := State(
    Shared(None, None, [], map[], 0, false, None), Waiting, Idle, [], [Relay(Listener, Opening, [])], false,
    [], [], 0, [], [], [])

  // ---------------------------------------------------------------- steps

  datatype DStep =
    | DSend(refused: Option<string>) | DReceive(ev: Event) | DClose | DCancel
    | DWrite(ok: bool) | DUnregister | DReset | DQueue | DTrigger

  datatype XStep = XOpen(ok: bool) | XReceive(ev: Event) | XClose | XWrite(ok: bool) | XTrigger | XBarrier | XQuit

  datatype RStep = RTake(m: Message) | RCapture | RRegister | RSpawn | RRelease | RStop

  datatype CStep =
    | CConsume | CQuit | CCount | CLock
    | CGrab
    | CReset
    | CSendInit | CInitEvent(m: Message)
    | CSkipNotif | CSendNotif | CNotifEvent(m: Message) | CNotifClosed
    | CFail(order: seq<string>, why: string)
    | CList | CSpawn | CFinish
    | CEmit(ok: bool) | CClear | CUnlock
    | CShutdown(order: seq<string>)

  datatype Step = Dispatch(i: nat, d: DStep) | Copy(k: nat, x: XStep) | Read(r: RStep) | Recover(c: CStep) | Cancel

  // ---------------------------------------------------------------- dispatchRequest

  predicate DEnabled(s: State, d: Dispatcher, a: DStep) {
    match a
    case DSend(_) => d.phase.Sending?
    case DReceive(ev) => d.phase.Reading? && !ev.Refused?
    case DClose => d.phase.Reading?
    case DCancel => d.phase.Reading? && s.cancelled
    case DWrite(_) => d.phase.Relaying? || d.phase.Refusing?
    case DUnregister => d.phase.Matched? || d.phase.Leaving? || d.phase.Queued?
    case DReset => d.phase.Settling?
    case DQueue => d.phase.LostSeen?
    case DTrigger => d.phase.Unlisted?
  }

  function SendText(why: string): string { "remote send: " + why }

  function DNext(s: State, d: Dispatcher, a: DStep): Dispatcher
    requires DEnabled(s, d, a)
  {
    match a
    case DSend(None) => d.(phase := Reading)
    case DSend(Some(why)) =>
      d.(phase := Refusing(ErrorResponse(d.req.id, SendText(why))), received := d.received + [Refused(why)])
    case DReceive(ev) =>
      var got := d.(received := d.received + [ev]);
      if ev.Msg? then got.(phase := Relaying(ev.m))
      else if ev.Lost? then got.(phase := LostSeen)
      else got.(phase := Refusing(ErrorResponse(d.req.id, ev.text)))
    case DClose => d.(phase := Leaving)
    case DCancel => d.(phase := Leaving)
    case DWrite(_) =>
      if d.phase.Refusing? then d.(phase := Leaving)
      else if d.phase.m.Answers(d.req.id) then d.(phase := Matched)
      else d.(phase := Reading)
    case DUnregister =>
      if d.phase.Matched? then d.(phase := Settling)
      else if d.phase.Leaving? then d.(phase := Done)
      else d.(phase := Unlisted)
    case DReset => d.(phase := Reading)
    case DQueue => d.(phase := Queued)
    case DTrigger => d.(phase := HandedOver)
  }

  function DShared(sh: Shared, d: Dispatcher, a: DStep): Shared {
    match a
    case DUnregister => sh.Unregister(d.req.id)
    case DReset => sh.ResetAttempts()
    case DQueue => sh.Enqueue(Ticket(d.token, d.req))
    case DTrigger => sh.Signal()
    case _ => sh
  }

  function DApply(s: State, i: nat, a: DStep): State
    requires i < |s.ds| && DEnabled(s, s.ds[i], a)
  {
    var d := s.ds[i];
    s.(ds := s.ds[i := DNext(s, d, a)],
       sh := DShared(s.sh, d, a),
       out := if a.DWrite? then s.out + [Write(FromDispatcher(i), d.phase.m, a.ok)] else s.out,
       log := if a.DSend? then s.log + [Sent(i)] else s.log)
  }

  // ---------------------------------------------------------------- runListener and the forwarders

  predicate XEnabled(s: State, r: Relay, a: XStep) {
    match a
    case XOpen(_) => r.phase.Opening?
    case XReceive(ev) => r.phase.Streaming? && !ev.Refused?
    case XClose => r.phase.Streaming?
    case XWrite(_) => r.phase.Copying?
    case XTrigger => r.phase.LossSeen?
    case XBarrier => r.phase.Barrier? && !WriterHeld(s.recovery)
    case XQuit => r.kind.Listener? && r.phase.Opening? && s.cancelled
  }

  function XNext(s: State, r: Relay, a: XStep): Relay
    requires XEnabled(s, r, a)
  {
    match a
    case XOpen(ok) => r.(phase := if ok then Streaming else Stopped)
    case XReceive(ev) =>
      var got := r.(received := r.received + [ev]);
      if ev.Msg? then got.(phase := Copying(ev.m))
      else if ev.Lost? then got.(phase := LossSeen)
      else got.(phase := Stopped)
    case XClose => r.(phase := Stopped)
    case XWrite(_) => r.(phase := Streaming)
    case XTrigger => r.(phase := if r.kind.Listener? then Barrier else Stopped)
    case XBarrier => r.(phase := if s.sh.failure.Some? || s.cancelled then Stopped else Opening)
    case XQuit => r.(phase := Stopped)
  }

  function XApply(s: State, k: nat, a: XStep): State
    requires k < |s.relays| && XEnabled(s, s.relays[k], a)
  {
    var r := s.relays[k];
    s.(relays := s.relays[k := XNext(s, r, a)],
       sh := if a.XTrigger? then s.sh.Signal() else s.sh,
       out := if a.XWrite? then s.out + [Write(FromRelay(k), r.phase.m, a.ok)] else s.out)
  }

  // ---------------------------------------------------------------- runStdinReader

  predicate REnabled(s: State, a: RStep) {
    match a
    case RTake(_) => s.reader.Waiting? && !WriterHeld(s.recovery)
    case RCapture => s.reader.Entered?
    case RRegister => s.reader.Captured? && s.reader.m.IsRequest()
    case RSpawn => s.reader.Registered? || (s.reader.Captured? && !s.reader.m.IsRequest())
    case RRelease => s.reader.Handled?
    case RStop => s.reader.Waiting?
  }

  function Capture(sh: Shared, m: Message): Shared {
    if m.IsRequest() && m.verb == METHOD_INITIALIZE then sh.CaptureInitialize(m)
    else if m.IsNotification() && m.verb == METHOD_INITIALIZED then sh.CaptureInitialized(m)
    else sh
  }

  function RApply(s: State, a: RStep): State
    requires REnabled(s, a)
  {
    match a
    case RTake(m) => s.(reader := Entered(m))
    case RCapture => s.(reader := Captured(s.reader.m), sh := Capture(s.sh, s.reader.m))
    case RRegister =>
      s.(reader := Registered(|s.tokens|, s.reader.m), sh := s.sh.Register(s.reader.m), tokens := s.tokens + [s.reader.m])
    case RSpawn =>
      if s.reader.Registered? then
        s.(reader := Handled, ds := s.ds + [Dispatcher(s.reader.token, s.reader.req, FirstSend, Sending, [])])
      else if s.reader.m.IsNotification() || s.reader.m.IsResponse() then
        s.(reader := Handled, relays := s.relays + [Relay(Forward(s.reader.m), Opening, [])])
      else
        s.(reader := Handled)
    case RRelease =>
      if s.sh.failure.Some? then s.(reader := Finished, cancelled := true) else s.(reader := Waiting)
    case RStop => s.(reader := Finished, cancelled := true)
  }

  // ---------------------------------------------------------------- runRecovery, doRecovery, failAndShutdown

  /** `emit` in failAllPending: an id is reported once, an empty id never. */
  function EmitId(seen: seq<string>, id: string): seq<string> {
    if id == "" || id in seen then seen else seen + [id]
  }

  function EmitAll(seen: seq<string>, ids: seq<string>): seq<string> {
    if ids == [] then seen else EmitId(EmitAll(seen, ids[..|ids| - 1]), ids[|ids| - 1])
  }

  function SnapshotIds(order: seq<string>, snapshot: map<string, Message>): seq<string>
    requires forall k :: k in order ==> k in snapshot
  {
    seq(|order|, j requires 0 <= j < |order| => snapshot[order[j]].id)
  }

  function TicketIds(pending: seq<Ticket>): seq<string> {
    seq(|pending|, j requires 0 <= j < |pending| => pending[j].req.id)
  }

  /** One order in which Go may range over the snapshot map. */
  ghost predicate RangeOrder(order: seq<string>, snapshot: map<string, Message>) {
    NoDup(order) && forall k :: k in order <==> k in snapshot
  }

  /** The ids failAllPending reports, in the order it reports them. */
  function FailIds(order: seq<string>, snapshot: map<string, Message>, pending: seq<Ticket>): seq<string>
    requires forall k :: k in order ==> k in snapshot
  {
    EmitAll(EmitAll([], SnapshotIds(order, snapshot)), TicketIds(pending))
  }

  function FailText(cause: string): string { "session lost, recovery failed: " + cause }

  function Errors(ids: seq<string>, text: string): seq<Message> {
    seq(|ids|, j requires 0 <= j < |ids| => ErrorResponse(ids[j], text))
  }

  /** A replay step that may still fail. */
  predicate MayFail(c: Recovery) {
    c.Cleared? || c.Initializing? || (c.Initialized? && c.p.notif.Some?) || c.Notifying?
  }

  ghost predicate CEnabled(s: State, a: CStep) {
    var c := s.recovery;
    match a
    case CConsume => c.Idle? && s.sh.trigger
    case CQuit => c.Idle? && s.cancelled
    case CCount => c.Consumed?
    case CLock => c.Admitted? && !ReaderHeld(s.reader)
    case CGrab => c.Locked?
    case CReset => c.Grabbed? && c.p.init.Some?
    case CSendInit => c.Cleared? && c.p.init.Some?
    case CInitEvent(m) => c.Initializing? && c.p.init.Some? && (m.Answers(c.p.init.value.id) ==> m.error.NoError?)
    case CSkipNotif => c.Initialized? && c.p.notif.None?
    case CSendNotif => c.Initialized? && c.p.notif.Some?
    case CNotifEvent(_) => c.Notifying?
    case CNotifClosed => c.Notifying?
    case CFail(order, _) => MayFail(c) && RangeOrder(order, c.p.snapshot)
    case CList => c.Replaying? && !c.listed && c.next < |c.p.pending|
    case CSpawn => c.Replaying? && c.listed && c.next < |c.p.pending|
    case CFinish => c.Replaying? && !c.listed && c.next >= |c.p.pending|
    case CEmit(_) => (c.Failing? || c.ShuttingDown?) && c.todo != []
    case CClear => (c.Failing? || c.ShuttingDown?) && c.todo == []
    case CUnlock => c.Unlocking?
    case CShutdown(order) => c.Aborting? && RangeOrder(order, s.sh.inFlight)
  }

  const NO_INITIALIZE := "recovery: no captured initialize request"
  const TOO_MANY := "recovery: exceeded 3 attempts"

  /** doRecovery wraps the error of the replay step it was in. */
  function Wrapped(c: Recovery, why: string): string {
    if c.Cleared? || c.Initializing? then "replay initialize: " + why else "replay initialized notif: " + why
  }

  function CApply(s: State, a: CStep): State
    requires CEnabled(s, a)
  {
    var c := s.recovery;
    match a
    case CConsume => s.(recovery := Consumed, sh := s.sh.TakeSignal())
    case CQuit => s.(recovery := Halted)
    case CCount =>
      s.(sh := s.sh.CountAttempt(),
         recovery := if s.sh.attempts + 1 > MAX_RECOVERY_ATTEMPTS then Aborting(TOO_MANY) else Admitted)
    case CLock => s.(recovery := Locked, passes := s.passes + 1)
    case CGrab =>
      var p := Pass(s.passes, s.sh.firstInitialize, s.sh.initializedNotif, s.sh.pendingReplay, s.sh.inFlight);
      if p.init.None? then
        s.(recovery := Unlocking(p, NO_INITIALIZE), sh := s.sh.TakePending(), dropped := s.dropped + p.pending)
      else
        s.(recovery := Grabbed(p), sh := s.sh.TakePending(), log := s.log + [Began(p.number, p.init, p.notif)])
    case CReset => s.(recovery := Cleared(c.p), log := s.log + [SessionReset(c.p.number)])
    case CSendInit => s.(recovery := Initializing(c.p), log := s.log + [InitSent(c.p.number, c.p.init.value)])
    case CInitEvent(m) =>
      if m.Answers(c.p.init.value.id)
      then s.(recovery := Initialized(c.p), log := s.log + [InitAnswered(c.p.number, m)])
      else s
    case CSkipNotif => s.(recovery := Replaying(c.p, 0, false))
    case CSendNotif => s.(recovery := Notifying(c.p), log := s.log + [NotifSent(c.p.number, c.p.notif.value)])
    case CNotifEvent(_) => s
    case CNotifClosed => s.(recovery := Replaying(c.p, 0, false), log := s.log + [NotifDrained(c.p.number)])
    case CFail(order, why) =>
      var ids := FailIds(order, c.p.snapshot, c.p.pending);
      s.(recovery := Failing(c.p, ids, FailText(why), Wrapped(c, why)),
         planned := s.planned + Errors(ids, FailText(why)),
         dropped := s.dropped + c.p.pending)
    case CList => s.(recovery := c.(listed := true), sh := s.sh.Register(c.p.pending[c.next].req))
    case CSpawn =>
      var t := c.p.pending[c.next];
      s.(recovery := c.(listed := false, next := c.next + 1),
         ds := s.ds + [Dispatcher(t.token, t.req, Replay(c.p.number), Sending, [])],
         log := s.log + [Spawned(c.p.number, |s.ds|)])
    case CFinish => s.(recovery := Idle)
    case CEmit(ok) =>
      s.(recovery := c.(todo := c.todo[1..]), out := s.out + [Write(FromRecovery, ErrorResponse(c.todo[0], c.text), ok)])
    case CClear =>
      s.(recovery := if c.Failing? then Unlocking(c.p, c.cause) else Halted, sh := s.sh.ClearInFlight())
    case CUnlock => s.(recovery := Aborting(c.cause))
    case CShutdown(order) =>
      var ids := FailIds(order, s.sh.inFlight, s.sh.pendingReplay);
      s.(recovery := ShuttingDown(ids, FailText(c.cause)),
         planned := s.planned + Errors(ids, FailText(c.cause)),
         dropped := s.dropped + s.sh.pendingReplay,
         sh := s.sh.TakePending().RecordFailure(c.cause))
  }

  // ---------------------------------------------------------------- the whole system

  ghost predicate Enabled(s: State, a: Step) {
    match a
    case Dispatch(i, d) => i < |s.ds| && DEnabled(s, s.ds[i], d)
    case Copy(k, x) => k < |s.relays| && XEnabled(s, s.relays[k], x)
    case Read(r) => REnabled(s, r)
    case Recover(c) => CEnabled(s, c)
    case Cancel => true
  }

  function Apply(s: State, a: Step): State
    requires Enabled(s, a)
  {
    match a
    case Dispatch(i, d) => DApply(s, i, d)
    case Copy(k, x) => XApply(s, k, x)
    case Read(r) => RApply(s, r)
    case Recover(c) => CApply(s, c)
    case Cancel => s.(cancelled := true)
  }

  /** Every step of the schedule is enabled when its turn comes. */
  ghost predicate Valid(s: State, run: seq<Step>)
    decreases |run|
  {
    run == [] || (Enabled(s, run[0]) && Valid(Apply(s, run[0]), run[1..]))
  }

  ghost function Final(s: State, run: seq<Step>): State
    requires Valid(s, run)
    decreases |run|
  {
    if run == [] then s else Final(Apply(s, run[0]), run[1..])
  }

  ghost predicate Leads(run: seq<Step>, s: State) {
    Valid(INITIAL, run) && Final(INITIAL, run) == s
  }

  /** Some schedule leads from the initial state to s. */
  ghost predicate Reachable(s: State) {
    exists run: seq<Step> :: Leads(run, s)
  }
}
