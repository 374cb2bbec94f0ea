/**
 The recovery machinery comes to rest. A potential function falls on every step the dispatchers and
 the recovery goroutine take on their own account; only accepting a request or receiving a message
 raises it, each by a constant amount. The listener and the forwarders never touch it, however
 often they ask for recovery.
 */
module RecoveryProgress {
  import opened Prelude
  import opened Jsonrpc
  import opened RecoveryModel
  import opened RecoveryOwnership
  import opened RecoveryPasses
  import opened RecoveryBounds

  // ---------------------------------------------------------------- sizes

  lemma {:induction false} Pigeonhole<T>(s: seq<T>, u: set<T>)
    requires NoDup(s) && forall x :: x in s ==> x in u
    ensures |s| <= |u|
  {
    if s != [] {
      var n := |s| - 1;
      assert forall x :: x in s[..n] ==> x in s && x != s[n];
      Pigeonhole(s[..n], u - {s[n]});
    }
  }

  ghost function Below(n: nat): (u: set<nat>)
    ensures |u| == n && forall t: nat :: t in u <==> t < n
  {
    if n == 0 then {} else Below(n - 1) + {n - 1}
  }

  ghost function IdsOf(tokens: seq<Message>): set<string> {
    set m | m in tokens :: m.id
  }

  lemma {:induction false} IdsSize(tokens: seq<Message>)
    ensures |IdsOf(tokens)| <= |tokens|
  {
    if tokens != [] {
      var n := |tokens| - 1;
      IdsSize(tokens[..n]);
      assert tokens == tokens[..n] + [tokens[n]];
      assert IdsOf(tokens) == IdsOf(tokens[..n]) + {tokens[n].id};
    }
  }

  lemma {:induction false} CountContains(ts: seq<Ticket>, i: nat)
    requires i < |ts|
    ensures Count(ts, ts[i].token) >= 1
  {
    if i < |ts| - 1 {
      assert ts[..|ts| - 1][i] == ts[i];
      CountContains(ts[..|ts| - 1], i);
    }
  }

  lemma {:induction false} CountTwice(ts: seq<Ticket>, i: nat, j: nat)
    requires i < j < |ts| && ts[i].token == ts[j].token
    ensures Count(ts, ts[i].token) >= 2
  {
    var n := |ts| - 1;
    assert ts[..n][i] == ts[i];
    if j == n {
      CountContains(ts[..n], i);
    } else {
      assert ts[..n][j] == ts[j];
      CountTwice(ts[..n], i, j);
    }
  }

  /** A queue that holds no request twice is no longer than the list of accepted requests. */
  lemma QueueSize(ts: seq<Ticket>, n: nat)
    requires forall j :: 0 <= j < |ts| ==> ts[j].token < n
    requires forall t: nat :: Count(ts, t) <= 1
    ensures |ts| <= n
  {
    var names := seq(|ts|, j requires 0 <= j < |ts| => ts[j].token);
    forall i, j | 0 <= i < j < |names| ensures names[i] != names[j] {
      if names[i] == names[j] {
        CountTwice(ts, i, j);
      }
    }
    Pigeonhole(names, Below(n));
  }

  // ---------------------------------------------------------------- inFlight names accepted requests

  ghost predicate NamesAccepted(s: State) {
    && (forall k :: k in s.sh.inFlight ==> k in IdsOf(s.tokens))
    && (PassOf(s.recovery).Some? ==> forall k :: k in PassOf(s.recovery).value.snapshot ==> k in IdsOf(s.tokens))
  }

  lemma DKeepsNames(s: State, i: nat, a: DStep)
    requires NamesAccepted(s) && i < |s.ds| && DEnabled(s, s.ds[i], a)
    ensures NamesAccepted(DApply(s, i, a))
  {
  }

  lemma RKeepsNames(s: State, a: RStep)
    requires NamesAccepted(s) && REnabled(s, a)
    ensures NamesAccepted(RApply(s, a))
  {
    var s' := RApply(s, a);
    assert forall m :: m in s.tokens ==> m in s'.tokens;
    if a.RRegister? {
      assert s.reader.m in s'.tokens;
    }
  }

  lemma CKeepsNames(s: State, a: CStep)
    requires NamesAccepted(s) && ElsewhereGenuine(s) && CEnabled(s, a)
    ensures NamesAccepted(CApply(s, a))
  {
    if a.CList? {
      assert Genuine(s.tokens, s.recovery.p.pending[s.recovery.next]);
    }
  }

  lemma {:induction false} EmitAllSize(seen: seq<string>, ids: seq<string>)
    ensures |EmitAll(seen, ids)| <= |seen| + |ids|
  {
    if ids != [] {
      EmitAllSize(seen, ids[..|ids| - 1]);
    }
  }

  lemma BlanketSize(order: seq<string>, snapshot: map<string, Message>, pending: seq<Ticket>, tokens: seq<Message>)
    requires RangeOrder(order, snapshot) && (forall k :: k in snapshot ==> k in IdsOf(tokens))
    requires |pending| <= |tokens|
    ensures |FailIds(order, snapshot, pending)| <= 2 * |tokens|
  {
    IdsSize(tokens);
    Pigeonhole(order, IdsOf(tokens));
    EmitAllSize([], SnapshotIds(order, snapshot));
    EmitAllSize(EmitAll([], SnapshotIds(order, snapshot)), TicketIds(pending));
  }

  // ---------------------------------------------------------------- the potential

  function Cost(p: Phase): nat {
    match p
    case Sending => 5
    case Relaying(_) => 5
    case Reading => 4
    case LostSeen => 3
    case Refusing(_) => 2
    case Queued => 2
    case Leaving => 1
    case Matched => 1
    case Unlisted => 1
    case _ => 0
  }

  ghost function Costs(ds: seq<Dispatcher>): nat {
    if ds == [] then 0 else Costs(ds[..|ds| - 1]) + Cost(ds[|ds| - 1].phase)
  }

  /** Enough for a pass over n requests, paid out when the pass is admitted. */
  function PassCost(n: nat): nat { 11 + 7 * n }

  function Reserve(attempts: nat, n: nat): nat {
    if attempts == 0 then 3 * PassCost(n)
    else if attempts == 1 then 2 * PassCost(n)
    else if attempts == 2 then PassCost(n)
    else 0
  }

  function Left(c: Recovery, n: nat): nat {
    var idle := 4 * n + 6;
    match c
    case Idle => idle
    case Consumed => idle - 1
    case Admitted => idle + 9 + 7 * n
    case Locked => idle + 8 + 7 * n
    case Grabbed(p) => idle + 7 + 7 * |p.pending|
    case Cleared(p) => idle + 6 + 7 * |p.pending|
    case Initializing(p) => idle + 5 + 7 * |p.pending|
    case Initialized(p) => idle + 4 + 7 * |p.pending|
    case Notifying(p) => idle + 3 + 7 * |p.pending|
    case Replaying(p, next, listed) => idle + 1 + 7 * |Rest(c)| + (if listed || Rest(c) == [] then 0 else 1)
    case Failing(_, todo, _, _) => |todo| + 2 * n + 4
    case Unlocking(_, _) => 2 * n + 3
    case Aborting(_) => 2 * n + 2
    case ShuttingDown(todo, _) => |todo| + 1
    case Halted => 0
  }

  ghost function Potential(s: State): nat {
    Costs(s.ds) + Reserve(s.sh.attempts, |s.tokens|) + Left(s.recovery, |s.tokens|)
  }

  /** Steps decided outside the machinery: an accepted request, a message that arrived. */
  predicate FromOutside(a: Step) {
    match a
    case Dispatch(_, d) => d.DReceive? && d.ev.Msg?
    case Copy(_, _) => true
    case Read(_) => true
    case Recover(c) => c.CInitEvent? || c.CNotifEvent?
    case Cancel => true
  }

  const ACCEPT_COST := 32
  const START_COST := 5

  /** A final response gives recovery all its attempts back, and its dispatcher goes on reading. */
  function ResetCost(n: nat): nat { 5 + 3 * PassCost(n) }

  /** What a step brings in from outside: an accepted request, a message, a session that has proved to work. */
  function Gift(s: State, a: Step): nat {
    match a
    case Dispatch(_, d) => if d.DReceive? && d.ev.Msg? then 1 else if d.DReset? then ResetCost(|s.tokens|) else 0
    case Read(r) => if r.RRegister? then ACCEPT_COST else if r.RSpawn? && s.reader.Registered? then START_COST else 0
    case _ => 0
  }

  lemma {:induction false} CostsAppend(ds: seq<Dispatcher>, d: Dispatcher)
    ensures Costs(ds + [d]) == Costs(ds) + Cost(d.phase)
  {
    assert (ds + [d])[..|ds|] == ds;
  }

  lemma {:induction false} CostsUpdate(ds: seq<Dispatcher>, i: nat, d: Dispatcher)
    requires i < |ds|
    ensures Costs(ds[i := d]) + Cost(ds[i].phase) == Costs(ds) + Cost(d.phase)
  {
    var n := |ds| - 1;
    if i == n {
      assert ds[i := d][..n] == ds[..n];
    } else {
      CostsUpdate(ds[..n], i, d);
      assert ds[i := d][..n] == ds[..n][i := d];
    }
  }

  ghost predicate Sized(s: State) {
    Owned(s) && ElsewhereGenuine(s) && NamesAccepted(s)
  }

  lemma DPays(s: State, i: nat, a: DStep)
    requires i < |s.ds| && DEnabled(s, s.ds[i], a)
    ensures Potential(DApply(s, i, a)) <=
      Potential(s) + Gift(s, Dispatch(i, a)) - (if FromOutside(Dispatch(i, a)) then 0 else 1)
  {
    CostsUpdate(s.ds, i, DNext(s, s.ds[i], a));
  }

  /** One more accepted request: it can be in a pass, in three more, and in the report of a failure. */
  lemma LeftGrows(c: Recovery, n: nat)
    ensures Left(c, n + 1) <= Left(c, n) + 11
  {
  }

  lemma ReserveGrows(attempts: nat, n: nat)
    ensures Reserve(attempts, n + 1) <= Reserve(attempts, n) + 21
  {
  }

  lemma RegisterPays(s: State)
    requires REnabled(s, RRegister)
    ensures Potential(RApply(s, RRegister)) <= Potential(s) + ACCEPT_COST
  {
    var t := RApply(s, RRegister);
    assert t.ds == s.ds && t.recovery == s.recovery && t.sh.attempts == s.sh.attempts && |t.tokens| == |s.tokens| + 1;
    LeftGrows(s.recovery, |s.tokens|);
    ReserveGrows(s.sh.attempts, |s.tokens|);
  }

  lemma RPays(s: State, a: RStep)
    requires Sized(s) && REnabled(s, a)
    ensures Potential(RApply(s, a)) <= Potential(s) + Gift(s, Read(a))
  {
    match a
    case RRegister => RegisterPays(s);
    case RSpawn =>
      if s.reader.Registered? {
        CostsAppend(s.ds, RApply(s, a).ds[|s.ds|]);
      }
    case _ =>
  }

  /** The potential the recovery goroutine itself carries. */
  ghost function Carried(s: State): nat {
    Reserve(s.sh.attempts, |s.tokens|) + Left(s.recovery, |s.tokens|)
  }

  lemma PendingFits(s: State)
    requires Sized(s)
    ensures |s.sh.pendingReplay| <= |s.tokens|
  {
    forall t: nat ensures Count(s.sh.pendingReplay, t) <= 1 {
      assert Owners(s, t) <= 1;
    }
    forall j | 0 <= j < |s.sh.pendingReplay| ensures s.sh.pendingReplay[j].token < |s.tokens| {
      assert Genuine(s.tokens, s.sh.pendingReplay[j]);
    }
    QueueSize(s.sh.pendingReplay, |s.tokens|);
  }

  lemma RestFits(s: State)
    requires Sized(s) && MayFail(s.recovery)
    ensures |s.recovery.p.pending| <= |s.tokens|
  {
    var p := s.recovery.p.pending;
    forall t: nat ensures Count(p, t) <= 1 {
      assert Owners(s, t) <= 1;
    }
    forall j | 0 <= j < |p| ensures p[j].token < |s.tokens| {
      assert Genuine(s.tokens, p[j]);
    }
    QueueSize(p, |s.tokens|);
  }

  lemma FailurePays(s: State, order: seq<string>, why: string)
    requires Sized(s) && CEnabled(s, CFail(order, why))
    ensures Carried(CApply(s, CFail(order, why))) < Carried(s)
  {
    RestFits(s);
    BlanketSize(order, s.recovery.p.snapshot, s.recovery.p.pending, s.tokens);
  }

  lemma ShutdownPays(s: State, order: seq<string>)
    requires Sized(s) && CEnabled(s, CShutdown(order))
    ensures Carried(CApply(s, CShutdown(order))) < Carried(s)
  {
    PendingFits(s);
    BlanketSize(order, s.sh.inFlight, s.sh.pendingReplay, s.tokens);
  }

  lemma SpawnPays(s: State)
    requires CEnabled(s, CSpawn)
    ensures Potential(CApply(s, CSpawn)) < Potential(s)
  {
    CostsAppend(s.ds, CApply(s, CSpawn).ds[|s.ds|]);
  }

  lemma StepwisePays(s: State, a: CStep)
    requires CEnabled(s, a) && !a.CSpawn? && !a.CGrab? && !a.CFail? && !a.CShutdown?
    requires !a.CInitEvent? && !a.CNotifEvent?
    ensures Carried(CApply(s, a)) < Carried(s)
  {
  }

  lemma OtherwisePays(s: State, a: CStep)
    requires CEnabled(s, a) && !a.CSpawn? && !a.CGrab? && !a.CFail? && !a.CShutdown?
    requires !a.CInitEvent? && !a.CNotifEvent?
    ensures Potential(CApply(s, a)) < Potential(s)
  {
    StepwisePays(s, a);
    CMovesNothing(s, a);
  }

  lemma CPays(s: State, a: CStep)
    requires Sized(s) && CEnabled(s, a)
    ensures Potential(CApply(s, a)) <= Potential(s) - (if FromOutside(Recover(a)) then 0 else 1)
  {
    match a
    case CSpawn => SpawnPays(s);
    case CGrab => PendingFits(s);
    case CFail(order, why) => FailurePays(s, order, why);
    case CShutdown(order) => ShutdownPays(s, order);
    case CInitEvent(_) =>
    case CNotifEvent(_) =>
    case _ => OtherwisePays(s, a);
  }

  lemma StepPays(s: State, a: Step)
    requires Sized(s) && Enabled(s, a)
    ensures Potential(Apply(s, a)) <= Potential(s) + Gift(s, a) - (if FromOutside(a) then 0 else 1)
  {
    match a
    case Dispatch(i, d) => DPays(s, i, d);
    case Copy(k, x) =>
    case Read(r) => RPays(s, r);
    case Recover(c) => CPays(s, c);
    case Cancel =>
  }
}
