/**
 Conservation of requests: in every interleaving each accepted request is in exactly one place.
 */
module RecoveryOwnership {
  import opened Prelude
  import opened Jsonrpc
  import opened RecoveryModel

  // ---------------------------------------------------------------- where a request can be

  /** How many dispatchers hold request t, that is, have not queued it for replay. */
  ghost function Live(ds: seq<Dispatcher>, t: nat): nat {
    if ds == [] then 0 else Live(ds[..|ds| - 1], t) + LiveOne(ds[|ds| - 1], t)
  }

  ghost function LiveOne(d: Dispatcher, t: nat): nat {
    if d.Holds() && d.token == t then 1 else 0
  }

  ghost function Count(tickets: seq<Ticket>, t: nat): nat {
    if tickets == [] then 0 else Count(tickets[..|tickets| - 1], t) + One(tickets[|tickets| - 1].token, t)
  }

  ghost function One(token: nat, t: nat): nat {
    if token == t then 1 else 0
  }

  ghost function AtReader(r: Reader, t: nat): nat {
    if r.Registered? then One(r.token, t) else 0
  }

  /** In how many places request t is: dispatchers, pendingReplay, a running pass, the reader, given up. */
  ghost function Owners(s: State, t: nat): nat {
    Live(s.ds, t) + Count(s.sh.pendingReplay, t) + Count(Rest(s.recovery), t) + AtReader(s.reader, t) + Count(s.dropped, t)
  }

  ghost predicate Conserved(s: State) {
    forall t: nat :: Owners(s, t) == if t < |s.tokens| then 1 else 0
  }

  /** Requests are given up only by a failing recovery. */
  ghost predicate DropsAreFailures(s: State) {
    s.dropped != [] ==> Over(s.recovery)
  }

  ghost predicate ReplayBounds(s: State) {
    s.recovery.Replaying? ==>
      s.recovery.next <= |s.recovery.p.pending| && (s.recovery.listed ==> s.recovery.next < |s.recovery.p.pending|)
  }

  ghost predicate Owned(s: State) {
    Conserved(s) && DropsAreFailures(s) && ReplayBounds(s)
  }

  // ---------------------------------------------------------------- counting

  lemma {:induction false} LiveAppend(ds: seq<Dispatcher>, d: Dispatcher, t: nat)
    ensures Live(ds + [d], t) == Live(ds, t) + LiveOne(d, t)
  {
    assert (ds + [d])[..|ds|] == ds;
  }

  /** Changing one dispatcher exchanges its own contribution and nothing else. */
  lemma {:induction false} LiveUpdate(ds: seq<Dispatcher>, i: nat, d: Dispatcher, t: nat)
    requires i < |ds|
    ensures Live(ds[i := d], t) + LiveOne(ds[i], t) == Live(ds, t) + LiveOne(d, t)
  {
    var n := |ds| - 1;
    if i == n {
      assert ds[i := d][..n] == ds[..n];
    } else {
      LiveUpdate(ds[..n], i, d, t);
      assert ds[i := d][..n] == ds[..n][i := d];
    }
  }

  lemma {:induction false} LiveContains(ds: seq<Dispatcher>, i: nat)
    requires i < |ds| && ds[i].Holds()
    ensures Live(ds, ds[i].token) >= 1
  {
    if i < |ds| - 1 {
      assert ds[..|ds| - 1][i] == ds[i];
      LiveContains(ds[..|ds| - 1], i);
    }
  }

  lemma {:induction false} LiveTwice(ds: seq<Dispatcher>, i: nat, j: nat)
    requires i < j < |ds| && ds[i].Holds() && ds[j].Holds() && ds[i].token == ds[j].token
    ensures Live(ds, ds[i].token) >= 2
  {
    var n := |ds| - 1;
    if j == n {
      assert ds[..n][i] == ds[i];
      LiveContains(ds[..n], i);
    } else {
      assert ds[..n][i] == ds[i] && ds[..n][j] == ds[j];
      LiveTwice(ds[..n], i, j);
    }
  }

  lemma {:induction false} CountAppend(a: seq<Ticket>, b: seq<Ticket>, t: nat)
    ensures Count(a + b, t) == Count(a, t) + Count(b, t)
  {
    if b == [] {
      assert a + b == a;
    } else {
      var n := |b| - 1;
      assert (a + b)[..|a + b| - 1] == a + b[..n];
      CountAppend(a, b[..n], t);
    }
  }

  lemma {:induction false} CountTail(a: seq<Ticket>, k: nat, t: nat)
    requires k < |a|
    ensures Count(a[k..], t) == One(a[k].token, t) + Count(a[k + 1..], t)
  {
    assert a[k..] == [a[k]] + a[k + 1..];
    CountAppend([a[k]], a[k + 1..], t);
    assert [a[k]][..0] == [];
  }

  // ---------------------------------------------------------------- every step keeps ownership

  lemma DKeepsOwners(s: State, i: nat, a: DStep, t: nat)
    requires i < |s.ds| && DEnabled(s, s.ds[i], a)
    ensures Owners(DApply(s, i, a), t) == Owners(s, t)
  {
    var d := s.ds[i];
    LiveUpdate(s.ds, i, DNext(s, d, a), t);
    if a.DQueue? {
      CountAppend(s.sh.pendingReplay, [Ticket(d.token, d.req)], t);
      assert [Ticket(d.token, d.req)][..0] == [];
    }
  }

  lemma RKeepsOwners(s: State, a: RStep, t: nat)
    requires REnabled(s, a)
    ensures Owners(RApply(s, a), t) == Owners(s, t) + if a.RRegister? && t == |s.tokens| then 1 else 0
  {
    if a.RSpawn? && s.reader.Registered? {
      LiveAppend(s.ds, RApply(s, a).ds[|s.ds|], t);
    }
  }

  /** A step of the pass that moves no request leaves every place as it was. */
  lemma CMovesNothing(s: State, a: CStep)
    requires CEnabled(s, a) && !a.CSpawn? && !a.CGrab? && !a.CFail? && !a.CShutdown?
    ensures CApply(s, a).ds == s.ds && CApply(s, a).sh.pendingReplay == s.sh.pendingReplay
    ensures CApply(s, a).dropped == s.dropped && CApply(s, a).reader == s.reader
    ensures ReplayBounds(s) ==> Rest(CApply(s, a).recovery) == Rest(s.recovery)
  {
  }

  lemma SpawnKeepsOwners(s: State, t: nat)
    requires CEnabled(s, CSpawn)
    ensures Owners(CApply(s, CSpawn), t) == Owners(s, t)
  {
    LiveAppend(s.ds, CApply(s, CSpawn).ds[|s.ds|], t);
    CountTail(s.recovery.p.pending, s.recovery.next, t);
  }

  lemma GrabKeepsOwners(s: State, t: nat)
    requires CEnabled(s, CGrab)
    ensures Owners(CApply(s, CGrab), t) == Owners(s, t)
  {
    CountAppend(s.dropped, s.sh.pendingReplay, t);
  }

  lemma FailureKeepsOwners(s: State, order: seq<string>, why: string, t: nat)
    requires CEnabled(s, CFail(order, why))
    ensures Owners(CApply(s, CFail(order, why)), t) == Owners(s, t)
  {
    CountAppend(s.dropped, s.recovery.p.pending, t);
  }

  lemma ShutdownKeepsOwners(s: State, order: seq<string>, t: nat)
    requires CEnabled(s, CShutdown(order))
    ensures Owners(CApply(s, CShutdown(order)), t) == Owners(s, t)
  {
    CountAppend(s.dropped, s.sh.pendingReplay, t);
  }

  lemma CKeepsOwners(s: State, a: CStep, t: nat)
    requires CEnabled(s, a) && ReplayBounds(s)
    ensures Owners(CApply(s, a), t) == Owners(s, t)
  {
    match a
    case CSpawn => SpawnKeepsOwners(s, t);
    case CGrab => GrabKeepsOwners(s, t);
    case CFail(order, why) => FailureKeepsOwners(s, order, why, t);
    case CShutdown(order) => ShutdownKeepsOwners(s, order, t);
    case _ => CMovesNothing(s, a);
  }

  lemma CKeepsBounds(s: State, a: CStep)
    requires CEnabled(s, a) && ReplayBounds(s) && DropsAreFailures(s)
    ensures ReplayBounds(CApply(s, a)) && DropsAreFailures(CApply(s, a)) && CApply(s, a).tokens == s.tokens
  {
  }

  lemma StepKeepsOwners(s: State, a: Step, t: nat)
    requires ReplayBounds(s) && Enabled(s, a)
    ensures Owners(Apply(s, a), t) == Owners(s, t) + if a == Read(RRegister) && t == |s.tokens| then 1 else 0
  {
    match a
    case Dispatch(i, d) => DKeepsOwners(s, i, d, t);
    case Copy(k, x) =>
    case Read(r) => RKeepsOwners(s, r, t);
    case Recover(c) => CKeepsOwners(s, c, t);
    case Cancel =>
  }

  lemma StepKeepsOwned(s: State, a: Step)
    requires Owned(s) && Enabled(s, a)
    ensures Owned(Apply(s, a))
  {
    if a.Recover? {
      CKeepsBounds(s, a.c);
    }
    forall t: nat ensures Owners(Apply(s, a), t) == if t < |Apply(s, a).tokens| then 1 else 0 {
      StepKeepsOwners(s, a, t);
    }
  }

  lemma {:induction false} RunKeepsOwned(s: State, run: seq<Step>)
    requires Owned(s) && Valid(s, run)
    ensures Owned(Final(s, run))
    decreases |run|
  {
    if run != [] {
      StepKeepsOwned(s, run[0]);
      RunKeepsOwned(Apply(s, run[0]), run[1..]);
    }
  }

  lemma InitiallyOwned()
    ensures Owned(INITIAL)
  {
  }
}
