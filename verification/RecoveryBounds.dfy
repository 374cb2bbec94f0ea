/**
 Bounded replay. Between two zeroings of the attempt counter the number of passes is bounded, every
 request is sent a bounded number of times, and the dispatchers and the recovery goroutine together
 can take only a bounded number of steps per accepted request and received message.
 */
module RecoveryBounds {
  import opened Prelude
  import opened Jsonrpc
  import opened RecoveryModel
  import opened RecoveryOwnership
  import opened RecoveryPasses

  function Min(a: int, b: int): int {
    if a < b then a else b
  }

  predicate IsReset(a: Step) {
    a.Dispatch? && a.d.DReset?
  }

  /** A stretch of a run in which no final response zeroes the attempt counter. */
  ghost predicate NoReset(run: seq<Step>) {
    forall j :: 0 <= j < |run| ==> !IsReset(run[j])
  }

  // ---------------------------------------------------------------- passes

  function Admission(c: Recovery): nat {
    if c.Admitted? then 1 else 0
  }

  /** Passes begun, plus the one admitted, less the attempts that were allowed. */
  function Balance(s: State): int {
    s.passes + Admission(s.recovery) - Min(s.sh.attempts, MAX_RECOVERY_ATTEMPTS)
  }

  lemma CKeepsBalance(s: State, a: CStep)
    requires CEnabled(s, a)
    ensures Balance(CApply(s, a)) == Balance(s)
  {
  }

  lemma StepKeepsBalance(s: State, a: Step)
    requires Enabled(s, a) && !IsReset(a)
    ensures Balance(Apply(s, a)) == Balance(s)
  {
    match a
    case Recover(c) => CKeepsBalance(s, c);
    case Dispatch(_, _) =>
    case Copy(_, _) =>
    case Read(_) =>
    case Cancel =>
  }

  lemma {:induction false} StretchKeepsBalance(s: State, run: seq<Step>)
    requires Valid(s, run) && NoReset(run)
    ensures Balance(Final(s, run)) == Balance(s)
    decreases |run|
  {
    if run != [] {
      StepKeepsBalance(s, run[0]);
      StretchKeepsBalance(Apply(s, run[0]), run[1..]);
    }
  }

  /**
   In any stretch without a reset, starting anywhere, at most three passes are admitted; one more can
   begin only if it had been admitted before the stretch started.
   */
  lemma StretchPasses(s: State, run: seq<Step>)
    requires Valid(s, run) && NoReset(run)
    ensures Final(s, run).passes - s.passes + Admission(Final(s, run).recovery) <= Budget(s)
  {
    StretchKeepsBalance(s, run);
  }

  // ---------------------------------------------------------------- sends of one request

  /** How many dispatchers were ever started for request t. */
  ghost function Tries(ds: seq<Dispatcher>, t: nat): nat {
    if ds == [] then 0 else Tries(ds[..|ds| - 1], t) + One(ds[|ds| - 1].token, t)
  }

  lemma {:induction false} TriesAppend(ds: seq<Dispatcher>, d: Dispatcher, t: nat)
    ensures Tries(ds + [d], t) == Tries(ds, t) + One(d.token, t)
  {
    assert (ds + [d])[..|ds|] == ds;
  }

  lemma {:induction false} TriesUpdate(ds: seq<Dispatcher>, i: nat, d: Dispatcher, t: nat)
    requires i < |ds| && d.token == ds[i].token
    ensures Tries(ds[i := d], t) == Tries(ds, t)
  {
    var n := |ds| - 1;
    if i == n {
      assert ds[i := d][..n] == ds[..n];
    } else {
      TriesUpdate(ds[..n], i, d, t);
      assert ds[i := d][..n] == ds[..n][i := d];
    }
  }

  function Holding(c: Recovery): nat {
    if c.Locked? then 1 else 0
  }

  /** Starts of request t, done or already decided on; a pass that has just taken recoveryMu may still grab it. */
  ghost function Committed(s: State, t: nat): nat {
    Tries(s.ds, t) + Count(Rest(s.recovery), t) + AtReader(s.reader, t) + if t < |s.tokens| then Holding(s.recovery) else 0
  }

  lemma DCommits(s: State, i: nat, a: DStep, t: nat)
    requires i < |s.ds| && DEnabled(s, s.ds[i], a)
    ensures Committed(DApply(s, i, a), t) == Committed(s, t)
  {
    TriesUpdate(s.ds, i, DNext(s, s.ds[i], a), t);
  }

  lemma RCommits(s: State, a: RStep, t: nat)
    requires REnabled(s, a) && Excluded(s)
    ensures Committed(RApply(s, a), t) == Committed(s, t) + if a.RRegister? && t == |s.tokens| then 1 else 0
  {
    if a.RSpawn? && s.reader.Registered? {
      TriesAppend(s.ds, RApply(s, a).ds[|s.ds|], t);
    }
  }

  lemma SpawnCommits(s: State, t: nat)
    requires CEnabled(s, CSpawn)
    ensures Committed(CApply(s, CSpawn), t) == Committed(s, t)
  {
    TriesAppend(s.ds, CApply(s, CSpawn).ds[|s.ds|], t);
    CountTail(s.recovery.p.pending, s.recovery.next, t);
  }

  lemma GrabCommits(s: State, t: nat)
    requires CEnabled(s, CGrab) && Owned(s)
    ensures Committed(CApply(s, CGrab), t) <= Committed(s, t)
  {
    assert Owners(s, t) == if t < |s.tokens| then 1 else 0;
  }

  lemma FailureCommits(s: State, a: CStep, t: nat)
    requires CEnabled(s, a) && (a.CFail? || a.CShutdown?)
    ensures Committed(CApply(s, a), t) <= Committed(s, t)
  {
    assert Rest(CApply(s, a).recovery) == [];
  }

  lemma OtherwiseCommits(s: State, a: CStep, t: nat)
    requires CEnabled(s, a) && !a.CSpawn? && !a.CGrab? && !a.CFail? && !a.CShutdown?
    ensures Committed(CApply(s, a), t) <= Committed(s, t) + if a.CLock? then 1 else 0
  {
    CMovesNothing(s, a);
  }

  lemma CCommits(s: State, a: CStep, t: nat)
    requires CEnabled(s, a) && Owned(s)
    ensures Committed(CApply(s, a), t) <= Committed(s, t) + if a.CLock? then 1 else 0
  {
    match a
    case CSpawn => SpawnCommits(s, t);
    case CGrab => GrabCommits(s, t);
    case CFail(_, _) => FailureCommits(s, a, t);
    case CShutdown(_) => FailureCommits(s, a, t);
    case _ => OtherwiseCommits(s, a, t);
  }

  predicate Accepts(s: State, a: Step, t: nat) {
    a == Read(RRegister) && t == |s.tokens|
  }

  lemma StepCommits(s: State, a: Step, t: nat)
    requires Enabled(s, a) && Owned(s) && Excluded(s)
    ensures Committed(Apply(s, a), t) - Apply(s, a).passes <= Committed(s, t) - s.passes + if Accepts(s, a, t) then 1 else 0
  {
    match a
    case Dispatch(i, d) => DCommits(s, i, d, t);
    case Copy(k, x) =>
    case Read(r) => RCommits(s, r, t);
    case Recover(c) => CCommits(s, c, t);
    case Cancel =>
  }

  lemma StepAccepts(s: State, a: Step)
    requires Enabled(s, a)
    ensures Apply(s, a).tokens == s.tokens || (a == Read(RRegister) && |Apply(s, a).tokens| == |s.tokens| + 1)
  {
  }

  lemma RecoveryKeepsExcluded(s: State, a: CStep)
    requires Excluded(s) && CEnabled(s, a)
    ensures Excluded(CApply(s, a))
  {
  }

  lemma StepKeepsExcluded(s: State, a: Step)
    requires Excluded(s) && Enabled(s, a)
    ensures Excluded(Apply(s, a))
  {
    match a
    case Recover(c) => RecoveryKeepsExcluded(s, c);
    case Dispatch(_, _) =>
    case Copy(_, _) =>
    case Read(_) =>
    case Cancel =>
  }

  lemma {:induction false} StretchCommits(s: State, run: seq<Step>, t: nat)
    requires Valid(s, run) && Owned(s) && Excluded(s)
    ensures |s.tokens| <= |Final(s, run).tokens|
    ensures Committed(Final(s, run), t) - Final(s, run).passes <=
      Committed(s, t) - s.passes + if |s.tokens| <= t < |Final(s, run).tokens| then 1 else 0
    decreases |run|
  {
    if run != [] {
      var s1 := Apply(s, run[0]);
      StepCommits(s, run[0], t);
      StepKeepsOwned(s, run[0]);
      StepKeepsExcluded(s, run[0]);
      StepAccepts(s, run[0]);
      StretchCommits(s1, run[1..], t);
    }
  }

  /** A request waits to be started with the reader, in a running pass or for one about to grab it: never in two places. */
  lemma StartsOnce(s: State, t: nat)
    requires Owned(s) && Excluded(s)
    ensures Committed(s, t) <= Tries(s.ds, t) + if t < |s.tokens| then 1 else 0
  {
    assert Owners(s, t) == if t < |s.tokens| then 1 else 0;
  }

  /** Over any stretch, resets or not, a request is started at most once, and once more by each pass. */
  lemma StretchSends(s: State, run: seq<Step>, t: nat)
    requires Valid(s, run) && Owned(s) && Excluded(s)
    ensures |s.tokens| <= |Final(s, run).tokens|
    ensures Tries(Final(s, run).ds, t) - Tries(s.ds, t) <=
      Final(s, run).passes - s.passes + if t < |Final(s, run).tokens| then 1 else 0
  {
    StretchCommits(s, run, t);
    StartsOnce(s, t);
  }

  /** What a stretch without a reset that starts in s may still spend: the attempts left, and a pass already admitted. */
  function Budget(s: State): nat {
    MAX_RECOVERY_ATTEMPTS - Min(s.sh.attempts, MAX_RECOVERY_ATTEMPTS) + Admission(s.recovery)
  }

  /** In a stretch without a reset a request is sent at most once, and once more for each pass the budget allows. */
  lemma StretchRetries(s: State, run: seq<Step>, t: nat)
    requires Valid(s, run) && NoReset(run) && Owned(s) && Excluded(s)
    ensures Tries(Final(s, run).ds, t) - Tries(s.ds, t) <= 1 + Budget(s)
  {
    StretchSends(s, run, t);
    StretchPasses(s, run);
  }

  // ---------------------------------------------------------------- adding up over all requests

  ghost function SumTries(ds: seq<Dispatcher>, n: nat): nat {
    if n == 0 then 0 else SumTries(ds, n - 1) + Tries(ds, n - 1)
  }

  lemma {:induction false} SumOne(ds: seq<Dispatcher>, d: Dispatcher, n: nat)
    ensures SumTries(ds + [d], n) == SumTries(ds, n) + if d.token < n then 1 else 0
  {
    if n > 0 {
      SumOne(ds, d, n - 1);
      TriesAppend(ds, d, n - 1);
    }
  }

  lemma {:induction false} SumNone(n: nat)
    ensures SumTries([], n) == 0
  {
    if n > 0 {
      SumNone(n - 1);
    }
  }

  lemma {:induction false} SumIsAll(ds: seq<Dispatcher>, n: nat)
    requires forall i :: 0 <= i < |ds| ==> ds[i].token < n
    ensures SumTries(ds, n) == |ds|
  {
    if ds == [] {
      SumNone(n);
    } else {
      SumIsAll(ds[..|ds| - 1], n);
      SumOne(ds[..|ds| - 1], ds[|ds| - 1], n);
      assert ds[..|ds| - 1] + [ds[|ds| - 1]] == ds;
    }
  }

  lemma {:induction false} SumGrows(before: seq<Dispatcher>, after: seq<Dispatcher>, n: nat, b: nat)
    requires forall t: nat :: t < n ==> Tries(after, t) - Tries(before, t) <= b
    ensures SumTries(after, n) - SumTries(before, n) <= b * n
  {
    if n > 0 {
      SumGrows(before, after, n - 1, b);
      assert b * n == b * (n - 1) + b;
    }
  }

  lemma GrowthBounded(before: seq<Dispatcher>, after: seq<Dispatcher>, n: nat, b: nat)
    requires forall i :: 0 <= i < |before| ==> before[i].token < n
    requires forall i :: 0 <= i < |after| ==> after[i].token < n
    requires forall t: nat :: t < n ==> Tries(after, t) - Tries(before, t) <= b
    ensures |after| - |before| <= b * n
  {
    SumGrows(before, after, n, b);
    SumIsAll(before, n);
    SumIsAll(after, n);
  }
}
