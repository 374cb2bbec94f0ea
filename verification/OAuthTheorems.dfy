/**
 What a provider guarantees over whole runs of Token, HandleUnauthorized and restarts, with the network free
 to fail at every step.
 */
module OAuthTheorems {
  import opened Prelude
  import opened OAuthModel

  // ---------------------------------------------------------------- memory and disk

  ghost predicate Reliable(w: World) {
    w.luck == Luck(Saved, Saved, Saved, true)
  }

  ghost predicate ReliableCalls(calls: seq<Call>) {
    forall j :: 0 <= j < |calls| ==>
      match calls[j]
      case AskToken(w) => Reliable(w)
      case Unauthorized(w) => Reliable(w)
      case Restart => true
  }

  /** No static client, or one that can be used. */
  predicate SoundStatic(c: Option<ClientInfo>) {
    c.None? || c.value.id != ""
  }

  /** What the program would hold in memory if it were restarted now and asked once. */
  function Rebuilt(s: State, staticClient: Option<ClientInfo>): State {
    EnsureLoaded(s.(mem := Fresh(staticClient)))
  }

  /** The cache says what the disk says. */
  ghost predicate Coherent(s: State, staticClient: Option<ClientInfo>) {
    s.stored && s.mem.loaded && s == Rebuilt(s, staticClient)
  }

  /** Either nothing has been loaded yet, or the cache mirrors the disk. */
  ghost predicate Mirrored(s: State, staticClient: Option<ClientInfo>) {
    s.stored && EnsureLoaded(s) == Rebuilt(s, staticClient)
  }

  lemma LoadingMirrors(s: State, staticClient: Option<ClientInfo>)
    requires Mirrored(s, staticClient)
    ensures Coherent(EnsureLoaded(s), staticClient)
  {
  }

  lemma RefreshKeepsCoherent(s: State, w: World, staticClient: Option<ClientInfo>)
    requires Coherent(s, staticClient) && SoundStatic(staticClient) && Reliable(w)
    ensures Coherent(Refresh(s, w).0, staticClient)
  {
    assert Reload(s) == s;
  }

  lemma ClearKeepsCoherent(s: State, w: World, staticClient: Option<ClientInfo>)
    requires Coherent(s, staticClient) && Reliable(w)
    ensures Coherent(Clear(s, w), staticClient)
  {
  }

  lemma ExchangeKeepsCoherent(s: State, w: World, staticClient: Option<ClientInfo>)
    requires Coherent(s, staticClient) && Reliable(w)
    ensures Coherent(ExchangeCode(s, w).0, staticClient)
  {
  }

  lemma AuthorizeKeepsCoherent(s: State, w: World, staticClient: Option<ClientInfo>)
    requires Coherent(s, staticClient) && Reliable(w)
    ensures Coherent(Authorize(s, w).0, staticClient)
  {
    if w.discovery.Some? {
      var (meta, resource) := w.discovery.value;
      var found := s.(mem := s.mem.(meta := Some(meta), resource := resource),
        disk := s.disk.(meta := Holds(MetaFile(Some(meta), resource))));
      assert Coherent(found, staticClient);
      ExchangeKeepsCoherent(found, w, staticClient);
      if found.mem.client.None? && !NoClient(w.registration) {
        var registered := found.(mem := found.mem.(client := w.registration),
          disk := found.disk.(client := Holds(w.registration.value)));
        assert Coherent(registered, staticClient);
        ExchangeKeepsCoherent(registered, w, staticClient);
      }
    }
  }

  lemma CallKeepsMirrored(s: State, c: Call, staticClient: Option<ClientInfo>)
    requires Mirrored(s, staticClient) && SoundStatic(staticClient) && ReliableCalls([c])
    ensures Mirrored(Perform(s, c, staticClient).0, staticClient)
    ensures !c.Restart? ==> Coherent(Perform(s, c, staticClient).0, staticClient)
  {
    LoadingMirrors(s, staticClient);
    var l := EnsureLoaded(s);
    assert ReliableCalls([c]) ==> [c][0] == c;
    if !c.Restart? {
      RefreshKeepsCoherent(l, c.w, staticClient);
      ClearKeepsCoherent(l, c.w, staticClient);
      ClearKeepsCoherent(Refresh(l, c.w).0, c.w, staticClient);
      AuthorizeKeepsCoherent(l, c.w, staticClient);
      AuthorizeKeepsCoherent(Clear(Refresh(l, c.w).0, c.w), c.w, staticClient);
    }
  }

  /**
   Restart equivalence: with reliable storage, after any calls - whatever the network did - a provider rebuilt from
   the disk holds the same tokens, client, metadata and resource as the one in memory.
   */
  lemma {:induction false} RestartEquivalence(s: State, calls: seq<Call>, staticClient: Option<ClientInfo>)
    requires Mirrored(s, staticClient) && SoundStatic(staticClient) && ReliableCalls(calls)
    ensures Mirrored(RunAll(s, calls, staticClient).0, staticClient)
    ensures calls != [] && !calls[|calls| - 1].Restart? ==>
      var last := RunAll(s, calls, staticClient).0; Rebuilt(last, staticClient).mem == last.mem
    decreases |calls|
  {
    if calls != [] {
      assert ReliableCalls([calls[0]]) && ReliableCalls(calls[1..]);
      CallKeepsMirrored(s, calls[0], staticClient);
      RestartEquivalence(Perform(s, calls[0], staticClient).0, calls[1..], staticClient);
      if |calls| > 1 {
        assert calls[1..][|calls| - 2] == calls[|calls| - 1];
      }
    }
  }

  function WithoutRestarts(calls: seq<Call>): seq<Call> {
    if calls == [] then [] else (if calls[0].Restart? then [] else [calls[0]]) + WithoutRestarts(calls[1..])
  }

  function WithoutRestarted(answers: seq<Answer>): seq<Answer> {
    if answers == [] then [] else (if answers[0].Restarted? then [] else [answers[0]]) + WithoutRestarted(answers[1..])
  }

  /** A call sees its state only through EnsureLoaded. */
  lemma CallsLoadFirst(s: State, r: State, c: Call, staticClient: Option<ClientInfo>)
    requires EnsureLoaded(s) == EnsureLoaded(r) && !c.Restart?
    ensures Perform(s, c, staticClient) == Perform(r, c, staticClient) && !Perform(s, c, staticClient).1.Restarted?
  {
  }

  /**
   Restarts are invisible: inserting them anywhere changes neither the other answers, nor what the authorization
   server sees, nor the disk.
   */
  lemma {:induction false} RestartsAreInvisible(s: State, r: State, calls: seq<Call>, staticClient: Option<ClientInfo>)
    requires Mirrored(s, staticClient) && Mirrored(r, staticClient) && s.disk == r.disk
    requires SoundStatic(staticClient) && ReliableCalls(calls)
    ensures var (s', answers, seen) := RunAll(s, calls, staticClient);
      var (r', answers', seen') := RunAll(r, WithoutRestarts(calls), staticClient);
      WithoutRestarted(answers) == answers' && seen == seen' && s'.disk == r'.disk
    decreases |calls|
  {
    if calls != [] {
      var c := calls[0];
      assert ReliableCalls([c]) && ReliableCalls(calls[1..]);
      CallKeepsMirrored(s, c, staticClient);
      var (s1, a, seen) := Perform(s, c, staticClient);
      if c.Restart? {
        RestartsAreInvisible(s1, r, calls[1..], staticClient);
        assert WithoutRestarts(calls) == WithoutRestarts(calls[1..]);
        assert RunAll(s, calls, staticClient).1[1..] == RunAll(s1, calls[1..], staticClient).1;
      } else {
        CallsLoadFirst(s, r, c, staticClient);
        RestartsAreInvisible(s1, s1, calls[1..], staticClient);
        assert WithoutRestarts(calls)[1..] == WithoutRestarts(calls[1..]);
        assert RunAll(s, calls, staticClient).1[1..] == RunAll(s1, calls[1..], staticClient).1;
      }
    }
  }

  /** Whatever happens on the network, memory and disk never drift apart. */
  ghost predicate RestartProof(staticClient: Option<ClientInfo>) {
    forall s: State, calls: seq<Call> :: Mirrored(s, staticClient) && ReliableCalls(calls) ==>
      Mirrored(RunAll(s, calls, staticClient).0, staticClient)
  }

  lemma RunOne(s: State, c: Call, staticClient: Option<ClientInfo>)
    ensures RunAll(s, [c], staticClient).0 == Perform(s, c, staticClient).0
  {
    assert [c][1..] == [];
  }

  /** A static client without an id is replaced from disk by the first refresh, but comes back on restart. */
  lemma EmptyStaticClientIsForgotten(client: ClientInfo)
    requires client.id == ""
    ensures !RestartProof(Some(client))
  {
    var w := World(1, Granted("b", "", "", "", 0), 1, None, false, None, false, Refused, 0, Luck(Saved, Saved, Saved, true));
    var disk := Disk(Holds(Tokens("a", "r", Some(0), "", "")), Holds(ClientInfo("c", "")),
      Holds(MetaFile(Some(Metadata("", "/token", "")), "")));
    var s := State(true, disk, Fresh(Some(client)));
    var c := AskToken(w);
    var after := RunAll(s, [c], Some(client)).0;
    RunOne(s, c, Some(client));
    assert after.mem.client == Some(ClientInfo("c", ""));
    assert Rebuilt(after, Some(client)).mem.client == Some(client);
    assert Mirrored(s, Some(client)) && ReliableCalls([c]) && !Mirrored(after, Some(client));
  }

  /** Exactly when restarts are harmless: without a static client, or with one that has an id. */
  lemma RestartProofExactly(staticClient: Option<ClientInfo>)
    ensures RestartProof(staticClient) <==> SoundStatic(staticClient)
  {
    if SoundStatic(staticClient) {
      forall s: State, calls: seq<Call> | Mirrored(s, staticClient) && ReliableCalls(calls)
        ensures Mirrored(RunAll(s, calls, staticClient).0, staticClient)
      {
        RestartEquivalence(s, calls, staticClient);
      }
    } else {
      EmptyStaticClientIsForgotten(staticClient.value);
    }
  }

  lemma CallKeepsStatic(s: State, c: Call, staticClient: Option<ClientInfo>)
    requires s.mem.client == staticClient && staticClient.Some? && SoundStatic(staticClient)
    ensures Perform(s, c, staticClient).0.mem.client == staticClient
  {
    if !c.Restart? {
      var l := EnsureLoaded(s);
      RefreshKeepsStatic(l, c.w);
      AuthorizeKeepsStatic(l, c.w);
      AuthorizeKeepsStatic(Clear(Refresh(l, c.w).0, c.w), c.w);
    }
  }

  lemma RefreshKeepsStatic(s: State, w: World)
    requires !NoClient(s.mem.client)
    ensures Refresh(s, w).0.mem.client == s.mem.client
  {
  }

  lemma AuthorizeKeepsStatic(s: State, w: World)
    requires !NoClient(s.mem.client)
    ensures Authorize(s, w).0.mem.client == s.mem.client
  {
  }

  /** A configured client is the one in use for ever: no file and no registration takes its place. */
  lemma {:induction false} StaticClientStays(s: State, calls: seq<Call>, staticClient: Option<ClientInfo>)
    requires s.mem.client == staticClient && staticClient.Some? && SoundStatic(staticClient)
    ensures RunAll(s, calls, staticClient).0.mem.client == staticClient
    decreases |calls|
  {
    if calls != [] {
      CallKeepsStatic(s, calls[0], staticClient);
      StaticClientStays(Perform(s, calls[0], staticClient).0, calls[1..], staticClient);
    }
  }

  // ---------------------------------------------------------------- the refresh token

  /** The token endpoint has answered with an access token. */
  predicate Grants(reply: Reply) {
    reply.Granted? && reply.access != ""
  }

  /** The refresh token in force after some history (section 6 of RFC 6749): a new one replaces the old, none keeps it. */
  function InForce(history: seq<Happening>, initial: string): string {
    if history == [] then initial
    else
      var before := InForce(history[..|history| - 1], initial);
      match history[|history| - 1]
      case Presented(_, reply, _) => if !Grants(reply) then "" else if reply.refresh != "" then reply.refresh else before
      case Exchanged(reply, _) => if Grants(reply) then reply.refresh else before
      case Cleared => ""
  }

  lemma {:induction false} InForceAppend(a: seq<Happening>, b: seq<Happening>, initial: string)
    ensures InForce(a + b, initial) == InForce(b, InForce(a, initial))
  {
    if b == [] {
      assert a + b == a;
    } else {
      var n := |b| - 1;
      assert (a + b)[..|a + b| - 1] == a + b[..n];
      InForceAppend(a, b[..n], initial);
    }
  }

  lemma InForceLater(seen: seq<Happening>, later: seq<Happening>, q: nat, initial: string, middle: string)
    requires |seen| <= q < |seen| + |later| && InForce(seen, initial) == middle
    ensures (seen + later)[q] == later[q - |seen|]
    ensures InForce((seen + later)[..q], initial) == InForce(later[..q - |seen|], middle)
  {
    assert (seen + later)[..q] == seen + later[..q - |seen|];
    InForceAppend(seen, later[..q - |seen|], initial);
  }

  /** The refresh token the provider would use next. */
  function Held(s: State): string {
    RefreshOf(HeldTokens(s))
  }

  function HeldTokens(s: State): Option<Tokens> {
    EnsureLoaded(s).mem.tokens
  }

  /** The tokens standing after some history: the latest minted ones, unless they were thrown away since. */
  function Standing(history: seq<Happening>, initial: Option<Tokens>): Option<Tokens> {
    if history == [] then initial
    else
      var before := Standing(history[..|history| - 1], initial);
      match history[|history| - 1]
      case Presented(_, reply, at) =>
        var t := Mint(reply, at);
        if t.None? then None else if t.value.refresh != "" then t else Some(t.value.(refresh := RefreshOf(before)))
      case Exchanged(reply, at) => if Mint(reply, at).None? then before else Mint(reply, at)
      case Cleared => None
  }

  lemma {:induction false} StandingAppend(a: seq<Happening>, b: seq<Happening>, initial: Option<Tokens>)
    ensures Standing(a + b, initial) == Standing(b, Standing(a, initial))
  {
    if b == [] {
      assert a + b == a;
    } else {
      var n := |b| - 1;
      assert (a + b)[..|a + b| - 1] == a + b[..n];
      StandingAppend(a, b[..n], initial);
    }
  }

  lemma StandingOne(h: Happening, initial: Option<Tokens>)
    ensures Standing([h], initial) == match h
      case Presented(_, reply, at) =>
        (var t := Mint(reply, at);
         if t.None? then None else if t.value.refresh != "" then t else Some(t.value.(refresh := RefreshOf(initial))))
      case Exchanged(reply, at) => (if Mint(reply, at).None? then initial else Mint(reply, at))
      case Cleared => None
  {
    assert [h][..0] == [];
  }

  lemma StandingCleared(tried: seq<Happening>, initial: Option<Tokens>)
    ensures Standing(tried + [Cleared], initial) == None
  {
    StandingAppend(tried, [Cleared], initial);
    StandingOne(Cleared, Standing(tried, initial));
  }

  /** The refresh token in force is that of the standing tokens. */
  lemma {:induction false} StandingRefresh(history: seq<Happening>, initial: Option<Tokens>)
    ensures RefreshOf(Standing(history, initial)) == InForce(history, RefreshOf(initial))
  {
    if history != [] {
      StandingRefresh(history[..|history| - 1], initial);
    }
  }

  lemma RefreshStands(s: State, w: World)
    requires s.mem.loaded
    ensures var (r, ok, seen) := Refresh(s, w);
      r.mem.loaded && (ok ==> r.mem.tokens == Standing(seen, s.mem.tokens) && r.mem.tokens.Some?)
  {
    var seen := Refresh(s, w).2;
    if seen != [] {
      StandingOne(seen[0], s.mem.tokens);
    }
  }

  lemma AuthorizeStands(s: State, w: World)
    requires s.mem.loaded
    ensures var (r, ok, seen) := Authorize(s, w); r.mem.loaded && r.mem.tokens == Standing(seen, s.mem.tokens)
  {
    var seen := Authorize(s, w).2;
    if seen != [] {
      StandingOne(seen[0], s.mem.tokens);
    }
  }

  lemma TokenStands(s: State, w: World)
    ensures var (r, a, seen) := Token(s, w); r.mem.loaded && r.mem.tokens == Standing(seen, HeldTokens(s))
  {
    var l := EnsureLoaded(s);
    RefreshStands(l, w);
    StandingCleared([], HeldTokens(s));
    StandingCleared(Refresh(l, w).2, HeldTokens(s));
    assert [] + [Cleared] == [Cleared];
  }

  lemma UnauthorizedStands(s: State, w: World)
    ensures var (r, ok, seen) := HandleUnauthorized(s, w); r.mem.loaded && r.mem.tokens == Standing(seen, HeldTokens(s))
  {
    var l := EnsureLoaded(s);
    var (r, ok, tried) := Refresh(l, w);
    RefreshStands(l, w);
    AuthorizeStands(l, w);
    if RefreshOf(l.mem.tokens) != "" && !ok {
      AuthorizeStands(Clear(r, w), w);
      var more := Authorize(Clear(r, w), w).2;
      StandingCleared(tried, HeldTokens(s));
      StandingAppend(tried + [Cleared], more, HeldTokens(s));
    }
  }

  /** A call presents a refresh token at most once, as its first contact, and it is the one held. */
  lemma PresentsHeld(s: State, c: Call, staticClient: Option<ClientInfo>, q: nat)
    requires q < |Perform(s, c, staticClient).2| && Perform(s, c, staticClient).2[q].Presented?
    ensures q == 0 && Perform(s, c, staticClient).2[0].refresh == Held(s) != ""
  {
  }

  lemma CallStands(s: State, c: Call, staticClient: Option<ClientInfo>)
    requires !c.Restart? || Mirrored(s, staticClient)
    ensures var (r, a, seen) := Perform(s, c, staticClient); HeldTokens(r) == Standing(seen, HeldTokens(s))
  {
    match c
    case AskToken(w) => TokenStands(s, w);
    case Unauthorized(w) => UnauthorizedStands(s, w);
    case Restart =>
  }

  ghost predicate NoRestarts(calls: seq<Call>) {
    forall j :: 0 <= j < |calls| ==> !calls[j].Restart?
  }

  /** Storage is reliable, or the program is never restarted. */
  ghost predicate Remembers(s: State, calls: seq<Call>, staticClient: Option<ClientInfo>) {
    (Mirrored(s, staticClient) && SoundStatic(staticClient) && ReliableCalls(calls)) || NoRestarts(calls)
  }

  lemma CallKeepsRemembering(s: State, calls: seq<Call>, staticClient: Option<ClientInfo>)
    requires Remembers(s, calls, staticClient) && calls != []
    ensures var (r, a, seen) := Perform(s, calls[0], staticClient);
      && Remembers(r, calls[1..], staticClient) && HeldTokens(r) == Standing(seen, HeldTokens(s))
      && Held(r) == InForce(seen, Held(s))
  {
    if !NoRestarts(calls) {
      assert ReliableCalls([calls[0]]) && ReliableCalls(calls[1..]);
      CallKeepsMirrored(s, calls[0], staticClient);
    }
    CallStands(s, calls[0], staticClient);
    StandingRefresh(Perform(s, calls[0], staticClient).2, HeldTokens(s));
  }

  /** Over every history the tokens a provider holds are exactly the standing ones. */
  lemma {:induction false} HoldsStandingTokens(s: State, calls: seq<Call>, staticClient: Option<ClientInfo>)
    requires Remembers(s, calls, staticClient)
    ensures var (r, answers, history) := RunAll(s, calls, staticClient); HeldTokens(r) == Standing(history, HeldTokens(s))
    decreases |calls|
  {
    if calls != [] {
      var (s1, a, seen) := Perform(s, calls[0], staticClient);
      CallKeepsRemembering(s, calls, staticClient);
      HoldsStandingTokens(s1, calls[1..], staticClient);
      StandingAppend(seen, RunAll(s1, calls[1..], staticClient).2, HeldTokens(s));
    }
  }

  /**
   Every refresh token ever presented is the one in force by the history of replies - across restarts if storage is
   reliable, and in one lifetime of the program whatever happens to the files.
   */
  lemma {:induction false} PresentsTokenInForce(s: State, calls: seq<Call>, staticClient: Option<ClientInfo>, q: nat)
    requires Remembers(s, calls, staticClient)
    requires q < |RunAll(s, calls, staticClient).2| && RunAll(s, calls, staticClient).2[q].Presented?
    ensures var history := RunAll(s, calls, staticClient).2;
      history[q].refresh == InForce(history[..q], Held(s)) != ""
    decreases |calls|
  {
    var (s1, a, seen) := Perform(s, calls[0], staticClient);
    var later := RunAll(s1, calls[1..], staticClient).2;
    assert RunAll(s, calls, staticClient).2 == seen + later;
    if q < |seen| {
      PresentsHeld(s, calls[0], staticClient, q);
      assert (seen + later)[..0] == [];
    } else {
      CallKeepsRemembering(s, calls, staticClient);
      InForceLater(seen, later, q, Held(s), Held(s1));
      PresentsTokenInForce(s1, calls[1..], staticClient, q - |seen|);
    }
  }

  predicate FailedRefresh(h: Happening) {
    h.Presented? && !Grants(h.reply)
  }

  /** The refresh token a reply hands out, if any. */
  function HandedOut(h: Happening): string {
    match h
    case Presented(_, reply, _) => if Grants(reply) then reply.refresh else ""
    case Exchanged(reply, _) => if Grants(reply) then reply.refresh else ""
    case Cleared => ""
  }

  /** The server never hands out a refresh token it has refused before. */
  ghost predicate NeverReissues(history: seq<Happening>) {
    forall a, b :: 0 <= a < b < |history| && FailedRefresh(history[a]) && HandedOut(history[b]) != "" ==>
      HandedOut(history[b]) != history[a].refresh
  }

  lemma {:induction false} InForceAfterFailure(history: seq<Happening>, initial: string, a: nat, b: nat)
    requires a < b <= |history| && FailedRefresh(history[a]) && NeverReissues(history)
    ensures InForce(history[..b], initial) == "" || InForce(history[..b], initial) != history[a].refresh
    decreases b
  {
    assert history[..b][..b - 1] == history[..b - 1];
    assert history[..b][b - 1] == history[b - 1];
    if b - 1 > a {
      InForceAfterFailure(history, initial, a, b - 1);
    }
  }

  /** A refresh token the server has refused is never presented again, even after a restart. */
  lemma RefusedTokenIsRetired(
      s: State, calls: seq<Call>, staticClient: Option<ClientInfo>, history: seq<Happening>, a: nat, b: nat)
    requires Remembers(s, calls, staticClient) && RunAll(s, calls, staticClient).2 == history && NeverReissues(history)
    requires a < b < |history| && FailedRefresh(history[a]) && history[b].Presented?
    ensures history[b].refresh != history[a].refresh
  {
    PresentsTokenInForce(s, calls, staticClient, b);
    InForceAfterFailure(history, Held(s), a, b);
  }

  // ---------------------------------------------------------------- freshness

  /** The reply and its time, if the happening brought one. */
  function ReplyOf(h: Happening): Reply {
    if h.Cleared? then Refused else h.reply
  }

  function TimeOf(h: Happening): int {
    if h.Cleared? then 0 else h.at
  }

  /** Some reply in the history minted this access token with this expiry. */
  ghost predicate MintedIn(history: seq<Happening>, t: Tokens) {
    exists q :: 0 <= q < |history| && Mints(history[q], t)
  }

  predicate Mints(h: Happening, t: Tokens) {
    var m := Mint(ReplyOf(h), TimeOf(h));
    m.Some? && m.value.access == t.access && m.value.expiresAt == t.expiresAt
  }

  ghost predicate AllMinted(s: State, history: seq<Happening>) {
    && (s.mem.tokens.Some? ==> MintedIn(history, s.mem.tokens.value))
    && (s.disk.tokens.Holds? ==> MintedIn(history, s.disk.tokens.value))
  }

  lemma MintedStays(history: seq<Happening>, more: seq<Happening>, t: Tokens)
    ensures MintedIn(history, t) ==> MintedIn(history + more, t)
    ensures MintedIn(more, t) ==> MintedIn(history + more, t)
  {
    if MintedIn(history, t) {
      var q :| 0 <= q < |history| && Mints(history[q], t);
      assert Mints((history + more)[q], t);
    }
    if MintedIn(more, t) {
      var q :| 0 <= q < |more| && Mints(more[q], t);
      assert Mints((history + more)[|history| + q], t);
    }
  }

  lemma AllMintedStays(s: State, history: seq<Happening>, more: seq<Happening>)
    requires AllMinted(s, history)
    ensures AllMinted(s, history + more)
  {
    if s.mem.tokens.Some? { MintedStays(history, more, s.mem.tokens.value); }
    if s.disk.tokens.Holds? { MintedStays(history, more, s.disk.tokens.value); }
  }

  lemma RefreshMints(s: State, w: World, history: seq<Happening>)
    requires AllMinted(s, history)
    ensures AllMinted(Refresh(s, w).0, history + Refresh(s, w).2)
    ensures Refresh(s, w).1 ==> Refresh(s, w).0.mem.tokens.Some? && MintedIn(Refresh(s, w).2, Refresh(s, w).0.mem.tokens.value)
  {
    var (r, ok, seen) := Refresh(s, w);
    AllMintedStays(s, history, seen);
    if ok {
      assert Mints(seen[0], r.mem.tokens.value);
      MintedStays(history, seen, r.mem.tokens.value);
    }
  }

  lemma ExchangeMints(s: State, w: World, history: seq<Happening>)
    requires AllMinted(s, history)
    ensures AllMinted(ExchangeCode(s, w).0, history + ExchangeCode(s, w).2)
  {
    var (r, ok, seen) := ExchangeCode(s, w);
    AllMintedStays(s, history, seen);
    if ok {
      assert Mints(seen[0], r.mem.tokens.value);
      MintedStays(history, seen, r.mem.tokens.value);
    }
  }

  lemma AuthorizeMints(s: State, w: World, history: seq<Happening>)
    requires AllMinted(s, history)
    ensures AllMinted(Authorize(s, w).0, history + Authorize(s, w).2)
  {
    assert history + [] == history;
    if w.discovery.Some? {
      var (meta, resource) := w.discovery.value;
      var found := s.(mem := s.mem.(meta := Some(meta), resource := resource),
        disk := if s.stored then s.disk.(meta := Save(s.disk.meta, MetaFile(Some(meta), resource), w.luck.saveMeta)) else s.disk);
      ExchangeMints(found, w, history);
      if !NoClient(w.registration) {
        var registered := found.(mem := found.mem.(client := w.registration),
          disk := if s.stored
                  then found.disk.(client := Save(found.disk.client, w.registration.value, w.luck.saveClient))
                  else found.disk);
        ExchangeMints(registered, w, history);
      }
    }
  }

  lemma ClearMints(s: State, w: World, history: seq<Happening>)
    requires AllMinted(s, history)
    ensures AllMinted(Clear(s, w), history + [Cleared])
  {
    AllMintedStays(s, history, [Cleared]);
  }

  lemma TokenMints(s: State, w: World, history: seq<Happening>)
    requires AllMinted(s, history) && s.mem.loaded
    ensures AllMinted(Token(s, w).0, history + Token(s, w).2)
  {
    assert history + [] == history;
    ClearMints(s, w, history);
    RefreshMints(s, w, history);
    var (r, ok, tried) := Refresh(s, w);
    ClearMints(r, w, history + tried);
    assert history + tried + [Cleared] == history + (tried + [Cleared]);
  }

  lemma UnauthorizedMints(s: State, w: World, history: seq<Happening>)
    requires AllMinted(s, history) && s.mem.loaded
    ensures AllMinted(HandleUnauthorized(s, w).0, history + HandleUnauthorized(s, w).2)
  {
    if RefreshOf(s.mem.tokens) == "" {
      AuthorizeMints(s, w, history);
    } else {
      RefreshMints(s, w, history);
      var (r, ok, tried) := Refresh(s, w);
      if !ok {
        ClearMints(r, w, history + tried);
        AuthorizeMints(Clear(r, w), w, history + tried + [Cleared]);
        var more := Authorize(Clear(r, w), w).2;
        assert history + tried + [Cleared] + more == history + (tried + [Cleared] + more);
      }
    }
  }

  lemma CallMints(s: State, c: Call, staticClient: Option<ClientInfo>, history: seq<Happening>)
    requires AllMinted(s, history)
    ensures AllMinted(Perform(s, c, staticClient).0, history + Perform(s, c, staticClient).2)
  {
    var l := EnsureLoaded(s);
    assert AllMinted(l, history);
    match c
    case AskToken(w) => TokenMints(l, w, history);
    case Unauthorized(w) => UnauthorizedMints(l, w, history);
    case Restart => assert history + [] == history;
  }

  lemma {:induction false} RunMints(s: State, calls: seq<Call>, staticClient: Option<ClientInfo>, history: seq<Happening>)
    requires AllMinted(s, history)
    ensures AllMinted(RunAll(s, calls, staticClient).0, history + RunAll(s, calls, staticClient).2)
    decreases |calls|
  {
    if calls == [] {
      assert history + [] == history;
    } else {
      var (s1, a, seen) := Perform(s, calls[0], staticClient);
      CallMints(s, calls[0], staticClient, history);
      RunMints(s1, calls[1..], staticClient, history + seen);
      var later := RunAll(s1, calls[1..], staticClient).2;
      assert history + seen + later == history + (seen + later);
    }
  }

  /** The reply stated no lifetime, or at least 30 s of it are left. */
  predicate LifeLeft(reply: Reply, at: int, now: int) {
    reply.Granted? && (reply.expiresIn <= 0 || now + 30_000_000_000 <= at + reply.expiresIn * 1_000_000_000)
  }

  /** Some reply in the history handed out this access token with life left. */
  ghost predicate FreshIn(history: seq<Happening>, access: string, now: int) {
    exists q :: 0 <= q < |history| && LifeLeft(ReplyOf(history[q]), TimeOf(history[q]), now) && ReplyOf(history[q]).access == access
  }

  /** Wrapping never lengthens a lifetime, so the bound needs no restriction on expires_in. */
  lemma WrapShortens(x: int)
    requires x >= 0
    ensures Wrap64(x) <= x
  {
  }

  /**
   Over every history of refreshes, authorizations, restarts and file damage since the store was empty, Token returns
   nothing, or a token minted in this very call, or one whose server-stated lifetime is unlimited or has 30 s left.
   */
  lemma FreshnessBound(calls: seq<Call>, w: World, stored: bool, staticClient: Option<ClientInfo>)
    ensures var (s, answers, history) := RunAll(State(stored, EMPTY_DISK, Fresh(staticClient)), calls, staticClient);
      var (s', access, seen) := Token(s, w);
      access == "" ||
      (exists q :: 0 <= q < |seen| && ReplyOf(seen[q]).Granted? && ReplyOf(seen[q]).access == access) ||
      FreshIn(history, access, w.now)
  {
    var start := State(stored, EMPTY_DISK, Fresh(staticClient));
    var (s, answers, history) := RunAll(start, calls, staticClient);
    RunMints(start, calls, staticClient, []);
    assert [] + history == history;
    var l := EnsureLoaded(s);
    var (s', access, seen) := Token(s, w);
    if access != "" {
      if !Expired(l.mem.tokens.value, w.now) {
        CachedIsFresh(history, l.mem.tokens.value, w.now);
      } else {
        RefreshMints(l, w, history);
        var q :| 0 <= q < |seen| && Mints(seen[q], s'.mem.tokens.value);
        assert ReplyOf(seen[q]).Granted? && ReplyOf(seen[q]).access == access;
      }
    }
  }

  lemma CachedIsFresh(history: seq<Happening>, t: Tokens, now: int)
    requires MintedIn(history, t) && !Expired(t, now)
    ensures FreshIn(history, t.access, now)
  {
    var q :| 0 <= q < |history| && Mints(history[q], t);
    var reply := ReplyOf(history[q]);
    if reply.expiresIn > 0 {
      WrapShortens(reply.expiresIn * SECOND);
    }
    assert LifeLeft(reply, TimeOf(history[q]), now);
  }
}
