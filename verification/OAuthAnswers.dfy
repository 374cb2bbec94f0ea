/**
 What a caller gets: exactly when Token answers, and with which token; exactly when HandleUnauthorized succeeds, and
 that it refreshes before it starts an authorization.
 */
module OAuthAnswers {
  import opened Prelude
  import opened OAuthModel
  import opened OAuthTheorems

  // ---------------------------------------------------------------- lifetimes

  /** The server's statement of a lifetime, in nanoseconds, fits the program's durations. */
  predicate Fits(reply: Reply) {
    reply.Granted? && reply.expiresIn * SECOND < 0x8000_0000_0000_0000
  }

  /** A minted token is valid exactly while 30 s of its stated lifetime are left, or for ever without one. */
  lemma ValidExactly(reply: Reply, at: int, now: int)
    requires Mint(reply, at).Some? && Fits(reply)
    ensures !Expired(Mint(reply, at).value, now) <==> LifeLeft(reply, at, now)
  {
    if reply.expiresIn > 0 {
      FitsUnwrapped(reply.expiresIn * SECOND);
    }
  }

  lemma FitsUnwrapped(x: int)
    requires 0 <= x < 0x8000_0000_0000_0000
    ensures Wrap64(x) == x
  {
  }

  /** The happening brought tokens. */
  predicate Brings(h: Happening) {
    Grants(ReplyOf(h))
  }

  /** A failed code exchange leaves the tokens alone; it is the only such contact. */
  predicate ChangesNothing(h: Happening) {
    h.Exchanged? && !Grants(h.reply)
  }

  /** The q-th contact brought tokens, and nothing since has replaced them or thrown them away. */
  ghost predicate Latest(history: seq<Happening>, q: nat) {
    q < |history| && Brings(history[q]) && forall p :: q < p < |history| ==> ChangesNothing(history[p])
  }

  lemma {:induction false} LatestStands(history: seq<Happening>, q: nat, initial: Option<Tokens>)
    requires Latest(history, q)
    ensures var t, reply := Standing(history, initial), ReplyOf(history[q]);
      t.Some? && t.value.access == reply.access && t.value.expiresAt == Mint(reply, TimeOf(history[q])).value.expiresAt
    decreases |history|
  {
    var n := |history| - 1;
    if q < n {
      assert ChangesNothing(history[n]);
      assert history[..n][q] == history[q];
      LatestStands(history[..n], q, initial);
    }
  }

  // ---------------------------------------------------------------- refreshing

  /** The metadata at hand: cached, or else on disk. */
  function MetaAt(s: State): Option<Metadata> {
    if s.mem.meta.Some? then s.mem.meta else if s.stored && s.disk.meta.Holds? then s.disk.meta.value.meta else None
  }

  /** The client at hand: cached with an id, or else on disk. */
  function ClientAt(s: State): Option<ClientInfo> {
    if NoClient(s.mem.client) && s.stored && s.disk.client.Holds? then Some(s.disk.client.value) else s.mem.client
  }

  /** The resource at hand: read along with the metadata if there was none. */
  function ResourceAt(s: State): string {
    if s.mem.meta.None? && s.mem.resource == "" && s.stored && s.disk.meta.Holds? then s.disk.meta.value.resource
    else s.mem.resource
  }

  /** A refresh can be attempted: a refresh token, a token endpoint and a client are at hand. */
  predicate CanRefresh(s: State) {
    && RefreshOf(s.mem.tokens) != ""
    && MetaAt(s).Some? && MetaAt(s).value.token != ""
    && !NoClient(ClientAt(s))
  }

  predicate Renews(s: State, w: World) {
    CanRefresh(s) && Grants(w.refreshReply)
  }

  /** The server is asked exactly if a refresh can be attempted, and the refresh succeeds exactly if it then grants. */
  lemma RefreshExactly(s: State, w: World)
    ensures var (r, ok, seen) := Refresh(s, w);
      && (ok <==> Renews(s, w))
      && seen == (if CanRefresh(s) then [Presented(RefreshOf(s.mem.tokens), w.refreshReply, w.refreshedAt)] else [])
      && (ok ==> r.mem.tokens.Some? && r.mem.tokens.value.access == w.refreshReply.access)
      && (CanRefresh(s) ==> r.mem.meta == MetaAt(s) && r.mem.resource == ResourceAt(s) && r.mem.client == ClientAt(s))
  {
  }

  // ---------------------------------------------------------------- Token

  /** The access token a refresh would bring now. */
  function Renewal(s: State, w: World): Option<string> {
    if Renews(s, w) then Some(w.refreshReply.access) else None
  }

  /** The answer, case by case, from the tokens held. */
  function Answer(held: Option<Tokens>, renewal: Option<string>, now: int): string {
    if held.None? || held.value.access == "" then ""
    else if !Expired(held.value, now) then held.value.access
    else renewal.GetOr("")
  }

  lemma TokenAnswers(s: State, w: World)
    ensures Token(s, w).1 == Answer(HeldTokens(s), Renewal(EnsureLoaded(s), w), w.now)
    ensures HeldTokens(s).Some? && !Expired(HeldTokens(s).value, w.now) ==> Token(s, w).2 == []
  {
    RefreshExactly(EnsureLoaded(s), w);
  }

  /** Token answers nothing exactly if no token is held, or the one held has expired and cannot be renewed. */
  lemma EmptyExactly(s: State, w: World)
    ensures var held := HeldTokens(s);
      Token(s, w).1 == "" <==>
        held.None? || held.value.access == "" || (Expired(held.value, w.now) && !Renews(EnsureLoaded(s), w))
  {
    TokenAnswers(s, w);
  }

  /**
   Over every history: while 30 s of its stated lifetime are left, and nothing has replaced it or thrown it away, the
   token brought last is the answer, and no server is asked.
   */
  lemma AnswersWhileValid(
      s: State, calls: seq<Call>, staticClient: Option<ClientInfo>, history: seq<Happening>, q: nat, w: World)
    requires Remembers(s, calls, staticClient) && RunAll(s, calls, staticClient).2 == history
    requires Latest(history, q) && Fits(ReplyOf(history[q])) && LifeLeft(ReplyOf(history[q]), TimeOf(history[q]), w.now)
    ensures var (r, access, seen) := Token(RunAll(s, calls, staticClient).0, w);
      access == ReplyOf(history[q]).access != "" && seen == []
  {
    HoldsStandingTokens(s, calls, staticClient);
    LatestStands(history, q, HeldTokens(s));
    ValidExactly(ReplyOf(history[q]), TimeOf(history[q]), w.now);
    TokenAnswers(RunAll(s, calls, staticClient).0, w);
  }

  /** And over every history the answer is that for the standing tokens. */
  lemma AnswersStanding(s: State, calls: seq<Call>, staticClient: Option<ClientInfo>, w: World)
    requires Remembers(s, calls, staticClient)
    ensures var (r, answers, history) := RunAll(s, calls, staticClient);
      Token(r, w).1 == Answer(Standing(history, HeldTokens(s)), Renewal(EnsureLoaded(r), w), w.now)
  {
    HoldsStandingTokens(s, calls, staticClient);
    TokenAnswers(RunAll(s, calls, staticClient).0, w);
  }

  // ---------------------------------------------------------------- HandleUnauthorized

  /** The client an authorization ends up with: a new one only if there is none and the server registers clients. */
  function ClientFor(s: State, w: World): Option<ClientInfo>
    requires w.discovery.Some?
  {
    if s.mem.client.None? && w.discovery.value.0.registration != "" then w.registration else s.mem.client
  }

  /** Discovery, listener, client, browser and code exchange all succeed. */
  predicate Authorizes(s: State, w: World) {
    && w.discovery.Some? && w.listening && !NoClient(ClientFor(s, w))
    && w.callback && Grants(w.codeReply)
  }

  lemma AuthorizeExactly(s: State, w: World)
    ensures var (r, ok, seen) := Authorize(s, w);
      && (ok <==> Authorizes(s, w))
      && (ok ==> r.mem.tokens == Mint(w.codeReply, w.codeAt) && r.mem.client == ClientFor(s, w))
      && (!ok ==> r.mem.tokens == s.mem.tokens)
      && (w.discovery.Some? ==> r.mem.meta == Some(w.discovery.value.0) && r.mem.resource == w.discovery.value.1)
      && (forall q :: 0 <= q < |seen| ==> seen[q].Exchanged?)
  {
  }

  /** What a failed or impossible refresh leaves behind, without its tokens. */
  function AfterRefresh(s: State, w: World): State {
    if RefreshOf(s.mem.tokens) == "" then s else Clear(Refresh(s, w).0, w)
  }

  /**
   HandleUnauthorized succeeds exactly if a refresh does, or else an authorization. A refresh that can be attempted
   comes first, and the code endpoint is asked only if it has failed; then the old tokens are gone.
   */
  lemma UnauthorizedExactly(s: State, w: World)
    ensures var l := EnsureLoaded(s);
      var (r, ok, seen) := HandleUnauthorized(s, w);
      && (ok <==> Renews(l, w) || Authorizes(AfterRefresh(l, w), w))
      && (CanRefresh(l) ==> seen != [] && seen[0] == Presented(Held(s), w.refreshReply, w.refreshedAt))
      && (Renews(l, w) ==> |seen| == 1)
      && (ok ==> r.mem.tokens.Some?)
      && (ok ==> r.mem.tokens.value.access == (if Renews(l, w) then w.refreshReply.access else w.codeReply.access))
      && (!ok && Held(s) != "" ==> r.mem.tokens.None?)
  {
    var l := EnsureLoaded(s);
    RefreshExactly(l, w);
    AuthorizeExactly(AfterRefresh(l, w), w);
  }
}
