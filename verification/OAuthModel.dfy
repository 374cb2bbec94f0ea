/**
 The token life cycle of internal/oauth (flow.go, storage.go) on values. Network replies, clock readings
 and the luck of disk writes come from a World; encoding a file and reading it back is lossless.
 Times are nanoseconds.
 */
module OAuthModel {
  import opened Prelude

  type int64 = x: int | -0x8000_0000_0000_0000 <= x < 0x8000_0000_0000_0000

  const SECOND: int := 1_000_000_000
  const TOKEN_SKEW: int := 30 * SECOND

  /** time.Duration arithmetic wraps around. */
  function Wrap64(x: int): int64 {
    (x + 0x8000_0000_0000_0000) % 0x1_0000_0000_0000_0000 - 0x8000_0000_0000_0000
  }

  // ---------------------------------------------------------------- entities

  datatype Tokens = Tokens(access: string, refresh: string, expiresAt: Option<int>, tokenType: string, scope: string)
  datatype ClientInfo = ClientInfo(id: string, secret: string)
  datatype Metadata = Metadata(authorization: string, token: string, registration: string)

  /** A stored file: missing, unreadable, or holding a value. */
  datatype File<T> = Absent | Corrupt | Holds(value: T) {
    function Read(): Option<T> {
      if Holds? then Some(value) else None
    }
  }

  datatype MetaFile = MetaFile(meta: Option<Metadata>, resource: string)
  datatype Disk = Disk(tokens: File<Tokens>, client: File<ClientInfo>, meta: File<MetaFile>)

  const EMPTY_DISK := Disk(Absent, Absent, Absent)

  datatype Memory = Memory(
    tokens: Option<Tokens>, client: Option<ClientInfo>, meta: Option<Metadata>, resource: string, loaded: bool)

  /** `stored` says whether the provider has a storage at all. */
  datatype State = State(stored: bool, disk: Disk, mem: Memory)

  // ---------------------------------------------------------------- the outside

  datatype Reply =
    | Refused
    | Granted(access: string, refresh: string, tokenType: string, scope: string, expiresIn: int64)

  /** How a file write ends: done, failed before the file was touched, failed with the file truncated. */
  datatype Outcome = Saved | Untouched | Damaged

  datatype Luck = Luck(saveTokens: Outcome, saveClient: Outcome, saveMeta: Outcome, cleared: bool)

  datatype World = World(
    now: int,                                   // clock when the expiry is checked
    refreshReply: Reply, refreshedAt: int,      // token endpoint, grant_type=refresh_token
    discovery: Option<(Metadata, string)>,      // metadata and resource, if discovery succeeds
    listening: bool,                            // verifier, state and callback listener
    registration: Option<ClientInfo>,           // dynamic client registration
    callback: bool,                             // the browser came back with a code
    codeReply: Reply, codeAt: int,              // token endpoint, grant_type=authorization_code
    luck: Luck)

  /** What the authorization server saw and answered, and when tokens were thrown away. */
  datatype Happening =
    | Presented(refresh: string, reply: Reply, at: int)
    | Exchanged(reply: Reply, at: int)
    | Cleared

  // ---------------------------------------------------------------- storage

  function Save<T>(file: File<T>, value: T, outcome: Outcome): File<T> {
    match outcome
    case Saved => Holds(value)
    case Untouched => file
    case Damaged => Corrupt
  }

  function SaveTokens(s: State, t: Tokens, o: Outcome): State {
    if s.stored then s.(disk := s.disk.(tokens := Save(s.disk.tokens, t, o))) else s
  }

  // ---------------------------------------------------------------- provider

  function Fresh(staticClient: Option<ClientInfo>): Memory {
    Memory(None, staticClient, None, "", false)
  }

  function ReadMeta(f: File<MetaFile>): (Option<Metadata>, string) {
    match f
    case Holds(v) => (v.meta, v.resource)
    case _ => (None, "")
  }

  function EnsureLoaded(s: State): State {
    if s.mem.loaded then s
    else if !s.stored then s.(mem := s.mem.(loaded := true))
    else
      var m := s.mem;
      var (meta, resource) := if m.meta.None? && s.disk.meta.Holds? then ReadMeta(s.disk.meta) else (m.meta, m.resource);
      s.(mem := Memory(
        if m.tokens.None? then s.disk.tokens.Read() else m.tokens,
        if m.client.None? then s.disk.client.Read() else m.client,
        meta, resource, true))
  }

  /** The part of postToken after the HTTP exchange. */
  function Mint(reply: Reply, at: int): Option<Tokens> {
    if reply.Refused? || reply.access == "" then None
    else Some(Tokens(reply.access, reply.refresh,
      if reply.expiresIn > 0 then Some(at + Wrap64(reply.expiresIn * SECOND) - TOKEN_SKEW) else None,
      reply.tokenType, reply.scope))
  }

  function NoClient(c: Option<ClientInfo>): bool {
    c.None? || c.value.id == ""
  }

  function RefreshOf(t: Option<Tokens>): string {
    if t.Some? then t.value.refresh else ""
  }

  /** Metadata and client info are read again if the cache lacks them. */
  function Reload(s: State): State {
    if !s.stored then s
    else
      var m := s.mem;
      var withMeta := if m.meta.None? && s.disk.meta.Holds?
        then m.(meta := s.disk.meta.value.meta, resource := if m.resource == "" then s.disk.meta.value.resource else m.resource)
        else m;
      if withMeta.meta.None? || withMeta.meta.value.token == "" then s.(mem := withMeta)
      else if NoClient(withMeta.client) && s.disk.client.Holds?
      then s.(mem := withMeta.(client := Some(s.disk.client.value)))
      else s.(mem := withMeta)
  }

  /** refreshTokensLocked; None means an error was returned. */
  function Refresh(s: State, w: World): (State, bool, seq<Happening>) {
    if RefreshOf(s.mem.tokens) == "" then (s, false, [])
    else
      var r := Reload(s);
      if r.mem.meta.None? || r.mem.meta.value.token == "" || NoClient(r.mem.client) then (r, false, [])
      else
        var presented := RefreshOf(r.mem.tokens);
        var seen := [Presented(presented, w.refreshReply, w.refreshedAt)];
        match Mint(w.refreshReply, w.refreshedAt)
        case None => (r, false, seen)
        case Some(t) =>
          var kept := if t.refresh == "" then t.(refresh := presented) else t;
          (SaveTokens(r.(mem := r.mem.(tokens := Some(kept))), kept, w.luck.saveTokens), true, seen)
  }

  function Clear(s: State, w: World): State {
    var forgot := s.(mem := s.mem.(tokens := None));
    if s.stored && w.luck.cleared then forgot.(disk := s.disk.(tokens := Absent)) else forgot
  }

  /** authorizeLocked. */
  function Authorize(s: State, w: World): (State, bool, seq<Happening>) {
    match w.discovery
    case None => (s, false, [])
    case Some((meta, resource)) =>
      var found := s.(mem := s.mem.(meta := Some(meta), resource := resource),
        disk := if s.stored then s.disk.(meta := Save(s.disk.meta, MetaFile(Some(meta), resource), w.luck.saveMeta)) else s.disk);
      if !w.listening then (found, false, [])
      else if found.mem.client.None? && meta.registration != "" then
        if NoClient(w.registration) then (found, false, [])
        else ExchangeCode(found.(mem := found.mem.(client := w.registration),
          disk := if s.stored
                  then found.disk.(client := Save(found.disk.client, w.registration.value, w.luck.saveClient))
                  else found.disk), w)
      else ExchangeCode(found, w)
  }

  /** The end of authorizeLocked: browser, callback, code exchange. */
  function ExchangeCode(s: State, w: World): (State, bool, seq<Happening>) {
    if NoClient(s.mem.client) || !w.callback then (s, false, [])
    else
      var seen := [Exchanged(w.codeReply, w.codeAt)];
      match Mint(w.codeReply, w.codeAt)
      case None => (s, false, seen)
      case Some(t) => (SaveTokens(s.(mem := s.mem.(tokens := Some(t))), t, w.luck.saveTokens), true, seen)
  }

  function Expired(t: Tokens, now: int): bool {
    t.expiresAt.Some? && now > t.expiresAt.value
  }

  /** Provider.Token: the new state, the access token, and what the server saw. */
  function Token(s: State, w: World): (State, string, seq<Happening>) {
    var l := EnsureLoaded(s);
    if l.mem.tokens.None? || l.mem.tokens.value.access == "" then (l, "", [])
    else if !Expired(l.mem.tokens.value, w.now) then (l, l.mem.tokens.value.access, [])
    else if l.mem.tokens.value.refresh == "" then (Clear(l, w), "", [Cleared])
    else
      var (r, ok, seen) := Refresh(l, w);
      if ok && r.mem.tokens.Some? then (r, r.mem.tokens.value.access, seen) else (Clear(r, w), "", seen + [Cleared])
  }

  /** Provider.HandleUnauthorized: true means no error. */
  function HandleUnauthorized(s: State, w: World): (State, bool, seq<Happening>) {
    var l := EnsureLoaded(s);
    if RefreshOf(l.mem.tokens) == "" then Authorize(l, w)
    else
      var (r, ok, seen) := Refresh(l, w);
      if ok then (r, true, seen)
      else
        var (a, done, more) := Authorize(Clear(r, w), w);
        (a, done, seen + [Cleared] + more)
  }

  // ---------------------------------------------------------------- runs

  /** One call, or a restart of the program: memory is rebuilt, the disk stays. */
  datatype Call = AskToken(w: World) | Unauthorized(w: World) | Restart

  datatype Answer = Access(token: string) | Handled(ok: bool) | Restarted

  function Perform(s: State, c: Call, staticClient: Option<ClientInfo>): (State, Answer, seq<Happening>) {
    match c
    case AskToken(w) => var (s', a, seen) := Token(s, w); (s', Access(a), seen)
    case Unauthorized(w) => var (s', ok, seen) := HandleUnauthorized(s, w); (s', Handled(ok), seen)
    case Restart => (s.(mem := Fresh(staticClient)), Restarted, [])
  }

  function RunAll(s: State, calls: seq<Call>, staticClient: Option<ClientInfo>): (State, seq<Answer>, seq<Happening>)
    decreases |calls|
  {
    if calls == [] then (s, [], [])
    else
      var (s1, a, seen) := Perform(s, calls[0], staticClient);
      var (s2, answers, later) := RunAll(s1, calls[1..], staticClient);
      (s2, [a] + answers, seen + later)
  }
}
