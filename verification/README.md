# mcp-remote, verified

mcp-remote is a proxy between an MCP client on stdin/stdout and a remote MCP server over Streamable HTTP. This project
models the parts of it whose correctness depends on interleavings, on how bytes arrive, or on long histories:

- **Session recovery** (`Recovery*.dfy`, `ProxyObject.dfy`). The stdin reader, any number of request dispatchers, the
  relays (the GET listener and the fire-and-forget forwarders) and the recovery goroutine form one transition system. A
  step is one mutex section, channel operation, lock acquisition, write to the client or goroutine start; the step
  carries whatever the server, the client and the scheduler decide. Every accepted request gets a token, and theorems
  are about every run from the initial state. `ProxyObject.Proxy` is the mutable object: its methods
  are the mutex sections and loops, and driven over any run it holds the fields the transition system says.
- **Event streams** (`Chunking.dfy`, `Sse*.dfy`, `Listen*.dfy`). A scanner driven by a split function over arbitrary
  reads, the line splitter, the field accumulator, and the reconnect loop with its last event id and backoff. The
  reference meaning follows sections 9.2.5 and 9.2.6 of the WHATWG HTML Living Standard.
- **OAuth tokens** (`OAuth*.dfy`). The provider's caches over a disk with three files; network steps, clock readings and
  file writes may go wrong at every point. `OAuthProvider` holds the mutable classes, `OAuthModel` the functions they are
  proved to compute, `OAuthTheorems` and `OAuthAnswers` what holds over whole histories.
- **Challenges** (`Challenge*.dfy`). The hand-written WWW-Authenticate scanner and its round trip.
- **Framing** (`Framing*.dfy`). The newline-delimited transport: concurrent writers, the reading goroutine with its two
  channels, and concurrent readers.

A `char` stands for one byte.

## What the code does differently from what one might expect

- *inFlight is not an exact index of requests being served.* Queueing for replay and deleting the entry are two
  sections, so a late delete can remove the entry of the replayed copy (`RecoveryLateDelete.IndexCanMissReplay`). First
  attempts are always listed (`FirstAttemptsListed`); the index is complete all along a run if and only if the run
  contains no late delete (`IndexedExactly`), and it can break in the next step exactly when attempts overlap
  (`BreaksExactly`).
- *Three attempts can mean four passes and five sends.* A final response can zero the counter between counting an
  attempt and taking recoveryMu. Three passes and four sends a request are the limit of a stretch without a final
  response if and only if no pass is admitted with the counter at zero (`ThreePassesExactly`, `FourSendsExactly`); a
  state where one is can be reached (`FourPassesCanRun`). Counted from the start of the program the limits hold
  (`BoundedReplay`); `StretchPasses`, `StretchRetries` and `StretchTotal` are the accounts for every stretch.
- *A pass that finds no captured initialize* takes the pending requests and reports nothing for them; a run can end with
  an accepted request given up and not a single Write call (`SilenceHappens`). Between two passes, everything that will
  ever be given up is reported if and only if an initialize is captured (`ReportedExactly`).
- *Nothing promises an answer to every request.* A channel that closes without a response ends its dispatcher silently;
  what is proved is that the machinery never rests while a request still waits (`NothingStranded`).
- *A stream that ends cleanly inside an event dispatches that event and commits its id*, against section 9.2.6 and
  against the comment on parseSSE, which says an id is kept only at a blank line. Only a read error discards the
  unfinished event. `UnfinishedEvent` gives the exact contribution, `PartialMovesResume` the exact condition under which
  the resume point moves, `CleanEndCommits` a concrete stream.
- *Wrap-around never lengthens a token's life.* `expires_in` in nanoseconds may overflow 64 bits, but then the recorded
  expiry is earlier, so the freshness bound needs no restriction.
- *A configured static client without an id is not restart-proof*, and it is the only exception
  (`RestartProofExactly`).

## Model

| member | source | states |
|---|---|---|
| RecoveryTheorems.ReachableInv | internal/proxy/proxy.go:215-692 | Every state of every run satisfies the joint invariant: ownership, wake-up, exclusion through recoveryMu, stream order, shuffle of outputs, snapshot coverage, handshake order. |
| RecoveryTheorems.OneOwner | internal/proxy/proxy.go:258-348 | Every accepted request is in exactly one place: a dispatcher that has not queued it, pendingReplay, a running pass, the reader; or, only after recovery failed, given up. |
| RecoveryTheorems.AtMostOneReply | internal/proxy/proxy.go:46-52 | If every Send channel keeps its documented contract, then until recovery fails at most one Write call made for an accepted request answers it, over any number of session losses and replays. |
| RecoveryTheorems.AtMostOneReplyPerId | internal/proxy/proxy.go:46-52 | If moreover ids are distinct and answers arrive only on their own channels, at most one of all Write calls, from whatever goroutine, answers a given id. |
| RecoveryStreams.GaveAwaySilently | internal/proxy/proxy.go:305-317 | Under the Send contract a dispatcher that gave its request to recovery has written nothing. |
| RecoveryStreams.OneReplyPerChannel | internal/proxy/proxy.go:295-347 | Two writes of one dispatcher are never both final responses. |
| RecoveryTheorems.DispatcherOutput | internal/proxy/proxy.go:285-348 | The Write calls made for one dispatcher are exactly the replies owed for what it received, in order, up to where it stopped; session losses contribute nothing. |
| RecoveryTheorems.RelayOutput | internal/proxy/proxy.go:385-476 | The listener and every forwarder make Write calls for exactly the messages they received, in order. |
| RecoveryTheorems.RecoveryOutput | internal/proxy/proxy.go:558-648 | A recovery that has not failed makes no Write call; a failed one has made them for a prefix of its planned errors. |
| RecoveryTheorems.NoOtherOutput | internal/proxy/proxy.go:285-476 | Every Write call belongs to a dispatcher or relay that exists, or to a failed recovery. |
| Jsonrpc.Kinds | internal/jsonrpc/message.go:46-55 | A message is of at most one kind, one with a method always of one, and an error response answers its request. |
| RecoveryFates.EverythingIsPassedOn | internal/proxy/proxy.go:229-245 | Over every run: of the messages the client sent, in order, exactly the requests have been accepted and exactly the notifications and responses have a forwarder; the one in the reader's hand is next. |
| RecoveryFates.DispatcherFate | internal/proxy/proxy.go:285-348 | A dispatcher ends if and only if its Send failed, its channel brought an error or closed, or the proxy was cancelled, and hands its request over if and only if its channel reported a lost session; otherwise it goes on, final responses or not. |
| RecoveryFates.RelayFate | internal/proxy/proxy.go:385-497 | A relay ends if and only if its stream could not be opened, failed or closed, a forwarder has signalled a loss, or the listener found the proxy failed or cancelled; after a successful recovery the listener goes on. |
| RecoveryTheorems.NoLostWakeup | internal/proxy/proxy.go:502-516 | While recovery has not failed, a non-empty pendingReplay implies a full trigger slot, a dispatcher about to signal, or a recovery that has yet to grab the queue, though signals are dropped when the slot is full. |
| RecoveryTheorems.NothingStranded | internal/proxy/proxy.go:285-348 | When no dispatcher and no recovery step is possible and recovery has not failed, every accepted request has been finished by a dispatcher. |
| RecoveryFates.NoStaleEntry | internal/proxy/proxy.go:289-304 | Until recovery fails every key of inFlight is the id of a request registered at the reader, just relisted by a pass, or held by a dispatcher that has yet to delete its entry: a request that is over leaves the index. |
| RecoveryFates.RestEmptiesIndex | internal/proxy/proxy.go:350-354 | At rest, with no failure and no message being accepted, inFlight is empty. |
| RecoveryTheorems.BoundedReplay | internal/proxy/proxy.go:98 | From the start and without a counter reset: at most 3 passes, and at most 4 dispatchers per accepted request. |
| RecoveryFates.PassesNeedSignals | internal/proxy/proxy.go:502-535 | There are never more passes than signals sent. |
| RecoveryBounds.StretchPasses | internal/proxy/proxy.go:510-535 | In any stretch without a reset, from any state, passes begun stay within the budget: 3 minus the attempts already counted, plus one if a pass was admitted before the stretch. |
| RecoveryBounds.StretchRetries | internal/proxy/proxy.go:510-613 | In any such stretch a request is dispatched at most once, and once more for each pass of the budget. |
| RecoveryTheorems.StretchTotal | internal/proxy/proxy.go:510-613 | In any reset-free stretch from any reachable state N accepted requests cause at most 4N dispatches, 5N if a pass was admitted with the counter at zero. |
| RecoveryBounds.StretchSends | internal/proxy/proxy.go:602-613 | Over any stretch, resets or not, a request is dispatched at most once, and once more by each pass. |
| RecoveryFourthPass.ThreePassesExactly | internal/proxy/proxy.go:516-535 | With no failure, an initialize captured and the reader not stopped: three passes are the limit of every reset-free stretch if and only if no pass is admitted with the counter at zero. |
| RecoveryFourthPass.ThreePasses | internal/proxy/proxy.go:516-535 | Three passes are the limit in every state in which no pass is admitted with the counter at zero. |
| RecoveryFourthPass.FourSendsExactly | internal/proxy/proxy.go:516-613 | In a reachable such state, four sends of each request are the limit if and only if the same holds. |
| RecoveryFourthPass.FiveSends | internal/proxy/proxy.go:516-613 | From a state with a pass admitted at zero, the next request accepted can be sent five times without a reset. |
| RecoveryFourthPass.PassRuns | internal/proxy/proxy.go:558-616 | An admitted pass can succeed whenever the reader waits: it starts exactly one dispatcher per queued request, in queue order, empties the queue and leaves counter and trigger alone. |
| RecoveryFourthPass.ManyPasses | internal/proxy/proxy.go:510-535 | The budget of passes can be spent to the last one, whatever is queued or captured, from every state with a waiting reader that is idle or has a pass admitted. |
| RecoveryFourthPass.FourPassesCanRun | internal/proxy/proxy.go:340-345 | A state is reachable from which four passes run, and one request is sent five times, without a reset in between. |
| RecoveryTheorems.WorkIsBounded | internal/proxy/proxy.go:285-616 | Over every run the number of dispatcher and recovery steps is bounded by the potential plus what accepted requests, received messages and final responses bring in. |
| RecoveryProgress.StepPays | internal/proxy/proxy.go:285-616 | One step's share of that account: an internal step lowers the potential, unless it zeroes the counter; any step raises it at most by its gift. |
| RecoveryTheorems.ReplayAfterHandshake | internal/proxy/proxy.go:578-613 | Every Send of a replayed request comes after, within its own pass and in this order, a session reset, the captured initialize, an error-free answer with the same id and, if captured, the initialized notification sent and drained. |
| RecoveryTheorems.NothingSlipsIn | internal/proxy/proxy.go:229-245 | When a replay step fails, everything in inFlight was already in the pass's snapshot. |
| RecoveryTheorems.FailIdsExact | internal/proxy/proxy.go:667-687 | The ids reported are those of snapshot and pending, each once, the empty id never, whatever order the map is ranged in. |
| RecoveryTheorems.FailedPassCoverage | internal/proxy/proxy.go:574-597 | Before a failed pass lets go of recoveryMu it has made one Write call with a -32000 error per distinct id of snapshot and pending and left inFlight empty; without a captured initialize it has made none. |
| RecoveryTheorems.ShutdownCoverage | internal/proxy/proxy.go:539-554 | failAndShutdown plans one error per distinct id then in inFlight or pendingReplay, empties pendingReplay and records a cause. |
| RecoveryTheorems.HaltedMeansWritten | internal/proxy/proxy.go:510-535 | When the recovery goroutine has returned, a Write call was made for every planned error, in order. |
| RecoveryTheorems.ReportingClears | internal/proxy/proxy.go:689-691 | When a failed pass or a shutdown has made its last Write call, all planned errors have been written and inFlight is emptied. |
| RecoveryFates.OneMoreAfterFailure | internal/proxy/proxy.go:247-252 | Once a failure is recorded the reader takes at most one more message. |
| RecoveryFates.StopsAreKnown | internal/proxy/proxy.go:164-178 | When the reader has stopped the proxy is cancelled; recovery has returned only if it failed or the proxy is cancelled. |
| RecoverySilence.ReportedExactly | internal/proxy/proxy.go:539-597 | From a reachable state between two passes, with the reader waiting and no failure: after every run that ends with the recovery goroutine returned, each request given up has a Write call with an error for its id, if and only if an initialize is captured. |
| RecoverySilence.GivenUpIsReported | internal/proxy/proxy.go:539-597 | Run by run: when recovery has returned, every request it gave up has a Write call with an error for its id, or was grabbed by a pass without a captured initialize. |
| RecoverySilence.CapturedMeansReported | internal/proxy/proxy.go:563-576 | Once an initialize is captured, no later pass grabs requests in silence. |
| RecoverySilence.SilenceHappens | internal/proxy/proxy.go:574-576 | An instance from the start of the program: an accepted request is given up and no Write call is ever made. |
| RecoveryTheorems.AttemptsAreCounted | internal/proxy/proxy.go:340-345 | The counter is the number of triggers counted since the last reset in the schedule. |
| RecoveryTheorems.LatestCaptured | internal/proxy/proxy.go:262-269 | What recovery replays is the latest initialize and the latest initialized notification, each later one overwriting. |
| RecoveryTheorems.FirstAttemptsListed | internal/proxy/proxy.go:271-273 | With distinct ids, a first attempt without a final response is in inFlight until recovery fails. |
| RecoveryTheorems.ReplaysListed | internal/proxy/proxy.go:602-607 | So is a replayed attempt after every run without a late delete. |
| RecoveryTheorems.IndexedExactly | internal/proxy/proxy.go:311-314 | With distinct ids, inFlight lists every unfinished attempt in every state of a run if and only if no step of the run is a late delete. |
| RecoveryTheorems.StepBreaksExactly | internal/proxy/proxy.go:311-314 | One step leaves a complete index complete if and only if it is no late delete. |
| RecoveryTheorems.BreaksExactly | internal/proxy/proxy.go:311-314 | In a reachable state whose index lists every unfinished attempt, some step makes it miss one if and only if an old attempt has yet to delete its entry while the request is listed again. |
| RecoveryLateDelete.IndexCanMissReplay | internal/proxy/proxy.go:311-314 | A run without failure and with distinct ids reaches a state where an unanswered replay is not in inFlight. |
| ProxyObject.Proxy.TriggerRecovery | internal/proxy/proxy.go:502-507 | A second signal is absorbed by the first; nothing else changes. |
| ProxyObject.Proxy.CountAttempt | internal/proxy/proxy.go:516-521 | The counter grows by one and the pass is allowed if and only if fewer than three attempts were counted. |
| ProxyObject.Proxy.Perform | internal/proxy/proxy.go:258-572 | Any step of any goroutine, run on the object as the mutex section the source runs there, leaves the fields the transition system says. |
| ProxyObject.Proxy.PerformAll | internal/proxy/proxy.go:258-692 | Driven section by section over any run, in any interleaving, the object holds the fields of the state the run leads to. |
| ProxyObject.Proxy.ReplayInitialize | internal/proxy/proxy.go:619-648 | Success if and only if the first decisive item of the channel is an error-free answer with the request's id; other messages are ignored. |
| ProxyObject.Proxy.FailAllPending | internal/proxy/proxy.go:667-692 | The writes are one error per reported id in some range order of the map, and inFlight is emptied. |
| ProxyObject.Proxy.FailAndShutdown | internal/proxy/proxy.go:539-554 | The cause is recorded once, the queue emptied, and everything still known is reported. |
| Chunking.CutCommutes | internal/httpmcp/sse.go:26-28 | A cut made by a chunk-proof splitter is unchanged by the bytes still to come. |
| Chunking.Scan | internal/httpmcp/sse.go:26-28 | Driving a chunk-proof splitter over any reads gives the tokens of the whole input seen at once. |
| SseLines.SplitLine | internal/httpmcp/sse.go:116-144 | The index loop decides as the line splitter's function. |
| SseLines.LineCutsAreFinal | internal/httpmcp/sse.go:116-144 | A positive advance of splitSSELine does not depend on appended data, a CR at the end of a chunk included. |
| SseLines.OneShotIsLines | internal/httpmcp/sse.go:114-144 | Its lines are those of the text with CRLF and CR turned into LF, an unterminated last line included. |
| SseLines.ScanLines | internal/httpmcp/sse.go:64-71 | Any chunking yields those lines. |
| SseParser.Dispatch | internal/httpmcp/sse.go:36-62 | Nothing without data; otherwise the decoded items of the joined data, then the id. |
| SseParser.TakeField | internal/httpmcp/sse.go:76-102 | A non-blank line contributes its data value or replaces the id candidate, or neither. |
| SseParser.Parse | internal/httpmcp/sse.go:30-112 | The parser's deliveries and commits are those of the block semantics: cut at blank lines, one event per block with data, the id of a block without data carried on, the last block flushed at a clean end only. |
| SseParser.DecodeStream | internal/httpmcp/sse.go:25-144 | The same from bytes in arbitrary reads. |
| SseWire.FieldWithColon | internal/httpmcp/sse.go:81-102 | For every colon-free name and every value: the line means data or id exactly for these two names, its value is what follows the colon without one leading space, and every other name, the empty one included, is ignored. |
| SseWire.FieldWithoutColon | internal/httpmcp/sse.go:85-88 | A line without a colon is a field with an empty value. |
| SseWire.WireRoundTrip | internal/httpmcp/sse.go:25-144 | Events written with comments, event names and other fields between their data lines, with or without the space after a colon, and with ids in blocks of their own before them, decode to their payloads in order, each followed by the last id given since the previous event. |
| SseWire.DecodeWritten | internal/httpmcp/sse.go:25-144 | The same for the decoder over any reads. |
| SseWire.EverythingDelivered | internal/httpmcp/sse.go:40-55 | The events hand over exactly what their payloads decode to, in order. |
| SseWire.CommitComesLast | internal/httpmcp/sse.go:40-58 | An id is committed when everything of its event and of the events before it has been handed over. |
| SseRoundTrip.RoundTrip | internal/httpmcp/sse.go:71-144 | Events with CR-free payloads (empty ones included) and optional single-line ids, printed with LF, CR or CRLF and cut anywhere, are decoded to the same payloads and ids in order. |
| SseRoundTrip.DecodePrinted | internal/httpmcp/sse.go:25-144 | The decoder, driven over any reads of a printed stream, delivers what the original payloads decode to and commits the original ids. |
| ListenLoop.SleepBackoff | internal/httpmcp/client.go:351-369 | One call's wait and next stored value. |
| ListenLoop.StoredStep | internal/httpmcp/client.go:351-369 | After n calls the stored value is min(2^(n-1), 30) s. |
| ListenLoop.WaitBounds | internal/httpmcp/client.go:356-358 | The first wait is zero, the n-th lies in [3/4 b, 5/4 b) with b = min(2^(n-2), 30) s, and the random bound is positive. |
| ListenLoop.WaitSpreads | internal/httpmcp/client.go:356-358 | Every whole number of nanoseconds in that interval is some random number's wait. |
| ListenLoop.SleepsFollowClosedForm | internal/httpmcp/client.go:255-346 | Every sleep of every run finds zero or the value of the closed form for the calls made so far. |
| ListenLoop.BackoffBounds | internal/httpmcp/client.go:255-369 | In every run of doListen each sleep finds a stored value b that is zero or between 1 s and 30 s and of the closed form, and waits nothing for zero and within [3/4 b, 5/4 b) otherwise. |
| ListenLoop.TakeTurn | internal/httpmcp/client.go:268-344 | One turn of the loop: what it does, whether it goes on, and the loop variables after it. |
| ListenLoop.DoListen | internal/httpmcp/client.go:255-346 | The loop's trace is that of the run function, for every list of connections. |
| ListenRuns.ListensExactly | internal/httpmcp/client.go:268-344 | A run survives network errors and streams, and a 401 answered with a new token if a 200 came since the last one; the first other connection ends it. Every connection up to there is tried once, all events of theirs are delivered and committed, and one error is reported unless the end is a cancellation or a 405. |
| ListenRuns.Reconnects | internal/httpmcp/client.go:286-295 | If every connection is a network error or a stream, all are tried and all their events delivered. |
| ListenRuns.NapsExactly | internal/httpmcp/client.go:286-337 | The sleeps of a run are those its connections demand: none after a stream, and the closed form for the network errors since. |
| ListenLoop.CallbackKeepsLastId | internal/httpmcp/client.go:264-266 | The id the callback leaves is that of the latest dispatched event with an id. |
| ListenLoop.LatestIdWins | internal/httpmcp/client.go:264-266 | That is the id of the last event that has one. |
| ListenLoop.Resumes | internal/httpmcp/client.go:255-346 | In every run of doListen, each GET carries the id of the latest event dispatched with an id on any earlier connection, and exactly the messages of all events dispatched so far, with their ids, have been delivered and committed by then. |
| ListenLoop.ResumePoint | internal/httpmcp/client.go:281-283 | The inductive form of Resumes: from any loop state, every GET carries the id of the latest event dispatched with an id on any earlier connection, and exactly the messages of all events dispatched so far have been delivered by then. |
| ListenLoop.UnfinishedEvent | internal/httpmcp/sse.go:105-111 | A connection that ends inside an event contributes nothing for it after a read error, and after a clean end the event made of its lines so far, with its own last id or the one carried out of the finished lines. |
| ListenLoop.PartialMovesResume | internal/httpmcp/sse.go:105-111 | Such an event moves the resume point if and only if the end is clean, it has data, and its id, own or carried, differs from the one of the finished events. |
| ListenLoop.CleanEndCommits | internal/httpmcp/sse.go:109-111 | A concrete unterminated event whose id is committed at a clean end and not at a read error. |
| OAuthProvider.Storage.SaveTokens | internal/oauth/storage.go:102-107 | Only the token file changes: written, left alone, or damaged. |
| OAuthProvider.Storage.SaveClient | internal/oauth/storage.go:128-133 | The same for the client file. |
| OAuthProvider.Storage.SaveMetadata | internal/oauth/storage.go:149-158 | The same for metadata with its resource. |
| OAuthProvider.Storage.ClearTokens | internal/oauth/storage.go:110-116 | Only the token file goes; a failed removal leaves it. |
| OAuthProvider.Provider.EnsureLoadedLocked | internal/oauth/flow.go:489-530 | The caches fill from disk once, without overwriting what is cached. |
| OAuthProvider.Provider.RefreshTokensLocked | internal/oauth/flow.go:385-441 | Caches, disk, success and what the server saw are those of the refresh function, whatever fails. |
| OAuthProvider.Provider.AuthorizeLocked | internal/oauth/flow.go:158-261 | The same for the authorization flow. |
| OAuthProvider.Provider.Token | internal/oauth/flow.go:103-130 | Caches, disk, answer and what the server saw are those of the Token function, which OAuthAnswers characterises. |
| OAuthProvider.Provider.HandleUnauthorized | internal/oauth/flow.go:134-156 | The same for HandleUnauthorized: refresh first, then clear and authorize. |
| OAuthProvider.Provider.TokenExpiredLocked | internal/oauth/flow.go:532-540 | True without tokens, false without an expiry, otherwise a comparison with the clock. |
| OAuthTheorems.RestartEquivalence | internal/oauth/flow.go:489-530 | With reliable storage, after any calls and whatever the network did, a provider rebuilt from disk holds the same tokens, client, metadata and resource. |
| OAuthTheorems.RestartsAreInvisible | internal/oauth/flow.go:103-156 | Restarts inserted anywhere change neither the other answers, nor what the server sees, nor the disk. |
| OAuthTheorems.EmptyStaticClientIsForgotten | internal/oauth/flow.go:404-416 | Every static client with an empty id breaks restart equivalence. |
| OAuthTheorems.RestartProofExactly | internal/oauth/flow.go:404-416 | Restart equivalence holds over all calls if and only if there is no static client or it has an id. |
| OAuthTheorems.PresentsTokenInForce | internal/oauth/flow.go:385-441 | Every refresh token presented is the fold of the history: a new one replaces the old, none keeps it, a failed refresh retires it (section 6 of RFC 6749). |
| OAuthTheorems.RefusedTokenIsRetired | internal/oauth/flow.go:115-127 | If the server never hands out a refused value again, a refused refresh token is never presented again, restarts included. |
| OAuthTheorems.FreshnessBound | internal/oauth/flow.go:103-130 | Token returns nothing, a token minted in this call, or one whose stated lifetime is unlimited or has 30 s left; over every history, file damage included. |
| OAuthTheorems.HoldsStandingTokens | internal/oauth/flow.go:103-261 | Over every history the tokens held are exactly the standing ones: the latest minted, with the refresh token kept if none came, unless thrown away since. |
| OAuthTheorems.StaticClientStays | internal/oauth/flow.go:489-530 | A configured client with an id is in use for ever: no file and no registration takes its place. |
| OAuthAnswers.AnswersWhileValid | internal/oauth/flow.go:103-130 | Over every history: while 30 s of its stated lifetime are left and nothing has replaced it or thrown it away, the token brought last is the answer, and no server is asked. |
| OAuthAnswers.EmptyExactly | internal/oauth/flow.go:103-130 | Token answers nothing if and only if no token is held, or the one held has expired and cannot be renewed. |
| OAuthAnswers.AnswersStanding | internal/oauth/flow.go:103-130 | Over every history the answer is the standing token while it is valid, else what a refresh brings, else nothing. |
| OAuthAnswers.ValidExactly | internal/oauth/flow.go:479-481 | A minted token is valid if and only if 30 s of its stated lifetime are left or none was stated, for lifetimes that fit 64 bits. |
| OAuthAnswers.RefreshExactly | internal/oauth/flow.go:385-441 | The server is asked if and only if a refresh token, a token endpoint and a client are cached or stored, and the refresh succeeds if and only if it then grants; what is missing in the cache is read from disk. |
| OAuthAnswers.AuthorizeExactly | internal/oauth/flow.go:158-261 | An authorization succeeds if and only if discovery, listener, client, browser and code exchange do, registers a client only when there is none, and keeps the old tokens when it fails. |
| OAuthAnswers.UnauthorizedExactly | internal/oauth/flow.go:134-156 | HandleUnauthorized succeeds if and only if a refresh or else an authorization does; a refresh that can be attempted comes first, and when all fails the old tokens are gone. |
| Challenge.ScanQuoted | internal/oauth/discovery.go:105-122 | The quoted-string loop reads value and rest as the suffix function does. |
| Challenge.ScanItem | internal/oauth/discovery.go:73-130 | One turn strictly advances, for every input, and finds what the suffix function finds. |
| Challenge.ParseWWWAuthenticate | internal/oauth/discovery.go:59-133 | The parser's result: nil for another scheme, else the parameters of the list. |
| ChallengeRoundTrip.RoundTrip | internal/oauth/discovery.go:59-133 | Token keys in any case, with values as quoted-strings with necessary or superfluous escapes or bare, any blanks around separators, and words without values between them, in any spelling of the scheme, parse to exactly these parameters under lower-case keys, later duplicates winning. |
| ChallengeRoundTrip.MapRoundTrip | internal/oauth/discovery.go:130-132 | So any map is recovered from any printing of it. |
| ChallengeRoundTrip.LowerIs | internal/oauth/discovery.go:130 | A key in lower case differs from the key in its capital letters only, each replaced by its small one. |
| ChallengeRoundTrip.OtherScheme | internal/oauth/discovery.go:64-68 | A header is a challenge if and only if its first six characters spell the scheme in some case. |
| ChallengeRoundTrip.EmptyKey | internal/oauth/discovery.go:86-93 | An equals sign without a key is passed over and reading goes on right after it. |
| ChallengeRoundTrip.Unclosed | internal/oauth/discovery.go:105-122 | A quoted-string that is never closed runs to the end. |
| ChallengeRoundTrip.EmptyValue | internal/oauth/discovery.go:98-129 | Blanks alone after an equals sign are an empty value. |
| Framing.LFCutsAreFinal | internal/stdio/transport.go:104-107 | The default line splitter of bufio is chunk-proof. |
| Framing.OneShotIsLines | internal/stdio/transport.go:104-107 | Its tokens are the LF-ended pieces without one trailing CR, the last possibly unterminated. |
| Framing.RoundTrip | internal/stdio/transport.go:145-152 | A stream of encoded messages reads back as these messages, their raw JSON compacted, and then the ending. |
| Framing.FramedReadsBack | internal/stdio/transport.go:107-118 | A stream with empty lines between its messages and any mixture of LF and CRLF reads back as exactly these messages. |
| FramingWriter.Transport.Write | internal/stdio/transport.go:136-173 | Exactly when a call reports cancellation, an encoding error, a closed transport or a write error, in the code's order; success means the whole batch was appended, a write error at most a prefix of it, anything else nothing. |
| FramingWriter.Transport.PerformAll | internal/stdio/transport.go:154-184 | Driven over any interleaving of concurrent calls and Close, the object has the output and the closed flag of the state the run leads to. |
| FramingWriter.WholeBatches | internal/stdio/transport.go:136-173 | However calls interleave, the output is the entered sections' bytes in lock order: a successful call's batch whole and once, a failed write's prefix, nothing for the rest. |
| FramingWriter.ClosedIsFinal | internal/stdio/transport.go:154-159 | Nothing is written after Close. |
| FramingReader.ReadLoop | internal/stdio/transport.go:107-127 | The goroutine sends the script of the stream, from bytes in any chunks. |
| FramingReader.ReadsInOrder | internal/stdio/transport.go:70-95 | Whichever ready channel each select picks, with any number of concurrent or cancelled calls, the i-th call that returns gets the i-th outcome: messages in order, the error once, then EOF. |
| FramingReader.NeverStuck | internal/stdio/transport.go:99-128 | A waiting call has a ready channel, or the goroutine can move and comes strictly closer to making one ready. |
| FramingTheorems.EndToEnd | internal/stdio/transport.go:70-173 | Concurrent writers' output in any chunking, read by any calls, gives the batches' messages, compacted, in lock order and then EOF for ever. |
| FramingTheorems.StopsAtBadLine | internal/stdio/transport.go:112-116 | A line that does not decode is reported once, after the messages before it, and then EOF for ever. |

## Left out

- HTTP, TLS, sockets, the browser, file modes, hashing and randomness: remote calls are nondeterministic outcomes, random numbers parameters.
- JSON: decoding and encoding are parameters. The framing theorems assume that decoding an encoded message gives the message with its raw JSON compacted, and that an encoded message is a non-empty line without LF and without CR at its end.
- Files are three optional values; writing a value and reading it back is lossless, a failed write may leave the old file or an unreadable one.
- internal/config/config.go, redirects, session id and protocol version setters, the callback listener, PKCE, client registration bodies: single-branch facts.
- The Send contract (internal/proxy/proxy.go:46-52) is a hypothesis of the at-most-one-reply theorem; the HTTP client that should keep it is not part of this model.
- "Every request is answered" and "exactly one reply even when recovery fails": the code does not promise them.
- Cancellation inside parseSSE and during a backoff sleep ends a run; partial deliveries of an event at that moment are not modelled. In the proxy, cancellation is one flag.
- Whether a Write call to the client succeeds: theorems about the proxy's output speak of the calls made, and a step records the outcome without depending on it.
- Lines over the scanner's limit, and the scanner's limit on empty reads.
- Real time, fairness, log output, the preference of a waiting writer over new readers of recoveryMu.
- Letter case and white space are those of ASCII.
- A Go variable of an optional struct is an Option; aliasing of json.RawMessage bytes is not modelled.
