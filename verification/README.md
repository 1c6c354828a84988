# Verified model of the Trae API gateway

The gateway turns a proprietary chat stream into OpenAI-compatible answers and keeps one
account logged in through a refresh token that may be used only once. This project models
its core in Dafny and proves what its parts promise each other, over every input, every
interleaving and every failure of a file operation.

## What is modelled

| files | part of the gateway |
|---|---|
| `Json`, `Text`, `Wrappers` | decoded JSON, strings, snapshots |
| `Accumulator`, `AccumulatorProofs`, `IdeAccumulator`, `EventStream`, `StreamProofs`, `Framing`, `Thinking`, `Sizes`, `Emitters` | reading the upstream stream: event framing, cumulative snapshots, tool calls addressed by ID, index, record position or "the last one", and the deltas emitted on the way |
| `ChatWire`, `StreamSink`, `Conversation` | the chunks written to the client, the sink shared with the heartbeat, the example client that puts a message together again, and the way the parts compose |
| `ToolHistory`, `Requests`, `TokenEstimate` | which requests and histories are accepted, what goes upstream, token budget and estimate |
| `CredentialStore`, `AuthState`, `AuthManager`, `Exchange` | the credential file, the account state behind one lock, the exchange of a refresh token |
| `AuthWorld`, `RefreshFence`, `LoginAttempts`, `AuthRounds`, `ApiReader` | runs of the Auth process with interleaved callers, failures and crashes, and what the API process sees of them |
| `Models`, `ModelCache` | model discovery under any map iteration order, and the bounded cache of its results |

Code that updates state in place is a class (`IdeAccumulator`, `StreamSink`,
`CredentialStore`, `AuthManager`, `ChatRequest`, `TraeClient`) or a method with a loop. Each
is proved equal, step for step, to functions on values; the properties are proved of those
functions, over whole runs.

What is assumed and enters as a parameter:

* `Json.Runtime` parses and prints JSON, formats numbers, judges `json.Valid` and draws IDs.
  `Sound` says that `{}` is valid JSON and that a drawn ID is non-empty and unused.
* `ChatWire.Codec` encodes a chunk as a JSON object and decodes it again.
* An emitter is given by how many deltas it accepts before it refuses one (`Session.patience`).
* Every lock-held section of the Auth process is one step that reads the clock once; a
  network exchange lies between two steps, so anything may happen meanwhile.
* A disk has a visible directory entry and the set of entries a crash may bring back. A
  renamed file stays in doubt until the directory is synced. Every step of `Save` and
  `QuarantineRejected` may fail, so may the reading back after a failed save, and a crash may
  hit every disk state in between.

## What the proofs found

* After a caller is cancelled during an exchange the same process sends the refresh token
  again, even if that exchange succeeded; otherwise it does not, unless the exchange brought
  the same token anew (`RefreshFence.ReplayedExactlyWhenCancelled`). Without cancelled callers
  no token in doubt is sent again (`NeverReplayed`). A later process never sends a token that
  an earlier one left in doubt (`NeverResentAfterRestart`).
* The exchange reports a definitive rejection although the server has accepted the token, if
  and only if the answer names another account (`Exchange.RejectionIsDefinitive`). A rejection
  may lift the mark on the file; a later process then sends the rejected token again, exactly
  if the file was rewritten and not moved away (`Exchange.RejectedTokenIsTriedAgain`).
* A failed write of the fence is invisible to callers exactly while the old access token is
  good (`AuthState.FenceFailureIsMasked`).
* Snapshots of a `<think>` answer fold to its two parts if and only if none is cut inside
  `</think>` and the pieces of `<think>` that others end with never break the answer
  (`Thinking.ThinkingSplit`): such a piece is harmless where the answer repeats it or goes on
  with it at that point. An answer without `<` is broken by every such piece
  (`Thinking.PlainThinkingSplit`).
* A terminal event ends the reading only at the next blank line: frames before it are still
  processed, and an event that waits when the stream ends is dropped
  (`Framing.EndsExactly`, `Framing.StreamReadsExactly`).
* Naming a function in `tool_choice` restricts the calls to it unless it is called `auto` or
  `none`, or `required` beside other tools (`Requests.NamedChoiceForces`).
* Discovery is not single-flight. A model that was offered, the automatic one or one whose
  answer has already started, can be refused when its entry expired or was dropped and the new
  discovery lacks it or is dropped at once (`ModelCache.OfferedThenRefused`), and even while
  everything is young when another request of the account stored a discovery without it
  (`ModelCache.RaceRefuses`); `ModelCache.RefusedExactly` is the exact condition.
* A login that is still wanted and complete is refused to its caller and yet adopted by the
  next process exactly if the save put its credential into the file, or found it there, and
  the file cannot be read back
  (`LoginAttempts.StrandedExactly`; `AuthRounds.StrandedLogin` is such a run).
* After a cancellation, while writes still succeed, `[DONE]` follows exactly if the handler
  had come to it or the started stream then fails for another reason than the account
  (`StreamSink.MarksAfterCancellation`; `StreamSink.MarkAfterCancellation` is such a run). A
  client accepts exactly the runs that succeeded without a failed write
  (`StreamSink.AcceptedExactly`).

## Model

| member | source | states |
|---|---|---|
| Conversation.StreamingEqualsPlain | http.go:84-165 | for every upstream stream that succeeds, the client reading the written chunks, keepalives anywhere, gets exactly the content, reasoning and ordered calls of the message read without an emitter |
| Conversation.HandlerEqualsPlain | http.go:84-151 | driven by the stream under any interleaving: the client gets exactly the plain message if the run succeeds and no write fails, and nothing otherwise |
| Conversation.RefusedDeltaStopsStream | http.go:84-121 | when the handler refuses a delta, the reading stops at that very delta with the emitter's failure, and the run never succeeds |
| Emitters.RefusalsExactly | upstream.go:311-316 | for any stream: an emitter that accepts n deltas changes nothing if there are no more, else the reading fails at the one it refused |
| Emitters.EmittersDoNotMatter | upstream.go:311-316 | a stream that succeeds for an emitter comes to the same without one |
| Conversation.ClosingTheLoop | upstream.go:263-294 | an accepted history plus the stream's message plus one answer per call, in any order, is accepted again and passes the checks per message |
| Conversation.HistoryGrows | types.go:242-268 | accepted histories are closed under appending a block with new IDs |
| StreamProofs.ReadCompletes | upstream.go:252-294 | a successful stream saw a terminal event, its deltas amount to its message, its IDs are distinct, every call is declared, permitted and has valid arguments, the choice and the limit on parallel calls hold, it is not empty |
| StreamProofs.EveryPrefix | upstream.go:461-607 | after any lines the maps are exact inverses of the calls' distinct IDs, the deltas amount to the message so far, and further lines never remap an index or an ID nor retract a delta |
| Framing.FramingRoundTrip | upstream.go:209-251 | printed events read back as the same events and joined data, separated by blank lines or by the next event line, comments giving only heartbeats |
| Framing.DeliveredExactly | upstream.go:209-251 | the reading of any printed items from any state: exactly which frames and heartbeats count, what waits, and where it stops |
| Framing.EndsExactly | upstream.go:226-241 | reading ends if and only if a blank line follows a terminal event before anything is refused; until then every later frame is processed |
| Framing.StreamReadsExactly | upstream.go:224-262 | the outcome of a whole stream, its end included: what still waits is dropped if a terminal event came before it, delivered if not |
| AccumulatorProofs.FrameKeeps | upstream.go:329-427 | every accepted frame keeps the identity maps, the account of the deltas and the tool policy, and only grows what was known |
| AccumulatorProofs.DeltaConservation | upstream.go:395-411 | after a frame the text, reasoning and argument deltas concatenate to the accumulated values; a call's ID and name have been emitted exactly once |
| AccumulatorProofs.AddCallKeeps | upstream.go:461-607 | one record keeps the invariant whichever way it addresses its call |
| AccumulatorProofs.KnownIndexUnseenID | upstream.go:487-508 | a known index that comes with an unseen ID is always refused |
| AccumulatorProofs.ConcludeCompletes | upstream.go:263-294 | the final fill-in of empty arguments lands on the right call and the completed message obeys the request |
| Sizes.StaysSmall | upstream.go:412-414 | at every point of every stream at most 16 MiB of text, 128 calls and 4 MiB of arguments each are held |
| Sizes.MessagesAreSmall | upstream.go:252-294 | the message of a successful stream keeps the same limits, fill-ins included |
| IdeAccumulator.IdeAccumulator.Send | upstream.go:311-316 | emitting a delta appends it or fails as the emitter does |
| IdeAccumulator.IdeAccumulator.AddCall | upstream.go:461-607 | the fields after a record are those of the specification, including every refusal |
| IdeAccumulator.IdeAccumulator.ExtractCalls | upstream.go:429-459 | the records under the six keys are added in order until one is refused |
| IdeAccumulator.IdeAccumulator.Frame | upstream.go:329-427 | one frame changes the accumulator as specified |
| IdeAccumulator.IdeAccumulator.Absorb | upstream.go:385-411 | text and reasoning are split, merged and emitted as specified |
| IdeAccumulator.IdeAccumulator.Conclude | upstream.go:263-294 | the checks at the end and the completed calls |
| IdeAccumulator.ReadIDEStream | upstream.go:194-295 | the scanning loop computes the specified outcome for every sequence of lines |
| Text.MergeSnapshot | upstream.go:318-327 | what is kept is the old text followed by exactly what is reported as new |
| Text.MergeKeepsLongest | upstream.go:318-327 | merging prefixes of one text keeps the longer |
| Thinking.ThinkingSplit | upstream.go:385-404 | snapshots cut anywhere, in any order, with repeats, fold to exactly reasoning and answer if and only if none is cut inside the closing tag and the pieces of the opening tag never break the answer |
| Thinking.PlainThinkingSplit | upstream.go:385-404 | for an answer without a less-than sign the fold is exact if and only if no snapshot is cut inside a tag |
| Thinking.CutsBreak | upstream.go:386-394 | such an answer is broken by every piece of an opening tag |
| Thinking.SplitPrefix | upstream.go:386-394 | what each prefix of a tagged text is split into |
| ChatWire.ReadStreamLoop | examples/chat_client.py:53-92 | the client's loop computes the specified message or failure |
| ChatWire.TranscriptRead | examples/chat_client.py:53-92 | a finished transcript with keepalives anywhere reads back as what its deltas amount to |
| ChatWire.NoDoneNoReply | examples/chat_client.py:82-84 | without the end mark nothing is accepted |
| ChatWire.KeepalivesIgnored | examples/chat_client.py:68-69 | keepalives never change what the client reads |
| StreamSink.StreamSink.Send | http.go:402-441 | a data frame is attempted exactly when nothing forbids it, and a failed write is remembered |
| StreamSink.StreamSink.Heartbeat | http.go:443-455 | a keepalive only between the first frame and the end |
| StreamSink.StreamSink.Done | http.go:456-469 | the end mark is attempted once unless a write failed |
| StreamSink.WireLanguage | http.go:122-151 | over all interleavings: data first, nothing after a failed write, the end mark last and at most once, never after an authentication error, a JSON error body never mixed with a stream |
| StreamSink.AcceptedExactly | http.go:300-320 | a client accepts what was delivered if and only if the run succeeded and no write failed, and then holds all its deltas |
| StreamSink.MarksAfterCancellation | http.go:456-469 | once a request is cancelled, the end mark follows if and only if the handler had come to it or the started stream fails for another reason than the account |
| StreamSink.CancelledSuccess | http.go:133-148 | a run that would succeed after a cancellation returns at once, without a mark |
| StreamSink.MarkAfterCancellation | http.go:300-318 | a run in which the mark is written after the cancellation |
| ToolHistory.ValidateToolHistory | types.go:242-268 | the loop over the two sets computes the specified verdict, with the offending ID |
| ToolHistory.AcceptanceIsGrammar | types.go:242-268 | accepted if and only if the history splits into blocks of one message and a permutation of the answers to its calls, all IDs distinct |
| ToolHistory.AnswersAreNamed | upstream.go:22-57 | in an accepted history the name map gives every call's own name and covers every answer |
| Requests.ChatRequest.ValidateRequest | types.go:190-239 | a request is accepted if and only if it is acceptable, and only its default schemas and its choice change |
| Requests.ChatRequest.CheckTools | types.go:203-220 | tools are accepted if and only if they are named functions with distinct names and object schemas |
| Requests.ChatRequest.CheckMessages | types.go:221-235 | accepted if and only if every message has a known role and well-formed calls |
| Requests.ChoiceName | types.go:160-189 | what a tool choice selects and when it is refused |
| Requests.DemandsCanBeMet | types.go:160-189 | a choice that demands a call always leaves a declared tool that may be called |
| Requests.NamedChoiceForces | types.go:160-189 | naming a function forces exactly that function, unless it is called auto or none, or is called required beside other tools |
| Requests.RenderMessages | upstream.go:18-59 | the announcement of tools first, then each message with its role, calls, content, call ID, and its name or none |
| Requests.AnswersGoOutNamed | upstream.go:48-57 | in a validated request an unnamed tool result goes out under the name of the one call it answers |
| Requests.Budget | upstream.go:79-97 | the output limit is the greatest number within what was asked and what the route allows, and with the prompt's share it fills the window |
| TokenEstimate.EstimateTokens | http.go:333-348 | the loop computes the estimate |
| TokenEstimate.CountsStarts | http.go:333-348 | the estimate is the number of positions where a token starts |
| TokenEstimate.EstimateJoin | http.go:333-348 | joining two texts loses one token exactly when a word runs across the join |
| TokenEstimate.EstimateBounded | http.go:333-348 | never more than the characters, and zero only for blank text |
| CredentialStore.CredentialStore.Load | credential_store.go:215-252 | a complete credential from a safe file, or the error |
| CredentialStore.CredentialStore.Save | credential_store.go:256-336 | the file goes through exactly the specified states, whichever step fails |
| CredentialStore.CredentialStore.QuarantineRejected | credential_store.go:341-381 | the same for moving the rejected file away |
| CredentialStore.SaveIsAtomic | credential_store.go:256-336 | at every point readers and crashes meet an old entry or the new one; success is visible and durable; a failure before the rename changes nothing |
| CredentialStore.QuarantineIsAtomic | credential_store.go:341-381 | only the rejected credential is ever taken away, at every point and after every crash |
| CredentialStore.StoreIsAtomic | credential_store.go:256-381 | over any sequence of operations with failures anywhere, no reader and no crash meets anything but no file or one saved complete credential |
| AuthManager.AuthManager.PrepareRefresh | auth.go:92-137 | the section before the exchange does to memory and disk exactly what is specified |
| AuthManager.AuthManager.FinishRefresh | auth.go:138-219 | so does the section after it |
| AuthManager.AuthManager.ReconcilePublished | auth.go:224-236 | published means saved, or readable and read back identically |
| AuthManager.AuthManager.Recovering | auth_service.go:48-60 | a new process takes the file's credential and distrusts a fenced one |
| AuthManager.AuthManager.LogOut | auth.go:251-260 | logout drops the credential, every attempt and every exchange under way |
| AuthManager.AuthManager.SupersedeResults | auth.go:273-282 | in any map order, expired results go and pending ones are superseded |
| AuthManager.AuthManager.OldestResult | auth.go:283-292 | in any map order, a result that expires first is found |
| AuthManager.AuthManager.BeginLogin | auth.go:261-321 | the new attempt replaces all others, an oldest result making room |
| AuthManager.AuthManager.ClaimAttempt | auth.go:373-385 | the first half of the callback hands the attempt to one caller |
| AuthManager.AuthManager.InstallLogin | auth.go:451-481 | the second half persists first and installs only what is still wanted |
| AuthManager.AuthManager.FinishAttempt | auth.go:730-738 | an attempt left pending by its callback has failed |
| AuthManager.AuthManager.ReportStatus | auth_service.go:154-176 | asking notices that time has run out |
| AuthManager.AuthManager.CancelAttempt | auth_service.go:177-199 | cancelling ends a pending attempt and leaves a settled one |
| AuthState.SameIsEqual | auth.go:238-250 | the comparison of credentials is equality with a key present |
| AuthState.PublishedIsVisible | auth.go:224-236 | a save counted as published left exactly this credential for readers |
| AuthState.FenceFailureIsMasked | auth.go:123-137 | the token goes out if and only if the fence reached the disk, and when a failure is hidden |
| RefreshFence.CrashSafeFence | auth.go:123-197 | at rest and at every disk state inside a section, whatever a crash recovers is nothing or one complete credential, marked if its token is unresolved, and from sending to resolution it is the fenced credential or one written since |
| RefreshFence.NeverResentAfterRestart | auth_service.go:48-60 | in every run one exchange at a time, and no process sends a token an earlier process left unresolved |
| RefreshFence.NeverReplayed | auth.go:99-122 | in every run without cancelled callers an unresolved token is never sent again by any process |
| RefreshFence.ReplayedExactlyWhenCancelled | auth.go:146-197 | after any exchange that did not bring the same token anew, the next round sends it again if and only if the caller was cancelled, even after a success or a rejection |
| RefreshFence.PersistBeforePublish | auth.go:150-166 | in every run a credential enters memory only as the visible content of the file |
| AuthRounds.StaleExchangeIsHarmless | auth.go:140-151 | in every run an exchange is overtaken exactly if a login or a logout took effect since its token was sent, and then its end leaves memory and disk as they are |
| LoginAttempts.LoginsAreLinear | auth.go:451-477 | in every run a login takes effect, in memory or only in the file, at most once, and only if since it began there was no newer attempt, cancellation or reported expiry of it, login, logout or restart |
| LoginAttempts.EffectsAreLogged | auth.go:458-471 | no login section changes memory or the visible file without taking effect in that sense |
| LoginAttempts.CrashEffectsAreLogged | auth.go:458-467 | nor does a crash inside one, for what the next process finds |
| LoginAttempts.StrandedExactly | auth.go:458-466 | exactly when a login is refused to its caller although its credential is in the file; memory is unchanged, and the next process takes it up |
| AuthRounds.StrandedLogin | auth.go:224-236 | a run from the first start that ends so, and the next process that is logged in |
| LoginAttempts.OneAttemptPending | auth.go:261-321 | in every run at most one attempt is pending, and every reported status is true |
| LoginAttempts.SettledStatusStays | auth_service.go:154-199 | a settled attempt is never reported differently afterwards |
| LoginAttempts.LiveMeans | auth.go:451-477 | an attempt may still win exactly when the log holds its beginning and nothing since that ends it |
| AuthRounds.HandedOutIsGood | auth.go:92-137 | in any state `get` hands out only the current access token, and only while it has not expired |
| AuthRounds.HandedBackIsGood | auth.go:150-219 | in every run the caller of an exchange gets the token it sent while that is good, or a new credential that is in the file |
| AuthRounds.RefreshSucceeds | auth.go:123-166 | a round in which nothing fails renews memory and disk, lifts the fence, and the next caller needs no exchange |
| AuthRounds.FailedMeansLogin | auth.go:95-109 | from the end of a failed exchange, under any interleaving with refused logins included, every later round sends nothing until a login or logout takes effect, and what it answers |
| AuthRounds.FailsExactly | auth.go:150-197 | a counted exchange fails unless its new credential was saved, or was read back |
| AuthRounds.LoginSucceeds | auth.go:261-477 | an undisturbed login within its ten minutes is completed, in memory and on disk, and no other attempt is pending |
| AuthRounds.DeadlinesHold | auth.go:451-457 | in every run a login takes effect only while pending and before its deadline; expiry is reported only after it |
| ApiReader.AlwaysServed | credential_store.go:189-212 | between the sections of every run the API reads no login or one complete, unexpired credential |
| ApiReader.ServedInside | credential_store.go:189-212 | and so it does at every disk state inside a section |
| ApiReader.FenceIsInvisible | auth.go:123-137 | raising the fence never takes the access token away from the API |
| ApiReader.RejectionReachesAPI | auth.go:172-180 | a rejection ends the API's access if and only if the file could be rewritten or moved |
| Exchange.DecodeExchange | auth.go:617-676 | exactly which answers are a success, a rejection, in doubt or broken, and the credential of a success |
| Exchange.BoundExchange | auth.go:521-591 | the second client identity is tried if and only if the first was refused |
| Exchange.ExchangeToken | auth.go:509-520 | when nothing is sent at all, and which request decides |
| Exchange.RejectionIsDefinitive | auth.go:572-591 | at most one request may have spent the token and it is the last; a rejection after such a request means the answer named another account |
| Exchange.RenewalKeepsIdentity | auth.go:617-676 | a renewal keeps the device, never changes the account, never loses the refresh token |
| Exchange.RejectedTokenIsTriedAgain | auth.go:172-180 | after a definitive rejection and a restart or crash the same token goes out again if and only if the next process finds the rewritten file, and under which faults it does |
| Models.CollectEntries | models.go:221-232 | the available entries grouped by name, in the fixed order of the chat functions |
| Models.BuildRoutes | models.go:233-280 | in any order of the entries: the table of routes, each key listed once |
| Models.TableIsUnique | models.go:234-280 | the table is determined by the entries, so no iteration order shows |
| Models.DiscoveryIsDeterministic | models.go:221-281 | two discoveries of the same offer find the same routes and the same sorted names |
| Models.MaxRoutesAreLarger | models.go:252-279 | which keys have a route; every max route's window is larger than the dev window it was compared with |
| Models.SortAscends | models.go:281 | sorting distinct names gives strictly ascending names |
| Models.ListingIsUnique | models.go:281 | there is one ascending listing of a set |
| Models.Discover | models.go:220-284 | ascending names that are exactly the route keys, and none exactly when nothing is offered |
| ModelCache.ServesLatest | models.go:153-160 | in every run at most eight accounts are kept, and what is served is the last discovery for that account, complete and younger than the limit |
| ModelCache.DropsOnlyOldest | models.go:290-300 | an account is dropped only when expired or when nothing that stays is older |
| ModelCache.TraeClient.PruneModelCache | models.go:38-44 | in any map order exactly the expired entries go |
| ModelCache.TraeClient.OldestEntry | models.go:291-299 | in any map order an oldest entry is found |
| ModelCache.TraeClient.RememberModels | models.go:285-306 | a discovery enters the pruned cache, an oldest entry making room |
| ModelCache.TraeClient.ModelNames | models.go:153-308 | names come from the pruned cache or a discovery, with other requests at work while the upstream is asked |
| ModelCache.TraeClient.ResolveRoute | upstream.go:126-146 | the lookup does to the cache and answers what is specified, with other requests at work wherever the lock is free |
| ModelCache.RefusedExactly | upstream.go:126-146 | among any other requests: a model is refused if and only if no young entry offered it, names were found, and then the account was dropped or its last discovery, whoever made it, lacks the model |
| ModelCache.RefusedAtOnce | upstream.go:126-146 | without interference: refused if and only if the entry found, or else the discovery made on the spot, lacks the model |
| ModelCache.NamesAreOffered | main.go:267-273 | the automatic model is listed by the discovery it was chosen from |
| ModelCache.RoutedIsOffered | upstream.go:148-152 | so is a model that got its route before the answer started and is looked up once more |
| ModelCache.OfferedThenRefused | upstream.go:126-146 | a model offered before, while others work on other accounts before and during the lookup: exactly when it is refused |
| ModelCache.RaceRefuses | upstream.go:126-146 | when another request of the account stores a discovery without the chosen model, it is refused although both are young |

## Left out

- HTTP transport, listeners, URL and host checks, browser opening, command line, logging: plumbing without the properties above.
- Cryptography: keys are opaque values with equality; proofs of possession and digests are not modelled.
- JSON text: requests, frames, chunks and credentials are decoded values; encoding is assumed to read back.
- Usage figures (`parseUsage`, `chatUsage`): a stream's usage object is kept as it came.
- Timers, deadlines and tickers: a clock reading is a parameter, and timeouts are cancellations; there is no liveness, because `get` may go on as long as a server keeps returning expired tokens.
- `get` as one loop: its two sections are separate methods, and the rounds of all callers interleave in `AuthWorld.Run`.
- Several readings of the clock or of the cancellation inside one section: each section uses a single reading of either.
- `acquireGate` and `execute`: a counter of slots and a fixed order of calls; the chat handler starts where `execute` emits.
- Credentials assembled from the callback's query: the credential that is installed is arbitrary.
- `modelConfigs` and the network requests of discovery: the decoded configurations are given.
- A start of Auth on an unreadable or unsafe file: the process refuses to start, so runs begin on an absent or valid file.
- Lines longer than the scanner's buffer: they end the stream like any failed read.
- A write that stops in the middle of a line: a written item is delivered whole or not at all.
- Exchange.RejectionIsDefinitive: a server that refuses a token it has already spent cannot be told apart from one that never took it.
