# Proofs about the inference router and its gateway

This project models the parts of the repository that carry protocols, money and wire
formats, and proves what they promise over every input and every run. `dafny verify
dfyconfig.toml` checks all of it.

What is modelled, by file:

- `StableSorting`, `RoutePlan`: how the router turns candidates into a plan. A cost sort and
  three stable partitions, spread over four functions, are one stable sort by a four-part rank.
- `Streaming`, `RouterRuns`, `RouterTraces`: executing the plan, once for whole responses (`chat`) and once for
  streams (`chatStream`), with retries, failover and the rule that nothing is retried once
  content has been emitted. Provider behaviour is an arbitrary script. `RouterTraces` reads the rules
  off the log of a run, with the limits as the numbers of the configuration.
- `AnthropicCodec`, `OpenAICodec`: the gateway's two stream encoders and the two provider
  decoders that read the same wire formats. `AnthropicFrames` and `OpenAIChunks` say what the
  decoders make of anything an upstream may send.
- `MapSums`, `ConnectionLedger`, `Overspend`, `BudgetGateway`, `GatewayRuns`: the lifetime budget of a
  connection. The store, the exact overspend bound, and the chat handler as a state machine in
  which any number of requests interleave and every store call may fail before or after taking
  effect; each request comes to what its handler, read from top to bottom, says for its own calls.
- `OAuthStores`, `OAuthExchange`, `OAuthGrants`: the authorization code exchange with any number of token
  requests interleaved, crashes between any two store calls, and keys revoked by others.
- `SolanaPay`: the `settled` and `inflight` maps in front of an on-chain payment.
- `CanonicalJson`, `JsonStrings`, `ResponseCache`: the key-sorted JSON text behind the cache key, and the
  bounded store.
- `Radix`, `Base58`, `Voucher`: base58 and the 50-byte voucher message.
- `TelemetryEvents`, `TelemetryHub`, `TelemetryRestarts`, `Aggregates`, `AggregateFields`: the operator's bounded,
  incrementally sorted ring, what becomes of it when it is rebuilt from the store, and the three
  views computed from it.
- `DecisionFeedback`, `DecisionJoins`: the in-memory join of tier decisions and guardrail outcomes,
  and how often one request can join when entries are evicted.
- `Wrappers`, `Sequences`: an option type and the tail of a list.

Classes and methods stand where the source updates state in place or loops; each is proved
equal to a function, and the properties are proved about that function. Money is counted in
units of 1e-10 USD or as exact reals. Hashes are function parameters, injective where a lemma
says so. `JSON.parse` and `JSON.stringify` of tool arguments are a pair of functions, inverse
where a lemma says so. Every `await` is a step boundary.

Where the code does less than its documentation says, the model follows the code, and the
exact condition is proved:

- A stream that fails retryably after yielding only `done` is retried, so two answers reach the
  caller. In every configuration and for every script the caller gets one answer exactly when no try
  that is reached does that with a later one emitting something (`RouterRuns.OneSourceExactly`); seen
  from the first try alone, it is safe exactly when it does not do that with another try to follow
  (`RouterRuns.SpliceExactlyAfterDone`).
- `chatStream` ignores `noFallback`: it calls `chat` where `chat` calls `chatOnce`, and goes on
  where `chat` stops. The two agree exactly when the cache answers, there is no plan, or the first
  `chatOnce` comes to the same as the first `chat` and leaves nothing to go on with
  (`RouterRuns.NoFallbackAgreement`). With a first provider that has no `chatOnce`, `chat` throws
  where the stream answers (`RouterRuns.MissingChatOnceThrows`).
- The Anthropic frames do not carry tool indices, so tool deltas that do not follow their own
  start are dropped or attributed to another call; the round trip is exact precisely for ordered
  streams, and `Echo` says what comes back otherwise (`AnthropicCodec.RoundTripExactlyInOrder`).
- The OpenAI decoder drops empty deltas and second starts; the round trip is exact precisely for
  streams without them (`OpenAICodec.RoundTripExactlyDeliverable`). The wire has no cache counts and
  carries usage only on request: it comes back exactly when there is nothing else to it
  (`OpenAICodec.UsageComesBackExactlyWhenPlain`).
- The ledger's books balance in every run exactly when hold amounts are not negative
  (`ConnectionLedger.BalancedExactlyWhenHoldNotNegative`); `app.ts:426` falls back to the default
  for any other value.
- A replayed authorization code revokes its key exactly when the replay has yet to read the code and
  finds the key recorded with it. Between the exchange's mark and its record there is a window in
  which a replay revokes nothing, and a request that read the code before the mark and loses the race
  never does (`OAuthExchange.ReplayRevokesExactlyWhenRecorded`, `OAuthExchange.LoserRevokesNothing`,
  `OAuthExchange.ReplayInTheWindowLeavesTheKeyLive`).
- The cache key's text is the same for a list of one `undefined` and for the empty list, and for a
  non-finite number and null; apart from that, equal texts are equal values up to key order
  (`CanonicalJson.SameTextExactlyWhenSame`).
- Recording a decision is idempotent only while its entry is stored. No request joins more often
  than its decision was accepted, and this bound is exact
  (`DecisionJoins.JoinsAreBoundedExactlyByAcceptances`); a request joins at most once, whatever the
  outcomes do, when fewer others are recorded between two of its records than the store holds, and no
  wider spacing will do (`DecisionJoins.SpacingBoundIsExact`). `DecisionJoins.EvictedRequestJoinsTwice`
  is a run in which one joins twice.
- Requirements that share a nonce share a settlement, whatever they pay: every caller gets a proof
  of its own amount and payee exactly when no two requirements share a key with different payments
  (`SolanaPay.OwnExactlyWhenKeyDecidesPayment`).
- A failed append is said never to drop live telemetry (`hub.ts:210`), but every dashboard read
  rebuilds the ring from the store (`app.ts:1615`). In every run of batches and rebuilds the live view
  stays the window of everything ingested exactly when each rebuild that replays anything finds that
  whole window stored (`TelemetryRestarts.ViewIsAlwaysWholeExactlyWhenStored`);
  `TelemetryRestarts.FailedAppendIsGoneAfterBoot` is a run in which an event on the live view is gone
  after the next read.

## Model

| member | source | states |
|---|---|---|
| RoutePlan.CapableDecisions | src/router/strategy.ts:57-70 | the loops collect exactly the capable pairs, in configured order |
| RoutePlan.CapablePairsMember | src/router/strategy.ts:57-70 | a decision is planned if and only if it is a capable model of a candidate in the pool, with that model's metadata and price |
| RoutePlan.CostOptimized | src/router/strategy.ts:84-102 | selection is the stable sort of the capable pairs by (not preferred, cost) |
| RoutePlan.ApplyCeiling | src/router/router.ts:548-554 | the two pushes are a stable partition: within the ceiling first, above it after, order kept in both |
| RoutePlan.PromoteByok | src/router/router.ts:562-570 | decisions on a live own key first and tagged, both parts in their old order |
| RoutePlan.ResolvePlan | src/router/router.ts:508-539 | the whole unpinned selection is the stable sort of exactly the capable pairs of the eligible pool by (no live own key, above ceiling, not preferred, cost); a pair is planned if and only if its candidate is configured, passes the own-key rules, has its circuit closed and is allowed by a list that allows anybody, and its model is capable; and no pair comes before one that should be tried first |
| RoutePlan.PoolIsAdmitted | src/router/router.ts:508-530 | the pool is the admitted candidates, in configured order and as often as they are configured: the own-key rules, the allowlist that is ignored when it names nobody, and the circuit breaker |
| RoutePlan.PlanIsInTurn | src/router/router.ts:526-539 | in every plan own live keys come first, then models within the ceiling, then what was asked for, then the cheaper one |
| RoutePlan.PlanDetermined | src/router/router.ts:508-539 | that specification has one solution, which is a permutation of the pairs and starts with a pair of least rank |
| RoutePlan.NoLiveKeyNoChange | src/router/router.ts:536 | without a live own key, skipping the promotion makes no difference |
| RoutePlan.TaggingKeepsStability | src/router/router.ts:562-570 | tagging decisions changes neither rank nor order |
| StableSorting.PartitionRefinesSort | src/router/router.ts:548-570 | a stable partition after a stable sort is one stable sort with one more significant digit |
| StableSorting.StableSortUnique | src/router/strategy.ts:87-89 | only one list is the stable sort of another |
| StableSorting.StableSortIsPermutation | src/router/strategy.ts:87-89 | a stable sort loses, adds and duplicates nothing |
| StableSorting.SortIsStable | src/router/strategy.ts:87-89 | the insertion sort used as the executable form is that stable sort |
| Streaming.CollectStream | src/stream.ts:29-62 | the consumer returns the first `done` response, or else what the deltas assemble to, tool calls in index order |
| Streaming.ResponseToStream | src/stream.ts:69-85 | the adapter yields text if any, two events for each call, and one final `done` |
| Streaming.CollectedOfAdapted | src/stream.ts:29-85 | collecting an adapted response gives that response |
| Streaming.DeltasAssemble | src/stream.ts:29-85 | without the `done`, the deltas alone carry the text and every tool call |
| Streaming.FallbackRebuildsResponse | src/stream.ts:53-85 | a stream that lost its `done` still collects to the response if and only if the response has no empty text, no usage and the implied stop reason |
| RouterRuns.Chat | src/router/router.ts:209-299 | the nested loops produce the specified log of effects and result for every script of provider outcomes, and end |
| RouterRuns.ChatTry | src/router/router.ts:244-295 | one pass through the inner loop stops, retries within the budget or moves on within the limit |
| RouterRuns.ChatIsFirstSuccess | src/router/router.ts:230-298 | the calls of a run form the forced path through the plan: every step retryable, ending with the returned answer or the thrown error, within limit times (retries + 1) calls |
| RouterRuns.TriesWithinBudget | src/router/router.ts:230-298 | from any point on, the calls left are bounded by the remaining candidates and retries |
| RouterRuns.ForcedPathUnique | src/router/router.ts:230-298 | only one path and one result fit a script, so the path property determines the run |
| RouterTraces.ChatIsTraced | src/router/router.ts:209-299 | for every configuration and all providers the log is a chain of calls from the first try on, each to a decision in the plan and within the candidate limit, or to the first under `noFallback`; each is followed by exactly the cache write and reports of its answer, the retry or failover that its failure allows, or the error; hits, empty plans and limits of none end without a call |
| RouterTraces.BoundedChatIsOneTry | src/router/router.ts:230-304 | under `noFallback` the one call is to the first `chatOnce`, whatever the candidate limit, and the request comes to what that comes to |
| RouterTraces.UnboundedChatIsChat | src/router/router.ts:301-304 | otherwise every call of the chain is to `chat` |
| RouterRuns.ChatStream | src/router/router.ts:342-442 | the streaming loops produce the specified log, events and end for every script |
| RouterRuns.StreamTry | src/router/router.ts:381-438 | one pass through the streaming inner loop, with the commit rule deciding whether it may go on |
| RouterRuns.Relay | src/router/router.ts:384-407 | relaying a try yields all its events in order, records effects at each `done`, and commits exactly when content was yielded |
| RouterTraces.ChatStreamIsTraced | src/router/router.ts:342-442 | for every configuration and script the log is a chain of calls within the plan and the candidate limit; a retry or failover follows exactly a retryable failure with nothing but `done` yielded; every `done` is cached and reported; and the caller gets what the calls yielded |
| RouterRuns.CollectedStreamIsChat | src/router/router.ts:366-457 | for providers that do not stream, collecting `chatStream` gives the same result or error as `chat`, with the same log of calls, retries, failovers, health reports and cache writes |
| RouterRuns.NoFallbackAgreement | src/router/router.ts:301-304 | with `noFallback`, for providers that do not stream and all their `chatOnce` and `chat` scripts, result and log agree if and only if the cache answers, there is no plan, or the first `chatOnce` comes to the same as the first `chat` and leaves nothing to retry or fail over to |
| RouterRuns.MissingChatOnceThrows | src/router/router.ts:303-304 | with `noFallback` and a first provider without `chatOnce` whose `chat` answers, `chat` throws the fixed error and the collected stream returns the answer |
| RouterRuns.OneSourceExactly | src/router/router.ts:342-442 | for every configuration and script, all emitted events are the cached response or one try in full if and only if no try that is reached fails retryably after a bare `done` with a later one emitting something |
| RouterRuns.StreamHasOneSource | src/router/router.ts:342-442 | for every script without a retryable failure after a bare `done`, all emitted events are the cached response or the full sequence of one try |
| RouterRuns.SpliceAfterDone | src/router/router.ts:404-427 | where it does, there are later tries, all answering at once, whose text reaches the caller after the first response |
| RouterRuns.SpliceExactlyAfterDone | src/router/router.ts:404-427 | the condition is exact in every configuration: a first try is safe in front of all well-behaved later tries if and only if it does not fail after a bare `done` with another try to follow |
| AnthropicCodec.Encoder.CloseBlock | src/anthropic-compat/response.ts:78-83 | closes the open block, if any, under its own number |
| AnthropicCodec.Encoder.ForEvent | src/anthropic-compat/response.ts:86-117 | the closure's new state and frames, for each event |
| AnthropicCodec.EncodeStream | src/gateway/server.ts:1228-1253 | the handler's loop writes the frames of the whole stream |
| AnthropicCodec.DecodeStream | src/providers/anthropic.ts:66-135 | the provider's loop yields what the decoder function yields, closing with the assembled response |
| AnthropicCodec.StepFrame | src/providers/anthropic.ts:84-125 | what one frame changes in the decoder, and what it yields |
| AnthropicFrames.DecodesAnyFrames | src/providers/anthropic.ts:66-135 | for every list of frames: the events are the texts, the starts numbered as they come and the JSON parts under the last start of their block; the response has all text, all arguments of each call, the last stop reason that is not the normal end, and the counts of the last opening frame before the last closing frame with the latter's output count, or no usage without one |
| AnthropicFrames.UpstreamUsageIsKept | src/providers/anthropic.ts:86-122 | in an upstream's usual stream the input and cache counts of the opening frame come with the closing output count |
| AnthropicFrames.EncodesOpeningFirst | src/anthropic-compat/response.ts:59-76 | the gateway's messages open with the model, the id and zero counts |
| AnthropicCodec.FramesAreBracketed | src/anthropic-compat/response.ts:85-118 | for every event sequence ending in one `done`, an automaton that knows nothing of the encoder accepts the frames: one message start first, blocks numbered in order, each delta in an open block of its own kind and number, nothing open at the end |
| AnthropicCodec.DecodeOfEncode | src/providers/anthropic.ts:84-134 | for every event sequence, decoding the frames gives its echo and a response assembled from the echo |
| AnthropicCodec.RoundTripExactlyInOrder | src/anthropic-compat/response.ts:98-106 | decoding returns the events if and only if starts are numbered in order and each tool delta follows its own start |
| AnthropicCodec.RoundTripWithResponse | src/anthropic-compat/response.ts:107-115 | for ordered streams of a faithful provider the response comes back too, input usage excepted |
| OpenAICodec.ChunkEncoder.RoleField | src/openai-compat/response.ts:68-74 | the role is handed out once |
| OpenAICodec.ChunkEncoder.ForEvent | src/openai-compat/response.ts:76-126 | the closure's new state and chunks, for each event |
| OpenAICodec.EncodeStream | src/gateway/server.ts:938-975 | the handler's loop writes the chunks of the whole stream |
| OpenAICodec.DecodeStream | src/providers/openai.ts:69-116 | the provider's loop yields what the decoder function yields, closing with the assembled response |
| OpenAICodec.StepChunk | src/providers/openai.ts:75-109 | what one chunk changes in the decoder, and what it yields |
| OpenAICodec.StepTools | src/providers/openai.ts:85-102 | the inner loop over a chunk's tool fragments |
| OpenAICodec.StepTool | src/providers/openai.ts:86-101 | one fragment: a start once id and name are known, a delta when it has arguments |
| OpenAIChunks.DecodesAnyChunks | src/providers/openai.ts:60-116 | for every list of chunks: the events are the non-empty texts, a start with the fragment that completes id and name, and the non-empty arguments; the response has all text, each call's last id and name and all its arguments, the last stop reason that is not the normal end, and the last counts with the cached part of the prompt taken out |
| OpenAICodec.RoundTripExactlyDeliverable | src/providers/openai.ts:75-109 | decoding returns the events, parallel tool calls in any interleaving included, if and only if nothing is empty and no index is started twice |
| OpenAICodec.RoundTripWithResponse | src/providers/openai.ts:111-115 | for well-formed streams of a faithful provider, whatever its usage, content, tool calls and stop reason come back, and of the usage what the wire carries |
| OpenAICodec.UsageComesBackExactlyWhenPlain | src/openai-compat/response.ts:17-24 | the whole response comes back if and only if it has no usage, or usage is asked for, its input count is not negative and it has no cache counts |
| OpenAICodec.RoleAnnouncedOnce | src/openai-compat/response.ts:66-74 | the role is announced by the first delta that can carry it, and never again |
| ConnectionLedger.MemoryConnectionLedgerStore.Reserve | src/gateway/connection-budget.ts:149-157 | new state and reply of a reserve: a known key is allowed without holding again, a hold that does not fit is refused |
| ConnectionLedger.MemoryConnectionLedgerStore.Settle | src/gateway/connection-budget.ts:159-175 | new state and outcome of a settle, its three errors included; settling again changes nothing |
| ConnectionLedger.MemoryConnectionLedgerStore.Release | src/gateway/connection-budget.ts:177-183 | new state of a release: only a hold that is still held is freed |
| ConnectionLedger.MemoryConnectionLedgerStore.FindDrift | src/gateway/connection-budget.ts:185-190 | the reconciliation report; its drift is zero whenever the books balance |
| ConnectionLedger.RunConserves | src/gateway/connection-budget.ts:149-183 | after every run of calls, duplicates and repeated settles included, reserved is the sum of the held amounts, spent is the sum of the ledger rows, and rows are the settled holds one to one |
| ConnectionLedger.RefusedExactlyWithoutRoom | src/gateway/connection-budget.ts:149-157 | while the books balance, a new hold is refused if and only if the connection's rows and outstanding holds leave no room for it under its first limit |
| ConnectionLedger.SettlesExactlyHeldOrSettled | src/gateway/connection-budget.ts:159-175 | a settle fails if and only if there is no hold or it was released, and otherwise replies with what the rows sum to and the limit |
| ConnectionLedger.LimitNeverChanges | src/gateway/connection-budget.ts:149-151 | the limit of a connection is that of its first reserve in every run |
| ConnectionLedger.NegativeHoldLosesReservation | src/gateway/connection-budget.ts:169-181 | with a negative hold amount, the same for every call, two holds and one release break the books: the clamp at zero loses a reservation |
| ConnectionLedger.BalancedExactlyWhenHoldNotNegative | src/gateway/connection-budget.ts:149-183 | a hold amount, the same for every call, keeps every run balanced if and only if it is not negative |
| Overspend.NeverAboveMaxSpend | src/gateway/connection-budget.ts:149-183 | for every run, a connection never spends more than budget + floor(budget / hold) * (maximum cost - hold), nor anything when not even one hold fits |
| Overspend.MaxSpendIsReached | src/gateway/connection-budget.ts:149-183 | a run reaches exactly that amount, so no smaller bound is right |
| BudgetGateway.StepIsOneOp | src/gateway/server.ts:1056-1095 | every step of the handler is at most one ledger operation |
| BudgetGateway.StepIsSound | src/gateway/server.ts:926-935 | every step, whatever fails, keeps the invariant that ties each request's phase to its hold and its row |
| BudgetGateway.RunIsSound | src/gateway/connection-budget.ts:78-127 | so does every interleaving of any number of requests |
| BudgetGateway.ChargedExactlyWhenServed | src/gateway/server.ts:1056-1095 | in every interleaving no key has two rows; a billed 200 has exactly one, at its own cost and connection; a call whose settle was not attempted has none; a hold whose settle was attempted is never released |
| GatewayRuns.EveryInterleavingIsTheHandler | src/gateway/server.ts:926-1095 | in every interleaving with every pattern of faults, each request's answer, what becomes of its hold, and its ledger row with connection, request and cost are what the handler, followed from top to bottom, gives for the calls that this request made |
| GatewayRuns.AnswersSayWhatHappened | src/gateway/server.ts:1056-1095 | every answer says which calls led to it: a 200 that the upstream finished and is charged exactly when billed, an upstream failure never anything but an error without charge, a 402 a refused and a 503 a faulted reserve; without failure or fault it is a 200 |
| GatewayRuns.AnsweredRequests | src/gateway/server.ts:1056-1095 | for every run: a 200 has its upstream result among the events; an uncharged hold is left held only if the request's own reserve or release was faulted; any other answer has a failure, fault or refusal of its own |
| GatewayRuns.CallsAreEvents | src/gateway/server.ts:926-1095 | the calls of a request are events of the run |
| GatewayRuns.UnfaultedStoryIsServed | src/gateway/server.ts:1056-1095 | a request whose hold fits and whose calls go through is answered 200, charged its cost if billed and freed otherwise |
| BudgetGateway.BooksAlwaysBalance | src/gateway/connection-budget.ts:129-133 | drift is zero in every interleaving |
| BudgetGateway.GatewayNeverOverspends | src/gateway/server.ts:926-935 | through the handler, too, no connection passes the closed-form bound |
| BudgetGateway.IdempotencyKeyIsInjective | src/gateway/connection-budget.ts:69-71 | fresh request ids give fresh idempotency keys |
| OAuthStores.MemoryOAuthStore.PutCode | src/gateway/oauth.ts:73 | the record is stored under its hash |
| OAuthStores.MemoryOAuthStore.GetCode | src/gateway/oauth.ts:74 | the stored record, or none |
| OAuthStores.MemoryOAuthStore.UpdateCode | src/gateway/oauth.ts:75-78 | the issued key is recorded with a known code, and nothing else changes |
| OAuthStores.MemoryOAuthStore.MarkCodeConsumed | src/gateway/oauth.ts:79-84 | wins exactly for a known code that was not consumed |
| OAuthStores.MemoryOAuthStore.ConsumeOnce | src/gateway/oauth.ts:86-92 | the sweep drops exactly the expired ids, and the call is accepted exactly when its id is not held |
| OAuthStores.OneTimeIdIsAcceptedOnce | src/gateway/oauth.ts:86-92 | whatever is consumed in between, a second use of an id before its expiry is refused |
| OAuthStores.AcceptedExactlyWhenFree | src/gateway/oauth.ts:86-92 | an id is accepted if and only if it is not held or has expired, and other ids stay held until they expire |
| OAuthStores.MemoryApiKeyStore.Resolve | src/gateway/keys.ts:136-141 | the account of a known, active key; nothing for any other |
| OAuthStores.MemoryApiKeyStore.Issue | src/gateway/keys.ts:118-149 | the account that is issued, and the store with it under the key's hash |
| OAuthStores.MemoryApiKeyStore.RevokeInProject | src/gateway/keys.ts:159-168 | the loop revokes the first active key with that id in the project, and says whether there was one |
| OAuthStores.IssuedKeyResolves | src/gateway/keys.ts:136-149 | an issued key resolves to its account at once, and no other key resolves differently |
| OAuthStores.IssuedAccountIsInItsProject | src/gateway/keys.ts:114-130 | an issued account is active, carries its key's id, and belongs to the project it was issued for, or to its own user |
| OAuthStores.RevokeOnlyRevokes | src/gateway/keys.ts:159-168 | every entry stays as it was, or was a match and is now revoked |
| OAuthStores.RevokeReaches | src/gateway/keys.ts:159-168 | with distinct ids, afterwards the key with that id in that project is revoked |
| OAuthStores.RevokedExactlyWhenMeant | src/gateway/keys.ts:114-168 | with distinct ids, exactly the active key with that id in that project, or without a project and of that user, is revoked, and the reply says whether there is one |
| OAuthStores.DeadKeysDoNotResolve | src/gateway/keys.ts:136-141 | a revoked key authenticates nobody |
| OAuthExchange.StepIsSound | src/gateway/oauth.ts:317-377 | every store call of every token request, crash and outside revocation keeps the invariant of the exchange |
| OAuthExchange.RunIsSound | src/gateway/oauth.ts:317-377 | so does every interleaving |
| OAuthExchange.AtMostOneKeyPerCode | src/gateway/oauth.ts:347-367 | in every interleaving a code yields at most one key, and only to a request that presented it unexpired with its own client, redirect URI and PKCE verifier |
| OAuthGrants.KeysBelongToTheApprover | src/gateway/oauth.ts:309-377 | in every interleaving, for every issued key: somebody approved its code; the key is that user's, in the project of that user, workspace and client, labelled with client and workspace; it was issued during the minute after the approval to a request that arrived with the approved client, redirect URI and a fitting verifier; it is recorded with the code once that request is answered; and its hash authenticates as it until it is revoked |
| OAuthGrants.TokensAreIssued | src/gateway/oauth.ts:360-376 | only the request that a key was issued to is answered with it |
| OAuthGrants.RefusedExactlyByTheChecks | src/gateway/oauth.ts:353-358 | a request that won its code is refused exactly by the first of the four checks that fails, and gets a key exactly when none does |
| OAuthGrants.OthersMayAct | src/gateway/keys.ts:159-168 | in the model requests may crash, keys may be issued and revoked by others, and time passes |
| OAuthExchange.FailedAttemptBurnsTheCode | src/gateway/oauth.ts:345-358 | any attempt with a live code consumes it, and after a refused one no key ever comes of it |
| OAuthExchange.ReplayRevokesForEver | src/gateway/oauth.ts:336-344 | a replay that starts after the key was recorded, in any interleaving: once answered, it is answered as a replay and the key stays revoked |
| OAuthExchange.ReplayRevokesExactlyWhenRecorded | src/gateway/oauth.ts:336-351 | a request for a code with a live key, reading it yet or having read it before the mark, revokes that key if and only if it has yet to read the code and finds the key recorded |
| OAuthExchange.LoserRevokesNothing | src/gateway/oauth.ts:347-351 | a request that read the code before it was marked and comes too late to mark it: in any interleaving it is answered as the loser of the race, and none of its steps touches a key |
| OAuthExchange.ReplayInTheWindowLeavesTheKeyLive | src/gateway/oauth.ts:347-367 | a run in which a replay between mark and record is answered and the key stays usable |
| SolanaPay.SolanaPayProvider.Pay | src/payment/solana-pay.ts:193-216 | what a call returns and changes up to its first suspension |
| SolanaPay.SolanaPayProvider.OnSettled | src/payment/solana-pay.ts:208-211 | a finished settlement is recorded under its key |
| SolanaPay.SolanaPayProvider.OnFailed | src/payment/solana-pay.ts:207-212 | a failed settlement records nothing |
| SolanaPay.SolanaPayProvider.OnFinally | src/payment/solana-pay.ts:212 | afterwards the key is no longer in flight |
| SolanaPay.StepIsSound | src/payment/solana-pay.ts:193-216 | every call and callback keeps the invariant that settlements of one key follow each other and all but the last have failed |
| SolanaPay.RunIsSound | src/payment/solana-pay.ts:193-216 | so does every interleaving |
| SolanaPay.AtMostOnePaymentPerKey | src/payment/solana-pay.ts:145-148 | in every interleaving a key has at most one settlement that runs or has succeeded |
| SolanaPay.CallersAgree | src/payment/solana-pay.ts:200-215 | all successful callers of a key get the same result, and it names their key |
| SolanaPay.RetryExactlyAfterFailure | src/payment/solana-pay.ts:200-215 | a call starts a settlement if and only if every earlier one of its key has failed and been cleared |
| SolanaPay.RefusedExactlyOffSolana | src/payment/solana-pay.ts:193-198 | a call is refused if and only if its network is named and its name nowhere says `solana`, and a refused call changes neither map |
| SolanaPay.SuccessIsKeptForEver | src/payment/solana-pay.ts:200-215 | once a settlement has succeeded, every call that waits for it and every later call for its key, whatever happens in between, is answered with the proof it made |
| SolanaPay.FailureIsRetried | src/payment/solana-pay.ts:207-216 | a settlement that failed is still shared until it is cleared, and then the next call for its key starts another one |
| SolanaPay.NonceIsKey | src/payment/solana-pay.ts:102-107 | a nonce is the key; without one it is the hash of resource, amount and payee |
| SolanaPay.SharedKeyExactlySamePayment | src/payment/solana-pay.ts:102-107 | without nonces, requirements with the same resource, amount and payee share a key, and requirements whose amounts and payees have no bar share one only then |
| SolanaPay.KeyIsUnambiguousExactlyWithoutBars | src/payment/solana-pay.ts:102-107 | a requirement without nonce shares its key with no other payment if and only if none of its fields has a bar |
| SolanaPay.AnswersAreOwn | src/payment/solana-pay.ts:193-216 | in every interleaving in which calls that share a key ask for the same payment, each answered caller has a proof of its own amount and payee |
| SolanaPay.OwnExactlyWhenKeyDecidesPayment | src/payment/solana-pay.ts:102-107 | for two requirements, that holds in all interleavings if and only if they do not share a key with different payments |
| CanonicalJson.StringifyIsPrintOfCanon | src/router/cache.ts:15-25 | sorting while printing is printing a canonical form |
| CanonicalJson.QuotedUnique | src/router/cache.ts:16 | a quoted string says which string it is and where it ends, escapes and lone surrogates included |
| JsonStrings.QuotedReadsBack | src/router/cache.ts:16 | a reader of JSON strings (RFC 8259, section 7) gets every string back, lone surrogates and control characters included |
| JsonStrings.QuotedIsWellFormed | src/router/cache.ts:16 | in the text of any string no surrogate stands alone |
| CanonicalJson.SortedKeysAgree | src/router/cache.ts:20 | sorting leaves nothing of the insertion order |
| CanonicalJson.PrintUnique | src/router/cache.ts:15-25 | a printed canonical form says which value it is and where it ends |
| CanonicalJson.SameTextExactlyWhenSame | src/router/cache.ts:15-25 | for all values, `undefined` and non-finite numbers included, texts are equal if and only if the values are the same up to key order |
| CanonicalJson.SameTextExactlyWhenReordered | src/router/cache.ts:14-25 | for JSON values, texts are equal if and only if the values are equal up to the order of object keys |
| CanonicalJson.UndefinedListPrintsEmpty | src/router/cache.ts:17-19 | a list of one `undefined` has the text of the empty list |
| ResponseCache.SameKeyExactlyWhenSameRequest | src/router/cache.ts:32-41 | two requests have the same key text if and only if they agree in every keyed field |
| ResponseCache.MemoryCacheStore.Get | src/router/cache.ts:71-73 | a value if and only if one slot is stored under the request's key, and then that slot's value |
| ResponseCache.MemoryCacheStore.Set | src/router/cache.ts:75-84 | deleting, inserting and the eviction loop move the key to the back and keep the newest entries |
| ResponseCache.MemoryCacheStore.Evict | src/router/cache.ts:79-83 | the loop leaves the newest entries, at most `maxEntries` of them |
| ResponseCache.StoreIsNewestSets | src/router/cache.ts:75-84 | after any history the store is the newest `maxEntries` of the last sets per key, and never larger |
| ResponseCache.HitExactlyWhenRecent | src/router/cache.ts:71-84 | a lookup hits if and only if the key was set and fewer than `maxEntries` distinct keys have been set since, and returns the last value set |
| ResponseCache.HitAnswersTheSameRequest | src/router/cache.ts:32-84 | with a hash that does not collide, a hit is the response last set for a request equal in every keyed field |
| Radix.ConvertBack | src/connect/install.ts:168-182 | changing base and back is the identity on numerals, leading zeros included |
| Base58.B58 | src/connect/install.ts:168-182 | the three loops compute the base58 text, and decoding it gives the bytes back |
| Base58.NumberLoop | src/connect/install.ts:170-171 | shifting in the bytes gives their big-endian number |
| Base58.DigitLoop | src/connect/install.ts:172-176 | dividing down gives the number's digits in base 58 |
| Base58.OnesLoop | src/connect/install.ts:177-180 | one leading symbol for each leading zero byte, up to the first other byte |
| Base58.DecodeOfEncode | src/gateway/keys-wallet.ts:86-95 | the gateway's decoding returns every byte sequence, empty and all-zero ones included |
| Base58.EncodeOfDecode | src/gateway/keys-wallet.ts:86-95 | and no two base58 texts decode alike |
| Base58.EncodeIsInjective | src/connect/install.ts:168-182 | different bytes have different texts |
| Voucher.EncodeVoucherMessageBytes | src/gateway/x402-upto.ts:70-88 | the array that is filled in place is the message, or the error for a channel id that is not base58 or not 32 bytes |
| Voucher.Set | src/gateway/x402-upto.ts:76 | copying bytes in changes nothing else |
| Voucher.WriteLittleEndian | src/gateway/x402-upto.ts:77-86 | the shift loop writes the eight low bytes and changes nothing else |
| Voucher.ReadOfMessage | src/gateway/x402-upto.ts:65-88 | a message is 50 bytes, and reading it gives the channel, the amount modulo 2^64 and the expiry as a signed 64-bit number |
| Voucher.FieldsComeBackExactlyWhenTheyFit | src/gateway/x402-upto.ts:77-86 | the fields come back unchanged if and only if the amount fits u64 and the expiry fits i64 |
| Voucher.SameBytesExactlyWhenSameVoucher | src/gateway/x402-upto.ts:70-88 | two vouchers sign the same bytes if and only if the channels are equal and both numbers agree modulo 2^64 |
| Voucher.DifferentChannelIdsDiffer | src/gateway/x402-upto.ts:74-76 | different channel ids never share a message |
| TelemetryHub.Hub.Boot | src/operator/hub.ts:198-205 | a replay that is not empty takes the place of the ring, which is then the window of what was replayed and of nothing else; an empty replay changes nothing |
| TelemetryHub.Hub.Ingest | src/operator/hub.ts:212-232 | with a clock that does not run backwards, after any sequence of batches the ring is the last `maxEvents` of the in-retention part of the stable sort by time of everything ever ingested |
| TelemetryHub.Hub.MergeInOrder | src/operator/hub.ts:216-224 | a batch merged into the bounded ring leaves what the whole longer history leaves |
| TelemetryHub.Hub.Append | src/operator/hub.ts:216-223 | after the push and the conditional sort the ring is the stable sort of old ring and batch |
| TelemetryHub.Hub.Push | src/operator/hub.ts:216-222 | when the shortcut skips the sort, the ring is in order already |
| TelemetryHub.Hub.Prune | src/operator/hub.ts:235-243 | the prefix scan and the cap keep exactly the newest events in retention |
| TelemetryHub.ExpiredPrefix | src/operator/hub.ts:236-238 | the scan stops at exactly the first event in retention |
| TelemetryHub.RingIsWindowOfHistory | src/operator/hub.ts:212-243 | after any sequence of batches from any sources the ring is the window of the whole history |
| TelemetryHub.RingFollowsHistory | src/operator/hub.ts:212-243 | nothing dropped earlier can come back: pruning early and pruning late agree |
| TelemetryRestarts.RebuildLosesNothingExactlyWhenStored | src/operator/hub.ts:198-205 | for every history, test of what is stored, horizon and cap: the window of the stored events is the window of all if and only if every event of the latter is stored |
| TelemetryRestarts.BootIsWholeExactlyWhenStored | src/operator/hub.ts:198-205 | whatever the ring held before, after a replay it is the window of everything ingested if and only if all of that window was stored |
| TelemetryRestarts.ViewIsAlwaysWholeExactlyWhenStored | src/operator/hub.ts:198-232 | for every run of batches and rebuilds, with anything between a read of the store and the swap: the ring is the window of everything ingested all along if and only if each rebuild that replays anything finds that window stored |
| TelemetryRestarts.UnstoredIsGone | src/operator/hub.ts:198-205 | after a replay that is not empty, an event not stored at its read is not in the ring |
| TelemetryRestarts.FailedAppendIsGoneAfterBoot | src/operator/hub.ts:198-232 | an event whose append failed is on the live view before the next rebuild, and not any more after it |
| Aggregates.ComputeOverview | src/operator/aggregate.ts:35-131 | the counters and totals are the sums over all events, and the margin is revenue minus cost |
| Aggregates.SoldBelowCostExactlyWhenBaselineIsLower | src/operator/aggregate.ts:15-23 | modelled revenue is below cost if and only if the baseline is, and never above the baseline |
| Aggregates.ComputeTimeseries | src/operator/aggregate.ts:134-182 | each bucket holds the sums of the events that fall in it, clamped at both ends, and no baseline |
| Aggregates.BucketsSumToSpan | src/operator/aggregate.ts:152-176 | the buckets add up to the events of the span: none is lost or counted twice |
| Aggregates.ComputeBreakdown | src/operator/aggregate.ts:185-247 | one row for each key that an event goes to, with that key's sums, margin, errors and failovers |
| Aggregates.RowsSumToKeyed | src/operator/aggregate.ts:185-247 | the rows add up to the requests that have a key |
| Aggregates.ViewsAgree | src/operator/aggregate.ts:35-247 | when all events lie in the span and every request has a key, the rows add up to the overview, the buckets to the overview without its baseline, and the rows' margins to its margin |
| AggregateFields.OverviewByField | src/operator/aggregate.ts:15-131 | every field of the overview is the sum or count of that field over the events, revenue being the cost with the margin or the baseline if that is less |
| AggregateFields.SeriesByField | src/operator/aggregate.ts:134-182 | every bucket holds the fields and errors of the events from its start to the next one's, the last one without end |
| AggregateFields.BucketsReachNow | src/operator/aggregate.ts:141 | the buckets reach up to now with none to spare |
| AggregateFields.RowsByField | src/operator/aggregate.ts:185-247 | every row holds the fields of the requests with its key, their margin, and the errors and failovers attributed to it |
| AggregateFields.RowExactlyWhenTouched | src/operator/aggregate.ts:192-241 | a key has one row if a request has it or an error or failover is attributed to it, and none otherwise |
| DecisionFeedback.MemoryDecisionFeedback.RecordTier | src/router/decision-feedback.ts:99-124 | new state of a decision record: a duplicate is ignored, at the cap the oldest goes, and it joins if its outcome is there |
| DecisionFeedback.MemoryDecisionFeedback.RecordGuardrail | src/router/decision-feedback.ts:127-134 | new state of an outcome record, likewise |
| DecisionFeedback.MemoryDecisionFeedback.MaybeJoin | src/router/decision-feedback.ts:136-151 | a pair joins once, and its tier gains exactly that pair |
| DecisionFeedback.AddJoined | src/router/decision-feedback.ts:142-149 | the field updates add one pair to a tier's totals |
| DecisionFeedback.NoEvictionIsRelationalJoin | src/router/decision-feedback.ts:99-151 | without eviction, for every arrival order and any duplicates, the joined count and each tier's totals are those of the relational join of the first records per request |
| DecisionFeedback.JoinByField | src/router/decision-feedback.ts:142-149 | a tier's totals are the number of its pairs, of those flagged and of those with confidence, and the sums of quality and confidence |
| DecisionFeedback.SourcesAreCounted | src/router/decision-feedback.ts:105-122 | without eviction the counters count the first decisions by Jev, from its cache and by fallback |
| DecisionFeedback.CountsAgreeUnderEviction | src/router/decision-feedback.ts:99-151 | with any cap, the joined count is the sum of the per-tier requests, no accepted decision joins twice, and every accepted decision is Jev's or a fallback |
| DecisionJoins.StepJoinsExactly | src/router/decision-feedback.ts:99-151 | for every event and cap, a request joins at this step if and only if its decision arrives while none is stored and its outcome is, or its first stored outcome finds its decision stored and not joined |
| DecisionJoins.JoinsTwiceExactlyWhenRejoined | src/router/decision-feedback.ts:99-151 | for every history and cap, a request joins more than once if and only if such an event comes when it has joined already |
| DecisionJoins.JoinsAtMostAccepted | src/router/decision-feedback.ts:99-151 | for every history and cap, joins and decisions that may still join are no more than the acceptances |
| DecisionJoins.OutcomesDoNotDecide | src/router/decision-feedback.ts:99-134 | which decisions are accepted and stored does not depend on the outcomes |
| DecisionJoins.JoinsAreBoundedExactlyByAcceptances | src/router/decision-feedback.ts:99-151 | for all decisions, caps and bounds: a request joins no more often than the bound, with all outcomes in all interleavings, if and only if its decision is accepted no more often |
| DecisionJoins.StoredExactlyWhenAmongNewest | src/router/decision-feedback.ts:100-104 | after every history a decision is stored, so that recording it again is ignored, if and only if it is among the newest `maxEntries` acceptances |
| DecisionJoins.SpacedRequestJoinsOnce | src/router/decision-feedback.ts:98-124 | a request joins at most once when fewer than `maxEntries` other requests are recorded between any two of its records |
| DecisionJoins.SpacingBoundIsExact | src/router/decision-feedback.ts:98-124 | a spacing guarantees one join in all histories if and only if it is no wider than the store |
| DecisionJoins.EvictedRequestJoinsTwice | src/router/decision-feedback.ts:100-104 | with room for one entry, a request recorded again after its eviction joins a second time |

## Left out

- The streaming handlers' budget path: tokens are sent before the settle there, so the non-streaming guarantee does not carry over.
- `chatStream` and `chat` with abort signals, timeouts, backoff delays and hooks that throw.
- Pinned requests (`router.ts:483-506`), tier inference, the `failover` and `composite` strategies, and the capability test: selection takes capability, price and metadata as given functions.
- Models without pricing data: costs are finite integers.
- Supabase stores and the SQL behind them; the memory stores are modelled, and store failures are steps of the gateway model.
- BudgetGateway.RunIsSound: takes request ids to be fresh; a second arrival under a known idempotency key is not modelled, because the handler draws a new id for every call.
- OAuthExchange.RunIsSound: takes key ids and authorization codes to be distinct; they are drawn from random bytes, and a draw that repeats one is not a step of the model, though a 64-bit key id could in principle collide.
- The scopes and the budget that a code carries to its key.
- Rate limiting, client authentication, the consent pages and the audit trail; the PKCE check and the project id are function parameters.
- The lexical form of SSE frames and JSON chunks: the codecs are modelled on the structured payloads.
- Objects with `toJSON`, dates, functions and symbols as cache-key values.
- `canonicalRequestText` and the semantic cache.
- Solana transaction building, signing and submission: a settlement is a step that succeeds or fails; sessions are not modelled.
- Voucher signing, and the engine that uses the vouchers.
- The hub's windowed queries and treasury balances, and how a store persists: what it holds when it is read is an arbitrary test on events, so two events equal in every field are stored or not together, and events of equal time are replayed in arrival order.
- The telemetry of other processes that write to the same store.
- Latency percentiles, rates, distinct users and sources, and the caching and compression savings of the overview, which add up like the modelled fields; the final order of breakdown rows.
- Rounding: telemetry and feedback sums are exact here, floating point in the source.
- The decision feedback's latency and token averages, and mutation of a record object that the caller passes in twice.
