# RustFox: a model of its protocol and text engines

RustFox is a desktop API client. This project models the parts of its Rust crates that carry state
machines, concurrent protocols or text formats, and proves what they promise. Each component is a
module (or a few); concurrent components are step machines whose every run is covered, imperative
ones are methods and classes proved against specification functions, and the laws are lemmas about
those functions.

- **OAuth token refresh** (`OAuthRefresh`): the token cache, the per-key refresh locks with
  reference-counted table entries, and any number of callers. Each section under a mutex or between
  two awaits is one step; a log records what a run did to cache and network.
- **Worker pools** (`WorkerPool`, `TestRunner`, `LoadRunner`): workers claim indices, share a value
  in interruptible steps and report over a bounded channel; cancellation may come at any step. The
  collection runner and the load runner are two instances.
- **WebSocket client** (`WsQueue`, `WsBackoff`): the bounded queue with its durable overflow,
  redelivery and purge; the reconnect delays in 64-bit arithmetic, truncation included.
- **Variable resolver** (`Variables`, `VariableLaws`): the index scanner against its recursive
  meaning, with size, depth and counter laws.
- **cURL printer and parser** (`PercentEncoding`, `ShellWords`, `Requests`, `CurlPrinter`,
  `CurlParser`, `CurlRoundTrip`, `HeaderMerge`): what a shell makes of a printed command and what
  the parser makes of its words. `ShellWords` states the splitting rules of the POSIX Shell Command
  Language, section 2.2, with the `#` comments and the trailing-backslash rule of the word splitter
  the parser calls; `ShellSpelling` checks them against every way to write a line.
- **Mock matcher** (`MockMatcher`): the indexed store against the linear resolver.
- **Signing text** (`SigningQuery`, `DigestChallenge`, `DigestRoundTrip`): the canonical query
  string and the quote-aware challenge parser, backslashes included (`DigestBackslash`).
- **Active context** (`ActiveCache`, `ActiveContext`): the double-checked cache fill step by step,
  and ownership, the per-project memory and restarts for calls that do not overlap, edits, creations
  and deletions included.
- **Backup and cookies** (`Backup`, `CookieJar`): identifier remapping, and a nested store that
  refines a flat map.

`Wrappers`, `Text` and `Sorting` hold what the components share. `dafny verify dfyconfig.toml` checks the project.

What is foreign or not deterministic is a parameter: the token endpoint's replies, HTTP responses,
clocks (in `OAuthRefresh` one that never goes back), fresh identifiers, the base64 codec, the JSON
parser's verdict, generated built-in values, the validity of a header value. Random identifiers are modelled as a supply without repetition.

Where a promise is not kept on all inputs, the exact condition is given, with an input or a run that fails:

- a key can be refreshed twice in a row although the first refresh succeeded, exactly when its cache
  entry starts empty and its configuration is not blank (`OAuthRefresh.DeduplicationIsCertainIff`,
  `OAuthRefresh.LateSeedRefreshesTwice`);
- saving the active environment under another project leaves an environment active that is not the
  active project's (`ActiveContext.SavingMovesTheActiveEnvironment`; exactly when:
  `ActiveContext.BelongsStep`, `ActiveContext.EnvironmentBelongsToProject`,
  `ActiveContext.BelongsThroughout`), so that a switch or a restart need not bring the last choice back
  (`ActiveContext.SwitchingRestoresLastChoice`, `ActiveContext.RestartRestores`); a new project under a
  left-over identifier takes over its setting (`ActiveContext.PersistedStep`);
- an overlap of edits with a set or with each other, an unannounced edit, or a restore under a look-up
  leaves an old record cached (`ActiveCache.EditUnderSetLeavesStaleRecord`,
  `ActiveCache.EditUnderEditLeavesStaleRecord`, `ActiveCache.AbandonedEditLeavesStaleRecord`,
  `ActiveCache.RestoreUnderFillLeavesStaleRecord`);
- delays, printed requests, quoted values, challenges, backups and counts: `WsBackoff.ExactIff`,
  `CurlRoundTrip.BareRequestSurvives`, `CurlRoundTrip.HeaderSurvives`,
  `DigestRoundTrip.QuotedValueSurvives`, `DigestRoundTrip.ChallengeRoundTrip`,
  `DigestRoundTrip.FirstDigestDecides`, `DigestBackslash.ChallengeSurvivesIff`,
  `DigestBackslash.SuffixCanMendBackslash`, `Backup.RestoreIsIsomorphism`, `CookieJar.CountingSeesPurges`.

The cookie jar's own comment says a cookie with `Max-Age<=0` is dropped when read; the code ignores
such a `Set-Cookie` altogether, and the model follows the code. The challenge parser's comment has the blank after `digest` tell a
scheme from a word inside a realm; the code then gives up instead of looking further, and so does the
model (`DigestRoundTrip.RealmHidesChallenge`).

## Model

| member | source | states |
|---|---|---|
| OAuthRefresh.OneLiveLockPerKey | crates/fox-oauth/src/client.rs:57-82 | From a process start, over every interleaving of taking a handle, acquiring, refreshing, releasing, counting, removing the entry, dropping the handle and abandonment: any two calls waiting for or inside the refresh section of one key hold the same lock, which is the table's entry, and at most one is inside |
| OAuthRefresh.RunKeepsLockInv | crates/fox-oauth/src/client.rs:165-189 | The invariant behind it, from any state that satisfies it: waiting and holding handles are current, every lock belongs to one key, guards and owners agree; mutual exclusion follows |
| OAuthRefresh.LoneHandle | crates/fox-oauth/src/client.rs:68-82 | The reference-count test is exact: a tabled lock with at most two references has no handle but the caller's |
| OAuthRefresh.LastCallerEvicts | crates/fox-oauth/src/client.rs:68-82 | A caller alone with the table's lock takes it out of the table |
| OAuthRefresh.SharedLockStays | crates/fox-oauth/src/client.rs:68-82 | An entry another caller holds a handle of stays |
| OAuthRefresh.LoneCallerCleansUp | crates/fox-oauth/src/client.rs:68-82 | A lone caller with an answer, left to itself, gives the guard back, takes the lock out of the table and returns that answer, with cache and log as they were |
| OAuthRefresh.CallsNeverStick | crates/fox-oauth/src/client.rs:129-163 | Until a call wants the lock, its next step can always happen |
| OAuthRefresh.RefreshesNeverStick | crates/fox-oauth/src/client.rs:165-189 | A refresh can always go on, with either outcome of its request, except that it waits for the guard while a call past its own wait has it; it can be abandoned at both awaits |
| OAuthRefresh.ClockIsLastReading | crates/fox-core/src/model.rs:382-392 | A look at the cache leaves the clock at its last reading, so no later one reads less |
| OAuthRefresh.OthersLeaveTheClock | crates/fox-core/src/model.rs:382-392 | Nothing else moves the clock |
| OAuthRefresh.SuccessiveRefreshes | crates/fox-oauth/src/client.rs:165-186 | Between two successive token requests of one key lies the end of the first, and it stored nothing, or a token within the refresh margin at the second look, or somebody outside rewrote the entry |
| OAuthRefresh.RefreshesAreDeduplicated | crates/fox-oauth/src/client.rs:129-189 | The same for the log of every run from any starting cache |
| OAuthRefresh.PopulatedRun | crates/fox-oauth/src/client.rs:141-148 | A populated entry that nobody clears or authorizes stays populated, and no seed overwrites it |
| OAuthRefresh.RefreshedOnlyWhenStale | crates/fox-oauth/src/client.rs:129-189 | From a populated entry, with no clear and no authorization, the second of two successive refreshes happens only if the first failed or its token had at most 60 seconds left (or was expired) at the second look |
| OAuthRefresh.AnswersAreEarned | crates/fox-oauth/src/client.rs:129-189 | Every successful answer is a token that was in the cache when its caller looked, not expired and with more than 60 seconds left, or the token its own refresh stored |
| OAuthRefresh.LooksAreRight | crates/fox-oauth/src/client.rs:129-189 | For the log of every run: a token is only served before its expiry and with more than 60 seconds left, and a request is only sent when there is no token or the cached one is expired or has at most 60 seconds left |
| OAuthRefresh.FirstLookDecides | crates/fox-oauth/src/client.rs:134-139 | The first look answers with the cached token exactly when that is not expired and has more than 60 seconds left |
| OAuthRefresh.SeedingDecides | crates/fox-oauth/src/client.rs:141-148 | A seed is stored exactly when there is one and the key has no token |
| OAuthRefresh.SecondLookDecides | crates/fox-oauth/src/client.rs:149-163 | The second look is an error without a token, goes for the lock when the token is expired or has at most 60 seconds left, and answers with it otherwise |
| OAuthRefresh.GuardedLookDecides | crates/fox-oauth/src/client.rs:165-189 | The look under the guard goes to the network if and only if there is a refresh token and the cache holds no token, or one that is expired or has at most 60 seconds left; it answers with a good one |
| OAuthRefresh.ErrorsAreExplained | crates/fox-oauth/src/client.rs:85-189 | From a process start, over every run: a finished caller got an error if and only if some step refused it with that error: its configuration is blank, there was no token for the key, there was no usable token and no refresh token under the guard, its own request failed, or its caller gave up |
| OAuthRefresh.LateSeedRefreshesTwice | crates/fox-oauth/src/client.rs:141-148 | Whenever the entry is unpopulated and the key not blank, for every other entry of the cache and every clock: an undisturbed run in which a late seed overwrites a fresh token and the key is refreshed again, although the first refresh succeeded and its token is good at the second look |
| OAuthRefresh.DeduplicationIsCertainIff | crates/fox-oauth/src/client.rs:129-189 | Every run without a clear or an authorization of a key deduplicates its refreshes if and only if the key is populated at the start or its client id or token URL is blank |
| OAuthRefresh.BlankKeysNeverRefresh | crates/fox-oauth/src/client.rs:85-103 | A blank client id or token URL is turned away in every run: no request is ever sent for it |
| OAuthRefresh.RefreshService.CachedToken | crates/fox-oauth/src/cache.rs:21-27 | Reads what the writes so far, replayed, leave under the key |
| OAuthRefresh.RefreshService.StoreToken | crates/fox-oauth/src/cache.rs:29-33 | Makes exactly the protocol's store step and keeps the invariant |
| OAuthRefresh.RefreshService.ClearToken | crates/fox-oauth/src/cache.rs:36-40 | Makes exactly the protocol's clear step and keeps the invariant |
| OAuthRefresh.RefreshService.RefreshLock | crates/fox-oauth/src/client.rs:57-65 | Hands out the table's lock for the key, creating it only when absent |
| OAuthRefresh.RefreshService.RecheckUnderGuard | crates/fox-oauth/src/client.rs:170-183 | Asks for the network exactly when a refresh token is there and the cached token is missing, expired, or has at most 60 seconds left |
| OAuthRefresh.RefreshService.EvictionWanted | crates/fox-oauth/src/client.rs:69-72 | The unlocked count test, as one protocol step |
| OAuthRefresh.RefreshService.EvictRefreshLock | crates/fox-oauth/src/client.rs:73-82 | Removes an entry only when its caller is the last holder of that lock |
| WorkerPool.RunKeepsInv | crates/fox-test/src/runner.rs:217-260 | Every schedule and cancellation point keeps: claims are a prefix, each claimed index is with its claimer, in the channel or recorded, messages and slots are sound |
| WorkerPool.GapFreeResults | crates/fox-test/src/runner.rs:217-260 | The results of any finished run are those of a gap-free prefix of the input in input order, the whole input unless cancelled |
| WorkerPool.ClaimsAreForGood | crates/fox-test/src/runner.rs:231-247 | Later steps only append claims: an index has one claimer for ever |
| WorkerPool.CounterCountsFetches | crates/fox-test/src/runner.rs:236-239 | The counter grows by one with each fetch, past the end of the input too, and with nothing else |
| WorkerPool.NoDeadlock | crates/fox-test/src/runner.rs:224-259 | Until the pool is finished a worker or the aggregator can go on, although the channel is bounded |
| WorkerPool.ReportWaitsForRoom | crates/fox-test/src/runner.rs:224-247 | A worker with a result waits exactly while two messages a worker are in the channel |
| WorkerPool.ChannelIsBounded | crates/fox-test/src/runner.rs:224-247 | No run has more messages than that in the channel |
| WorkerPool.CancelledMeans | crates/fox-test/src/runner.rs:231-271 | A cancellation can come at any time, and a run ends cancelled if and only if it had one |
| WorkerPool.UncancelledRunsAreWhole | crates/fox-test/src/runner.rs:217-260 | Without a cancellation a finished run has a result for every item |
| WorkerPool.CancellationStopsClaims | crates/fox-test/src/runner.rs:231-241 | After a cancellation only workers that had passed the test still claim, one item each |
| WorkerPool.RunsAreBounded | crates/fox-test/src/runner.rs:217-260 | Cancellations apart, no schedule has more steps than a measure of what is left to do, which every step of a worker or the aggregator lowers |
| WorkerPool.FinishingRun | crates/fox-test/src/runner.rs:217-260 | From every state the invariant allows, the pool can be run to its end without a cancellation |
| WorkerPool.OneSlotPerMessage | crates/fox-test/src/runner.rs:251-259 | Each received message fills a slot of its own |
| WorkerPool.OneWorkerIsSequential | crates/fox-test/src/runner.rs:217-260 | With one worker, results and shared value are those of a left fold over the completed prefix, for any schedule of channel and cancellation |
| TestRunner.ResultsAreInInputOrder | crates/fox-test/src/runner.rs:204-260 | For any response function, schedule and cancellation, the results belong to exactly a prefix of the items in order: each has its item's name and what its configuration and its own response earn: a skip that counts as passed; the error, no status and a failure; or the status, no error, one outcome per assertion (against some content of the shared table) and a pass if and only if all outcomes are passes |
| TestRunner.CollectionRunEnds | crates/fox-test/src/runner.rs:204-260 | Every schedule of a collection run is over after at most nine steps an item and two a worker |
| TestRunner.ConcurrencyOneIsSequential | crates/fox-test/src/runner.rs:81-260 | With concurrency 1, results and the shared variable table equal the left fold of the item program (inject, send, judge, extract) |
| TestRunner.StepsAddUp | crates/fox-test/src/runner.rs:81-172 | The interruptible steps of an item, left alone, amount to the item program |
| TestRunner.Concurrency | crates/fox-test/src/runner.rs:217 | The worker count lies between 1 and 64, never above the item count; it is the requested one when that is possible, and 5 when none is requested and there are as many items |
| TestRunner.Runner.RunEndpoint | crates/fox-test/src/runner.rs:61-172 | On a table of its own, the item's loops and writes give exactly the item program, and the result is what the item's configuration and response earn, in the same words |
| TestRunner.TableAfterItem | crates/fox-test/src/runner.rs:104-160 | After an item each variable holds what the response gave it, else what was injected, else what it held |
| TestRunner.InjectedIsLast | crates/fox-test/src/runner.rs:115-119 | Of several variables injected under one name the last counts, resolved against the one snapshot |
| TestRunner.ExpectedIsResolved | crates/fox-test/src/runner.rs:136-148 | An expected text is resolved exactly when it holds two opening braces; nothing else of the assertion changes |
| TestRunner.ExtractedIsLast | crates/fox-test/src/extract.rs:27-47 | Of several extractions under one name the last that found something counts |
| TestRunner.ExtractionIsFromItsSource | crates/fox-test/src/extract.rs:33-41 | A header extraction gives the first header of that name in any case, and nothing when there is none; any other source reads the body |
| TestRunner.Inject | crates/fox-test/src/runner.rs:115-119 | The injected variables, each resolved against the one snapshot |
| TestRunner.Judge | crates/fox-test/src/runner.rs:136-148 | One outcome per assertion in order, resolved against the snapshot taken after the response |
| TestRunner.ExtractVariables | crates/fox-test/src/extract.rs:27-47 | The extracted variables; a missing value sets nothing and a later name wins |
| TestRunner.Aggregate | crates/fox-test/src/runner.rs:251-260 | Slots filled in arrival order are read out in input order |
| TestRunner.AggregateServesThePool | crates/fox-test/src/runner.rs:224-260 | Fed the messages of any run, the aggregator returns that run's results |
| LoadRunner.OneSamplePerRequest | crates/fox-test/src/load.rs:108-166 | Under any schedule each claimed request contributes one sample, its own; the totals are the configured number unless cancelled |
| LoadRunner.LoadRunEnds | crates/fox-test/src/load.rs:108-166 | Every schedule of a load run is over after at most five steps a request and two a worker |
| LoadRunner.Workers | crates/fox-test/src/load.rs:116 | Between 1 and 500 workers |
| LoadRunner.Aggregate | crates/fox-test/src/load.rs:168-195 | Counts add up to the samples, durations are kept in order, the first five error texts are kept |
| LoadRunner.PercentileIsARank | crates/fox-test/src/load.rs:64-70 | The reported percentile is a sample with at least its share of samples at or below it and at most its share strictly below it, and grows with the percentage |
| WsQueue.RecordRoundTrip | crates/fox-http/src/ws_client.rs:133-164 | What is written to the store decodes to the message, for every faithful byte encoding |
| WsQueue.RunKeepsInv | crates/fox-http/src/ws_client.rs:292-591 | The invariant of memory queue, store, acceptance and content over every run |
| WsQueue.EveryMessageIsAccountedFor | crates/fox-http/src/ws_client.rs:292-591 | While the client runs, every accepted message is queued, stored with its content, in flight, delivered with its content, purged, or lost by a failed send |
| WsQueue.RowsLeaveForAReason | crates/fox-http/src/ws_client.rs:504-591 | A row disappears only after its own successful send or by the 24-hour purge |
| WsQueue.RowsAreDeliveredOnce | crates/fox-http/src/ws_client.rs:566-591 | In every run a stored row is delivered at most once more than its deletion failed |
| WsQueue.RedeliveryNeedsFailedDeletion | crates/fox-http/src/ws_client.rs:583-590 | Between two deliveries of one stored id lies a failed deletion of it |
| WsQueue.RedeliveredRowIsDeleted | crates/fox-http/src/ws_client.rs:583-590 | After a successful redelivery nothing else goes on before the row's deletion has been tried, and a successful deletion removes it |
| WsQueue.GoneStays | crates/fox-http/src/ws_client.rs:504-591 | An accepted row that has left store, queue and hand never comes back |
| WsQueue.PurgeKeepsTheLastDay | crates/fox-http/src/ws_client.rs:504-509 | A successful purge leaves exactly the rows of the last 86 400 000 milliseconds |
| WsQueue.FailedStoringIsFinal | crates/fox-http/src/ws_client.rs:292-312 | A message whose storing failed is not accepted and never arrives from the store |
| WsQueue.SessionNeverStuck | crates/fox-http/src/ws_client.rs:407-591 | In every phase what the session waits for can happen, with either outcome; sending is possible until the client is stopped |
| WsQueue.SessionSteps | crates/fox-http/src/ws_client.rs:407-591 | What connecting, purging, listing, deleting, ending, failing and stopping change, and what they leave |
| WsQueue.QueueIsBounded | crates/fox-http/src/ws_client.rs:292-306 | The memory queue never exceeds 1024 |
| WsQueue.OneLossPerSession | crates/fox-http/src/ws_client.rs:566-591 | Between two connections at most one memory message is lost |
| WsQueue.MemoryMessagesKeepOrder | crates/fox-http/src/ws_client.rs:524-591 | Memory messages are delivered in acceptance order, each at most once |
| WsQueue.SessionsRedeliverTheStore | crates/fox-http/src/ws_client.rs:504-522 | A session that can read the store queues every accepted row, with its content, before the memory queue |
| WsQueue.DecodeRows | crates/fox-http/src/ws_client.rs:510-516 | Rows in order, undecodable ones dropped |
| WsQueue.Client.SendMessage | crates/fox-http/src/ws_client.rs:292-312 | Queued exactly when fewer than 1024 messages wait, off to the store when full and there is one, rejected otherwise; the invariant is kept |
| WsQueue.Client.LoadPersisted | crates/fox-http/src/ws_client.rs:504-522 | Fills the redelivery queue and keeps the invariant |
| WsQueue.Client.NextOutgoing | crates/fox-http/src/ws_client.rs:524-533 | Redelivery first, then the memory queue; the invariant is kept |
| WsBackoff.DelayIsExact | crates/fox-http/src/ws_client.rs:368-375 | For all options, the delay after f failures is min(base * 2^f, max) over unbounded integers, with base and max cut to 64 bits (which changes nothing below 2^64 ms), in spite of checked power, saturating product and saturating counter |
| WsBackoff.ExactIff | crates/fox-http/src/ws_client.rs:368-375 | The delays are exact for every f if and only if the base is zero, or the maximum fits in 64 bits and the base, cut to 64 bits, is the base or at least the maximum |
| WsBackoff.WsLoop | crates/fox-http/src/ws_client.rs:407-465 | For all options, every wait of a reconnecting run is that exact delay for the failed attempts before it |
| WsBackoff.WaitsAreMonotone | crates/fox-http/src/ws_client.rs:407-465 | Waits never decrease and never exceed the maximum |
| Variables.FirstTokenIsFirst | crates/fox-core/src/variable.rs:180-195 | The token the scan finds is the leftmost opening with its nearest closing, and none is found exactly when there is none |
| Variables.ResolvedUnfolds | crates/fox-core/src/variable.rs:167-211 | Resolution is "literal, first closed token, rest", with the state threaded through |
| Variables.Engine.SeqValue | crates/fox-core/src/variable.rs:70-77 | Outputs the decimal text, without leading zero, that reads as the stored value, or as 1 if that is absent or zero, and leaves the successor modulo 2^64 |
| Variables.DecimalReads | crates/fox-core/src/variable.rs:76 | The decimal text of a number reads, digit by digit from the left, as that number and has no leading zero |
| Variables.Engine.LookUp | crates/fox-core/src/variable.rs:214-225 | User variables before built-ins; a counter is advanced only when it is read |
| Variables.Engine.ResolveVariablesWith | crates/fox-core/src/variable.rs:151-160 | The scanner returns the recursive meaning of the text, for every text, table and depth, and leaves the counters where that meaning does |
| Variables.Engine.ResolveInto | crates/fox-core/src/variable.rs:167-211 | The in-place scanner appends exactly that meaning to what was written before; it terminates by (depth, remaining input) |
| Variables.Engine.NextToken | crates/fox-core/src/variable.rs:180-194 | The nested index loops find the first closed token, or show there is none |
| VariableLaws.ResolutionIsBounded | crates/fox-core/src/variable.rs:151-211 | The output is at most &#124;s&#124; * max(1, M)^depth long, M bounding the values |
| VariableLaws.OutputIsBounded | crates/fox-core/src/variable.rs:167-211 | The same bound for any finder of bounded values |
| VariableLaws.RankIsLongestChain | crates/fox-core/src/variable.rs:167-211 | A text has rank r at most exactly when no chain of references from it is longer than r |
| VariableLaws.AcyclicHasRank | crates/fox-core/src/variable.rs:167-211 | Acyclic references have a rank of at most the table's size |
| VariableLaws.DepthSettles | crates/fox-core/src/variable.rs:167-211 | From the rank on, every depth limit gives the same text |
| VariableLaws.UnresolvableStays | crates/fox-core/src/variable.rs:142-211 | A text without a resolvable token is returned unchanged at any depth |
| VariableLaws.DefaultDepthSuffices | crates/fox-core/src/variable.rs:142-144 | The default limit resolves fully every text whose reference chains are at most ten long |
| VariableLaws.DefaultLimitIsTen | crates/fox-core/src/variable.rs:142-144 | A variable that refers to itself is expanded exactly ten times by default |
| VariableLaws.VariableTokenResolves | crates/fox-core/src/variable.rs:196-217 | A token of a user variable resolves to the meaning of its value one level down, even where a built-in has its name |
| VariableLaws.SeqTokenCounts | crates/fox-core/src/variable.rs:52-77 | `{{$seq}}`, with anything but a colon behind it, and `{{$seq:key}}` output the decimal text of their counter, or 1, and leave its successor |
| VariableLaws.GeneratedTokenDraws | crates/fox-core/src/variable.rs:44-66 | Each generated built-in gives the next draw, when built-ins are allowed and no user variable has its name |
| VariableLaws.UnknownTokenStays | crates/fox-core/src/variable.rs:196-225 | A token neither the table nor an allowed built-in knows stays as it is written |
| VariableLaws.CountersAreThreaded | crates/fox-core/src/variable.rs:70-211 | Any resolution outputs n, n+1, ..., n+k-1 of each counter from left to right, each as the decimal text that reads as it, leaves the counter at n+k and touches no other |
| PercentEncoding.EncodeComponent | crates/fox-codegen/src/util.rs:17-30 | The byte loop computes the percent-encoding |
| PercentEncoding.DecodeInvertsEncode | crates/fox-codegen/src/util.rs:17-30 | Decoding by RFC 3986 section 2.1 gives the bytes back: nothing is lost |
| PercentEncoding.OutputAlphabet | crates/fox-codegen/src/util.rs:17-30 | Only unreserved characters (RFC 3986 section 2.3) and the percent sign come out |
| PercentEncoding.FormTextIsInjective | crates/fox-codegen/src/lib.rs:356-369 | No two lists of pairs have the same form text |
| PercentEncoding.FormTextIsBuiltFromPairs | crates/fox-codegen/src/lib.rs:356-369 | A pair is its encoded name, `=` and its encoded value, and pairs are joined by `&` |
| ShellWords.QuotedIsOneWord | crates/fox-codegen/src/util.rs:33-35 | A quoted text is read back by the POSIX quoting rules (Shell Command Language section 2.2) as exactly that one word, whatever it contains |
| ShellSpelling.LineIsRead | crates/fox-core/src/curl_parser.rs:50-51 | Every line written from words (bare characters, escapes, single and double quotes, continuations) with any blanks, comments and continuations between them is split into exactly the meant words |
| ShellSpelling.OpenQuoteIsRefused | crates/fox-core/src/curl_parser.rs:50-51 | A line whose last quote, single or double, is not closed is refused |
| ShellSpelling.LastBackslashIsKept | crates/fox-core/src/curl_parser.rs:50-51 | A backslash at the end of the line stands for itself |
| CurlPrinter.RenderCurl | crates/fox-codegen/src/lib.rs:446-491 | The printer's loops write the command line of the intended option list |
| CurlPrinter.RenderedWordsSurvive | crates/fox-codegen/src/lib.rs:446-491 | For every method, URL, header list and body the printed command is split into exactly its intended words |
| CurlParser.ParseCurl | crates/fox-core/src/curl_parser.rs:49-195 | The index walk computes the meaning of the word list, errors included |
| CurlParser.TakeTurn | crates/fox-core/src/curl_parser.rs:65-170 | One turn of the walk: which words it consumes and what it gathers |
| CurlParser.UnknownOptionsAreSkipped | crates/fox-core/src/curl_parser.rs:147-160 | An unknown option is noted once, and the next word is skipped exactly when the option takes one: a listed long option, or a short one with a value letter behind the dash |
| CurlRoundTrip.PrintedCommandParses | crates/fox-core/src/curl_parser.rs:49-195 | Parsing a printed command, for every method, header list and body and every URL that is not an option: the exact result |
| CurlRoundTrip.RoundTrip | crates/fox-core/src/curl_parser.rs:49-195 | With faithful header names the same method, URL, headers (values trimmed, default content type appended), and body text come back; nothing is ignored but multipart fields |
| CurlRoundTrip.EverydayRoundTrip | crates/fox-codegen/src/lib.rs:351-491 | The exact parse of a printed JSON, text or form request: body text, `application/json` or `application/x-www-form-urlencoded` added when no content type is given, nothing ignored |
| CurlRoundTrip.HeaderSurvives | crates/fox-core/src/curl_parser.rs:291-300 | A header comes back under its name with its value trimmed if and only if the name is trimmed, non-empty and colon-free |
| CurlRoundTrip.BareRequestSurvives | crates/fox-core/src/curl_parser.rs:64-176 | A request without headers and body comes back if and only if its URL is not empty and does not begin with `-`, or is `-` |
| CurlRoundTrip.BodyKinds | crates/fox-core/src/curl_parser.rs:307-324 | A body comes back as JSON exactly when its trimmed text looks like JSON, is at most 64 KiB and is valid; forms and file references always come back as text |
| CurlRoundTrip.SpellingsAgree | crates/fox-core/src/curl_parser.rs:84-145 | `--name value` and `--name=value` have the same effect for every value option and value |
| CurlRoundTrip.DataPartsAreJoined | crates/fox-core/src/curl_parser.rs:131-194 | Without an explicit method, data parts make a POST with the parts joined by `&`, and no data a GET without body |
| CurlRoundTrip.CredentialsAreRead | crates/fox-core/src/curl_parser.rs:118-190 | `-u user:password` is Basic authentication, and Digest with `--digest`, wherever the switch stands |
| Requests.MethodRoundTrip | crates/fox-core/src/model.rs:62-99 | Every method is read back from its own name |
| Requests.MethodsIgnoreCase | crates/fox-core/src/model.rs:83-99 | An ASCII text is read as a method if and only if it is that method's name in any case |
| Requests.ForeignLetters | crates/fox-core/src/model.rs:83-99 | The letters whose upper case is ASCII (U+017F, U+0131) or an ASCII pair (U+FB05, U+FB06) are read as those |
| HeaderMerge.MergeHeaders | crates/fox-codegen/src/lib.rs:409-430 | The merge loop computes the merged list |
| HeaderMerge.LastWriterWins | crates/fox-codegen/src/lib.rs:409-430 | Each name, ignoring case, ends with the last enabled header of that name, else the authentication's |
| HeaderMerge.LastHeaderWins | crates/fox-codegen/src/lib.rs:409-430 | The same by positions: the last enabled header of a name gives its value, and without one the authentication does |
| HeaderMerge.NothingElseIsMerged | crates/fox-codegen/src/lib.rs:409-430 | The names of the merged list are exactly those of the enabled headers and of the authentication |
| HeaderMerge.NamesStayDistinct | crates/fox-codegen/src/lib.rs:409-430 | No name comes out twice, and the authentication's names keep their place and spelling |
| MockMatcher.MatchCompiled | crates/fox-mock/src/server.rs:240-258 | The loop over compiled segments: literals must agree, parameters capture |
| MockMatcher.MatchPath | crates/fox-mock/src/server.rs:269-284 | The loop over template pieces agrees with the compiled matcher |
| MockMatcher.CapturesLastOccurrence | crates/fox-mock/src/server.rs:240-258 | A captured value is the path segment at the last parameter of that name |
| MockMatcher.ParseQuery | crates/fox-mock/src/server.rs:229-238 | The loop builds the query map |
| MockMatcher.FirstPairIsFound | crates/fox-mock/src/server.rs:229-238 | Of several pairs with one key the first is what the map holds |
| MockMatcher.HeaderNamesIgnoreCase | crates/fox-mock/src/server.rs:292-300 | Header conditions find their header without regard to ASCII case |
| MockMatcher.BestIsFirstMaximal | crates/fox-mock/src/server.rs:303-341 | The choice is the first definition among those maximal in (source, priority), and only that one; none exactly when none matches |
| MockMatcher.SourcesComeInOrder | crates/fox-mock/src/server.rs:336-341 | If a rule matches a rule is chosen; if an example matches no default is; among definitions of the chosen source the highest priority wins, and of equal priorities the earliest |
| MockMatcher.AcceptsMeans | crates/fox-mock/src/server.rs:303-333 | A definition matches if and only if its method is the request's up to case, its path pieces agree, and each of its query and header conditions does |
| MockMatcher.CapturesAreSegments | crates/fox-mock/src/server.rs:269-284 | Under a name the request's piece at the last braced piece of that name is captured |
| MockMatcher.SeparatorsSeparate | crates/fox-mock/src/server.rs:269-271 | Paths are cut at every slash, and empty pieces are dropped |
| MockMatcher.Resolve | crates/fox-mock/src/server.rs:303-333 | The linear scan returns that choice with its captures |
| MockMatcher.MockStore.SetDefinitions | crates/fox-mock/src/server.rs:169-185 | Afterwards the store holds the definitions compiled in order, and the index exactly the ascending positions per (upper-cased method, segment count) |
| MockMatcher.MockStore.MatchRequest | crates/fox-mock/src/server.rs:189-225 | The indexed match returns the same definition and captures as the linear scan, with the parsed query |
| Text.UpperAgreesWithIgnoreCase | crates/fox-mock/src/server.rs:176-180 | Upper-cased methods are equal exactly when the methods are equal without regard to ASCII case |
| Text.WhitespaceIsListed | crates/fox-core/src/curl_parser.rs:291-300 | White space is what Unicode lists as such, code point by code point |
| Text.TrimMeans | crates/fox-core/src/curl_parser.rs:291-300 | Trimming drops white space at both ends and leaves none there |
| Text.CaseOfLetters | crates/fox-mock/src/server.rs:174-182 | ASCII letters change case by their place in the alphabet, and nothing else changes |
| Text.CaseOfTexts | crates/fox-mock/src/server.rs:303-315 | Texts change case character by character, and agree up to case exactly when their lower-case texts are equal |
| Text.JoinMeans | crates/fox-http/src/cookie.rs:81-84 | Joining writes the separator between neighbours |
| Text.SplitMeans | crates/fox-mock/src/server.rs:269-271 | The pieces of a split hold no separator and join to the text |
| Text.AffixesMean | crates/fox-http/src/cookie.rs:144-149 | A prefix or suffix is found exactly where a text begins or ends with it |
| Text.Utf8LengthMeans | crates/fox-core/src/curl_parser.rs:307-324 | Byte lengths add up, over characters of one to four bytes |
| SigningQuery.CanonicalQueryIsComplete | crates/fox-sign/src/lib.rs:262-271 | Two lists of decoded pairs give the same canonical query string if and only if they are permutations of each other |
| SigningQuery.CanonicalQueryIsSorted | crates/fox-sign/src/lib.rs:262-271 | It lists the request's pairs, each as often as the request has it, in ascending byte order of name and value |
| DigestChallenge.SplitChallengeParams | crates/fox-sign/src/lib.rs:331-357 | The cursor loop cuts at commas outside quotes |
| DigestChallenge.FindEnd | crates/fox-sign/src/lib.rs:381-414 | The look-ahead loop finds where the Digest segment ends |
| DigestChallenge.ParseWwwAuthenticate | crates/fox-sign/src/lib.rs:369-447 | The parser's loops together |
| DigestRoundTrip.QuotedValueSurvives | crates/fox-sign/src/lib.rs:359-366 | A value quoted as RFC 9110 section 5.6.4 says is read back if and only if it holds no backslash |
| DigestRoundTrip.ChallengeRoundTrip | crates/fox-sign/src/lib.rs:331-447 | Printing (RFC 7616 section 3.3) and parsing gives a backslash-free challenge back, whatever quotes, commas and blanks its values hold, after text without the scheme word and before another scheme; a challenge none of whose quoted values ends in a backslash comes back if and only if it is backslash-free |
| DigestRoundTrip.ChallengeIsRead | crates/fox-sign/src/lib.rs:331-447 | What comes back when no quoted value ends in a backslash: the challenge with the backslashes of realm, nonce and opaque doubled |
| DigestBackslash.ChallengeSurvivesIff | crates/fox-sign/src/lib.rs:331-447 | With nothing behind it, a printed challenge comes back if and only if none of its quoted values (realm, nonce, opaque, the list of quality values) holds a backslash, at their end or elsewhere |
| DigestBackslash.ParamIsRead | crates/fox-sign/src/lib.rs:331-414 | Wherever the scan stops, a quoted parameter is read whole, and every part behind it is read under another name or makes the header unreadable |
| DigestBackslash.SuffixCanMendBackslash | crates/fox-sign/src/lib.rs:331-447 | With another scheme behind it the "only if" fails: a realm that ends in a backslash comes back because the scan takes that scheme for part of the challenge and its own `realm` overwrites the doubled one |
| DigestRoundTrip.FirstDigestDecides | crates/fox-sign/src/lib.rs:369-379 | If the first `digest` of the header, in any case, is not followed by a blank, nothing is read, whatever comes after it |
| DigestRoundTrip.RealmHidesChallenge | crates/fox-sign/src/lib.rs:369-379 | So after `Basic realm="digest", ` no challenge is ever read |
| ActiveCache.RunStaysCoherent | crates/fox-tauri/src/state.rs:113-266 | In every interleaving of lock-granular steps a cached project or environment carries the id recorded beside it |
| ActiveCache.WrittenRecordStays | crates/fox-tauri/src/state.rs:113-212 | A record written by a set or a refresh stays until the next such write or restore, whatever fills happen |
| ActiveCache.LookUpFillsTheCache | crates/fox-tauri/src/state.rs:113-163 | A look-up that nothing overlaps answers from the cache or an empty context without a change, fills the cache with the stored record otherwise, and leaves everything as it was when there is none |
| ActiveCache.SetProjectWrites | crates/fox-tauri/src/state.rs:189-211 | A switch that nothing overlaps writes the project and the environment remembered for it, each with its stored record; without a project, no environment |
| ActiveCache.MissingProjectIsRefused | crates/fox-tauri/src/state.rs:189-211 | A switch to a missing project changes nothing |
| ActiveCache.SetEnvironmentWrites | crates/fox-tauri/src/state.rs:218-245 | The same for an environment, found or missing |
| ActiveCache.RestoreWrites | crates/fox-tauri/src/state.rs:249-266 | A restart writes both ids and forgets both records |
| ActiveCache.EditIsAnnounced | crates/fox-tauri/src/state.rs:167-180 | An edit that nothing overlaps is stored, and replaces the cached record exactly when its id is the recorded one |
| ActiveCache.RowsAndCallsCanGo | crates/fox-tauri/src/state.rs:113-266 | A row can be deleted and a call dropped at any time, and nothing else changes |
| ActiveCache.CacheFollowsEdits | crates/fox-tauri/src/state.rs:113-212 | When edits do not overlap a set or another edit of the same record, every saved edit is announced (no call is abandoned between saving and announcing), and nothing is deleted or restored meanwhile, a cached record without an unannounced edit is the stored one |
| ActiveCache.EditUnderSetLeavesStaleRecord | crates/fox-tauri/src/state.rs:189-245 | Why edits must not overlap a set: from every state in which a call holds a project or environment it has read and not yet written, and whichever environment the settings remember, one edit of that record can be followed by a run that keeps the discipline and ends with no call under way and the old record cached beside the new one stored |
| ActiveCache.EditUnderEditLeavesStaleRecord | crates/fox-tauri/src/state.rs:167-180 | Why edits of one record must not overlap: from every state with an unannounced edit, a second edit of that record can be followed by such a run that announces them in the opposite order and ends with the first one cached |
| ActiveCache.AbandonedEditLeavesStaleRecord | crates/fox-tauri/src/state.rs:167-180 | Why an edit must be announced: from every coherent state with one unannounced edit of the cached record, abandoning its call can be followed by such a run that ends with the old record cached |
| ActiveCache.RestoreUnderFillLeavesStaleRecord | crates/fox-tauri/src/state.rs:113-136 | Why nothing is restored meanwhile: from every state with a looked-up record not yet filled in, an edit of it, a run that keeps the discipline, a restore of that id and another such run end with the old record cached |
| ActiveContext.EnvironmentBelongsToProject | crates/fox-tauri/src/state.rs:167-245 | After any operations, saves, creations and deletions included, the active environment exists and belongs to the active project if and only if it has not been saved under another project since it was last chosen, saved back or dropped |
| ActiveContext.BelongsStep | crates/fox-tauri/src/state.rs:167-266 | The same for one operation, from any state: it settles the matter (chooses, drops, or saves the environment under the active project), or leaves it as it was unless it saves the active environment under another project |
| ActiveContext.BelongsThroughout | crates/fox-tauri/src/state.rs:167-266 | It belongs at every moment of a run if and only if no operation of the run saves the active environment under another project |
| ActiveContext.SavingMovesTheActiveEnvironment | crates/fox-tauri/src/commands/environment.rs:37-51 | The failing input: environment 5 of project 1 is active and is saved with project 2's id; project 1 stays active with it |
| ActiveContext.CachedIdsAgree | crates/fox-tauri/src/state.rs:113-266 | After any operations what is cached carries the recorded ids, and no environment is active without a project |
| ActiveContext.GuardsDecide | crates/fox-tauri/src/state.rs:167-245 | The conditions a caller can test beforehand (the project exists, a project is active and the environment is its own, the name is not blank) are exactly those under which the operations succeed; a refused one changes nothing but a cache fill |
| ActiveContext.SwitchingRestoresLastChoice | crates/fox-tauri/src/state.rs:189-211 | Switching to a project, after anything, brings back its last choice if and only if that environment still exists with that project's id, and otherwise no environment |
| ActiveContext.MemoryIsLastChoice | crates/fox-tauri/src/state.rs:218-245 | After any operations the setting of every project is the last environment chosen while it was active; deleting the active environment or the active project chooses none |
| ActiveContext.RestartRestores | crates/fox-tauri/src/state.rs:249-266 | A restart restores the active project; it restores the active environment if and only if that belongs to the project, and "none" if and only if the setting names no environment of the project |
| ActiveContext.PersistedStep | crates/fox-tauri/src/state.rs:189-266 | An operation keeps the settings naming the active project if and only if it does not create a project under the identifier a left-over setting names |
| ActiveContext.AppState.ActiveProject | crates/fox-tauri/src/state.rs:113-136 | Cache, then context, then look-up and fill |
| ActiveContext.AppState.ActiveEnvironment | crates/fox-tauri/src/state.rs:142-163 | The same for the environment |
| ActiveContext.AppState.LoadProjectEnvironmentId | crates/fox-tauri/src/state.rs:54-60 | The remembered environment, dropped when gone or foreign |
| ActiveContext.AppState.SetActiveProject | crates/fox-tauri/src/state.rs:189-211 | The whole new state, and the error when the project is missing |
| ActiveContext.AppState.SetActiveEnvironment | crates/fox-tauri/src/state.rs:218-245 | The whole new state; missing project, missing environment and foreign environment are errors |
| ActiveContext.AppState.RestoreActive | crates/fox-tauri/src/state.rs:249-266 | The whole new state after a restart: nothing is cached, the active project exists, and the environment belongs to it |
| ActiveContext.AppState.SaveProject | crates/fox-tauri/src/commands/project.rs:60-68 | The whole new state; the cached project is the edited one when that is active, and untouched otherwise |
| ActiveContext.AppState.SaveEnvironment | crates/fox-tauri/src/commands/environment.rs:37-51 | The same for the environment |
| ActiveContext.AppState.DeleteProject | crates/fox-tauri/src/commands/project.rs:72-90 | The whole new state; the project is gone and not active, and deleting an inactive one changes neither context nor settings |
| ActiveContext.AppState.DeleteEnvironment | crates/fox-tauri/src/commands/environment.rs:74-101 | The same for an environment |
| Backup.RestoreBackup | crates/fox-backup/src/lib.rs:220-308 | The loops over the growing identifier map compute the restored project |
| Backup.RestoreFolders | crates/fox-backup/src/lib.rs:225-235 | The folder loop: each folder sees the project, the folders before it and itself |
| Backup.RestoreEndpoints | crates/fox-backup/src/lib.rs:237-247 | The endpoint loop: each endpoint sees the folders, the endpoints before it and itself |
| Backup.RestoreIsIsomorphism | crates/fox-backup/src/lib.rs:220-308 | With distinct identifiers the result is the old project under an injective renaming of exactly its identifiers, all other fields of every entity unchanged and everything placed in the new project, if and only if every reference is to something listed before its holder or to the holder |
| Backup.EveryIdIsNew | crates/fox-backup/src/lib.rs:220-308 | For every input at all, each identifier in the result is a fresh one or nil |
| Backup.SupplyExists | crates/fox-backup/src/lib.rs:223-252 | What is assumed of the drawn identifiers can be met, so the laws above are not empty |
| CookieJar.StoreIsMapUpdate | crates/fox-http/src/cookie.rs:44-60 | The slot update is an update of the flat map keyed by (domain, name, path) |
| CookieJar.ManagedJar.Store | crates/fox-http/src/cookie.rs:44-60 | A map update, or nothing when the header could not be read |
| CookieJar.ManagedJar.HeaderFor | crates/fox-http/src/cookie.rs:63-85 | The header lists each live, domain-matching, non-empty cookie exactly once; the jar drops exactly the expired cookies of matching domains |
| CookieJar.SendsMeans | crates/fox-http/src/cookie.rs:63-85 | A cookie is sent if and only if it has a value, is not expired, and the host is its domain, a leading dot left out, or ends in a dot and that domain; it is dropped if and only if it is expired and of such a domain |
| CookieJar.ManagedJar.List | crates/fox-http/src/cookie.rs:88-105 | Each live cookie of the covered domains exactly once, sorted by domain and name |
| CookieJar.ListableMeans | crates/fox-http/src/cookie.rs:88-105 | A cookie is listed if and only if it is not expired and its domain contains the filter, if there is one |
| CookieJar.ManagedJar.Clear | crates/fox-http/src/cookie.rs:108-132 | Removes exactly the domain's and its subdomains' cookies and returns their number |
| CookieJar.ManagedJar.Len | crates/fox-http/src/cookie.rs:134-139 | The number of cookies in the flat map |
| CookieJar.RunsAgree | crates/fox-http/src/cookie.rs:63-105 | When the clock never goes back, a jar that purges and one that does not have the same live cookies after any operations |
| CookieJar.PurgingIsUnobservable | crates/fox-http/src/cookie.rs:63-105 | So every later header and list is the same |
| CookieJar.CountingSeesPurges | crates/fox-http/src/cookie.rs:134-139 | The count does observe purging: an expired cookie counts until it is purged |

## Left out

- A wall clock that goes back: `OAuthRefresh.Enabled` lets a clock reading only stay or grow, while the code reads the wall clock at each test.
- Liveness of the lock table: two callers can both count more than two references and skip eviction, so only safety is claimed.
- Poisoned mutexes: a lock whose holder panicked is treated like any other.
- Failing storage: queries that cannot be answered end a call, but a settings write that fails after the context changed is not modelled.
- The rest of the authorization flow (callback listener, code exchange, token payload parsing): an authorization is one step that writes the cache.
- The write-back of the shared variable table after a collection run: it depends on being the last owner of the table, so the claims are about the shared table itself.
- Dropping the aggregator in the middle of a run, progress callbacks, averages and request rates.
- Assertion evaluation and JSON extraction: functions of the response given as parameters.
- `auto_reconnect = false`: an ended session re-enters the outer loop, so nothing is claimed for it.
- Heartbeats and incoming messages: they end a session at an arbitrary moment.
- Messages still in the memory queue when the client is stopped are dropped with it.
- Several clients with one store and target.
- WsQueue.OneLossPerSession: counts memory messages popped by a session whose send failed; a stored message is never lost that way.
- Counter management (set, delete, list, load) and the dirty flag's reader.
- Variables.Engine.NextToken: the single scan loop is split into this scan and one loop per token; positions count characters, not UTF-8 bytes.
- VariableLaws.DefaultDepthSuffices: built-ins are off, as generated values may contain tokens.
- The JSON text of a GraphQL body: the printer is given the assembled text.
- CurlRoundTrip.RoundTrip: multipart fields come back as one ignored `-F`, and a binary body as the text `@path`, because the parser reads neither.
- CurlRoundTrip.BareRequestSurvives: the "only if" half is for requests without headers and body; a later word such as `--url=-X` in a body can restore an option-like URL.
- Requests.ParseMethod: Unicode upper-casing is spelled out only where its result occurs in a method name.
- The authentication headers themselves (signing, base64): merging takes them as a list.
- Template rendering, delays and fault injection of the mock server.
- HMAC, SHA-256, MD5, and the rest of the signatures; no claim about which order of encoded names other signers use.
- DigestRoundTrip.ChallengeRoundTrip: `qop` items are lower-case, trimmed, non-empty and comma-free and the algorithm is a token, as the grammar has them; with another scheme behind the challenge the "only if" is for quoted values that do not end in a backslash, as it fails beyond them (`DigestBackslash.SuffixCanMendBackslash`).
- Ownership of the environment under overlapping `set_active_*` calls: the project is not looked at again before the write.
- ActiveCache.CacheFollowsEdits: deletions, restores and calls abandoned between saving an edit and announcing it are excluded; coherence holds with them.
- `set_active_environment` in `ActiveCache` starts after its look at the active project, with any outcome of it.
- ActiveContext.AppState.ActiveProject: the retry loop, which needs an overlapping write, is a step of `ActiveCache` only.
- Building, serializing and upgrading backup files.
- Parsing `Set-Cookie` texts, dates and URLs: the jar is given the parsed cookie and the lower-case host.
- CookieJar.ManagedJar.Clear: lower-cases the domain in ASCII.
- The other code generators, document exporters, the gRPC descriptor cache and the user interface.
