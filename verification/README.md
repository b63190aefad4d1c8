# Kodo: a verified model of fenced execution, durable sessions and replayable output

Kodo's control plane (Elixir) coordinates agent sessions; its runner (Rust) executes tool requests on
a user's machine. The two share no lock. What keeps them safe is a set of fencing tokens - session
epochs, lease generations, request ids, credential generations, claim epochs - and bounded state that
must agree with an unbounded history. This project models those parts and proves what holds over
every run.

| file | part of the system |
|---|---|
| `Authority.dfy` | the runner's lease registry: grants, guards, expiry, chains of renewals |
| `ResponseCache.dfy`, `Dispatcher.dfy`, `ReplayRetention.dfy` | at-most-once dispatch with a replay cache, tombstones and two quotas |
| `Fencing.dfy` | control plane, lossy network and runner together |
| `SessionLog.dfy`, `SessionEffects.dfy`, `SessionRuns.dfy` | the session row, its event log and transactions; whole runs of them |
| `Locks.dfy` | advisory locks around placement and external dispatch |
| `Credentials.dfy`, `CredentialStore.dfy`, `CredentialEffects.dfy`, `CredentialTables.dfy`, `CredentialRuns.dfy`, `CredentialClaims.dfy` | provider integrations, device authorization and refresh claims |
| `Utf8.dfy`, `Utf8Stream.dfy`, `OutputBuffer.dfy`, `ProcessLifecycle.dfy` | process output from bytes to polls |
| `Limits.dfy`, `Json.dfy`, `ToolResults.dfy`, `RunnerTools.dfy` | execution limits, encoded sizes, bounded tool results |

Each part has the same shape. A *simple form* (functions on values) says what one atomic step does.
Where the source updates state in place, a class with the source's fields does it statement by
statement, and its `ensures` equates the new state with the simple form. What a step demands and does is
stated once more on its own, apart from both, and runs of simple steps, with ghost history, carry the
theorems.

Four promises do not hold of the code as it is; each has a concrete counterexample and the exact
condition under which it does hold:

- a lapsed lease guard can become valid again, because `grant` reads its clock before it takes the
  registry lock (`Authority.RevivalHappens`; exactly when: `Authority.RevivedExactlyWhen` over runs,
  `Authority.StaleReadingRevives` for one grant);
- the response to `replace_text` can exceed the announced maximum, because the resolved path it names
  is not held to the output quota (`ToolResults.ReplacementCanOverflow`; exactly when:
  `ToolResults.ReplacementFitsIff`; limits that rule it out: `ToolResults.RoomyLimitsFitEveryReplacement`);
- a poll can report truncation although nothing was lost, because a reader that ends after its join has
  timed out counts as cut (`ProcessLifecycle.TimedOutJoinIsReportedWithoutLoss`; exactly when:
  `ProcessLifecycle.ReportedExactlyWhenLost`);
- a raw append of a status event leaves the session row behind its log, and setting the status
  directly to "awaiting approval" revives an abandoned approval (`SessionRuns.RawStatusEventsDiverge`,
  `SessionRuns.DirectStatusRevivesApproval`; exactly when: `SessionRuns.StatusFollowsLog`,
  `SessionRuns.RevivedExactlyBy`).

`dafny verify dfyconfig.toml` checks the whole project.

## Model

| member | source | states |
|---|---|---|
| Authority.AuthorityRegistry.Grant | crates/kodo/src/authority.rs:54-103 | Refuses if and only if the epoch is zero, the TTL is outside 1 to 15000 ms, or a newer epoch is known, each with its own error and no change; otherwise the returned guard is valid at exactly the instants before reading time + TTL; other sessions are untouched |
| Authority.AuthorityRegistry.EnsureValid | crates/kodo/src/authority.rs:116-135 | Succeeds exactly for an unmanaged guard or one whose epoch and generation are current and unexpired |
| Authority.EpochsGrow | crates/kodo/src/authority.rs:54-103 | Over any sequence of grants a session stays known and its epoch never decreases, whatever the clocks say |
| Authority.SupersededForever | crates/kodo/src/authority.rs:54-135 | Once a newer epoch is registered, no guard of an older one is valid after any further grants at any time |
| Authority.EntryOfGrants | crates/kodo/src/authority.rs:83-99 | The registry entry is determined by the history of successful grants: the newest one's epoch and expiry, and the number of broken renewals modulo 2^64 as generation |
| Authority.BreaksCountTheGaps | crates/kodo/src/authority.rs:83-91 | Two grants have the same unwrapped generation exactly when every grant between them renewed its predecessor in time |
| Authority.LeaseChain | crates/kodo/src/authority.rs:54-135 | With fewer than 2^64 generations, a guard is valid at t if and only if the grants since its own form an unbroken chain of renewals in one epoch and the newest has not expired, so it is under 15 s old |
| Authority.LapsedForever | crates/kodo/src/authority.rs:54-135 | A guard invalid at t never becomes valid again when all later grants read their clock after t |
| Authority.StaleReadingRevives | crates/kodo/src/authority.rs:62-91 | A grant that takes the lock after a guard lapsed revives it if and only if it is for the same session and epoch and read its clock before the expiry |
| Authority.RevivedExactlyWhen | crates/kodo/src/authority.rs:54-135 | Over any run, a guard found invalid is valid again later if and only if its chain had merely expired and the grants since renew it without a gap up to an unexpired one; the first of them read its clock before that expiry |
| Authority.RevivalHappens | crates/kodo/src/authority.rs:62-67 | A concrete interleaving: a guard found lost at 12 ms is valid at 13 ms |
| ResponseCache.SharedCache.RemoveCachedResponse | crates/kodo/src/dispatcher.rs:228-233 | The slot is removed, its id becomes a tombstone, and the byte count drops by the response's length |
| ResponseCache.SharedCache.Admit | crates/kodo/src/dispatcher.rs:107-131 | The in-place lookup and eviction loop computes the simple form: join a known slot, refuse a tombstone, elect after making room, or refuse for capacity |
| ResponseCache.SharedCache.Complete | crates/kodo/src/dispatcher.rs:179-193 | The in-place accounting after a response, pointer test and eviction loop included, computes the simple form |
| ResponseCache.EvictFrontSound | crates/kodo/src/dispatcher.rs:228-233 | Evicting keeps live and expired ids disjoint, the order a list of distinct live ids and the byte sum exact, touches no in-flight slot, and the saturating subtraction does not clip |
| ResponseCache.MakeRoomSound | crates/kodo/src/dispatcher.rs:117-123 | Making room evicts oldest completed entries only, and ends with room or with nothing left to evict |
| ResponseCache.TrimSound | crates/kodo/src/dispatcher.rs:186-192 | Trimming to the byte quota ends within it, with the same soundness |
| ResponseCache.NewestSurvives | crates/kodo/src/dispatcher.rs:179-193 | The newest response is still cached after trimming if and only if it fits the quota by itself |
| Dispatcher.StepKeepsInv | crates/kodo/src/dispatcher.rs:98-195 | Every dispatch, spawn, response, accounting and return keeps the cache sound, both quotas, one execution per id, and answers tied to executions |
| Dispatcher.RunKeepsInv | crates/kodo/src/dispatcher.rs:98-195 | Every interleaving keeps that invariant |
| Dispatcher.PointerTestSucceeds | crates/kodo/src/dispatcher.rs:179-185 | The slot of an execution in flight is never evicted or replaced, so the pointer comparison always succeeds |
| Dispatcher.CapacityRefusal | crates/kodo/src/dispatcher.rs:117-121 | A new request is refused for capacity if and only if all slots are taken and all are in flight; the refusal evicts nothing |
| Dispatcher.AtMostOnce | crates/kodo/src/dispatcher.rs:98-195 | Over every interleaving of dispatches, retries, completions and evictions no request id starts execution twice |
| Dispatcher.SameAnswer | crates/kodo/src/dispatcher.rs:98-218 | All callers answered from a slot for an id, however many waited together, asked with the same fingerprint and got the same response; that id was executed, and its one execution had that fingerprint and produced exactly that response |
| Dispatcher.AccountingIsExact | crates/kodo/src/dispatcher.rs:98-195 | In every reachable state live and expired ids are disjoint, the order lists distinct live ids of completed executions only, the byte count is the exact sum of the retained responses, and both quotas hold |
| Dispatcher.RetainedIffItFits | crates/kodo/src/dispatcher.rs:179-193 | A response survives its own eviction loop if and only if it fits the byte quota |
| ReplayRetention.TrimKeepsExactly | crates/kodo/src/dispatcher.rs:187-192 | Trimming keeps a response if and only if it fits the byte quota together with all newer ones |
| ReplayRetention.TrimKeepsLongest | crates/kodo/src/dispatcher.rs:187-192 | What is kept is the newest part of the order, and no longer part would have fitted |
| ReplayRetention.MakeRoomEvictsOldest | crates/kodo/src/dispatcher.rs:117-123 | Nothing is evicted while a slot is free, and otherwise the oldest completed response alone |
| ReplayRetention.AdmissionDecides | crates/kodo/src/dispatcher.rs:107-131 | For every cache and id: joined, refused as expired with the right verdict on its input, elected with or without one eviction, or refused for capacity, with the whole new cache |
| ReplayRetention.CallersWait | crates/kodo/src/dispatcher.rs:98-145 | A caller waits on the execution it was elected for or on that of a live id with its own fingerprint, and nobody else waits |
| ReplayRetention.EvictedExactlyWhen | crates/kodo/src/dispatcher.rs:107-193 | A step removes a completed response if and only if a new id finds every slot taken and this one oldest, or a completing response exceeds the byte quota together with this and all between; it then becomes a tombstone |
| ReplayRetention.ReplayableUntilCrowdedOut | crates/kodo/src/dispatcher.rs:107-193 | Over every run a completed response can be replayed at the end if and only if no step crowded it out |
| ReplayRetention.RetryIsAnswered | crates/kodo/src/dispatcher.rs:98-145 | Meanwhile a retry with the same fingerprint is answered at once with the one execution's response, executing and evicting nothing; another fingerprint gets nothing |
| Fencing.StepKeepsInv | crates/kodo/src/dispatcher.rs:77-131 | Claims, sends, repeated or late deliveries, grants, later elections and checks, each its own step, keep: leases and guards carry issued epochs the registry has reached, and effects are ordered by epoch |
| Fencing.ValidGuardsShareOneOwner | lib/kodo/runner_protocol.ex:146-152 | With leases and requests arbitrarily delayed, repeated, reordered or lost, and any interleaving between a caller's grant and its election, all guards of a session held by callers or executions and valid at one moment are equal, and their epoch was issued to exactly one owner |
| Fencing.SupersededNeverActs | crates/kodo/src/runner.rs:153-203 | Once the runner granted a later epoch, no execution under an earlier one passes a check again, in any continuation |
| Fencing.EffectsFollowOwnership | crates/kodo/src/runner.rs:153-211 | In the order in which they pass, a session's effects carry issued epochs that never decrease, and all effects of one request id come from one execution under one epoch |
| Fencing.AnswersMatchRequests | crates/kodo/src/dispatcher.rs:103-145 | With fingerprints of session and input that do not collide, an answered caller got the response of an execution of its own input in its own session |
| SessionLog.SessionStore.AppendLocked | lib/kodo/sessions.ex:1599-1620 | With the in-memory cursor equal to the row's, the event lands at the end of the log and the table stays gap-free; a taken sequence is refused and changes nothing |
| SessionLog.SessionStore.ClaimOwnership | lib/kodo/sessions.ex:227-259 | Commits exactly the simple claim: capability, claimability and capacity in that order, then owner and epoch + 1 |
| SessionLog.SessionStore.TransferOwnership | lib/kodo/sessions.ex:261-308 | Commits exactly the simple transfer under the current owner's fence |
| SessionLog.SessionStore.AppendGroup | lib/kodo/sessions.ex:1224-1246 | An ordered group lands whole at consecutive sequences, or a refused event rolls all of it back |
| SessionLog.SessionStore.BeginTurnLocked | lib/kodo/sessions.ex:1102-1150 | Adds snapshot, message and status as three adjacent events with the row's status, or nothing when the request id is recorded, a turn is in progress or the preflight fails |
| SessionLog.SessionStore.FinalizeLocked | lib/kodo/sessions.ex:1261-1294 | An active session gets its terminal event, if any, then the status event and the status; an inactive one is refused |
| SessionLog.SessionStore.SetStatusLocked | lib/kodo/sessions.ex:1296-1306 | Status and status event change together under the fence |
| SessionLog.SessionStore.CancelLocked | lib/kodo/sessions.ex:1308-1324 | Status and cancellation event change together under the fence |
| SessionLog.SessionStore.RequestApprovalLocked | lib/kodo/sessions.ex:1370-1397 | A running session gets the request and the awaiting status as adjacent events; failing the second lock leaves no trace of the first append |
| SessionLog.SessionStore.ResolveApprovalLocked | lib/kodo/sessions.ex:1326-1368 | A recorded equal decision changes nothing, a different one is refused, and only the awaited latest request is decided; failing the second lock leaves no trace |
| SessionLog.SessionStore.ChangeRouteLocked | lib/kodo/sessions.ex:1161-1190 | Appends one event without an ownership token |
| SessionEffects.ClaimOutcome | lib/kodo/sessions.ex:227-308 | A claim commits if and only if the claimant is nobody or capable, no live owner on another node holds the session (no owner at all, for nobody), and the instance has room unless it stays; which error each failure gives; it moves owner and epoch only |
| SessionEffects.TransferOutcome | lib/kodo/sessions.ex:261-308 | A transfer commits if and only if its token is the current one with a live owner, the new owner is nobody or capable, and the instance has room; it moves owner and epoch only |
| SessionEffects.DisplacedOnlyWhen | lib/kodo/sessions.ex:227-280 | An owner is displaced only by a transfer with its current token or by a claim from its own node or after it stopped being alive |
| SessionEffects.LiveOwnerIsKept | lib/kodo/sessions.ex:227-280 | Over every run in which neither it claims again nor its own token transfers the session, a live owner keeps the session and the epoch, whatever others try |
| SessionEffects.FenceIsFirst | lib/kodo/sessions.ex:1507-1522 | Every fenced transaction without the current token of a live owner fails as stale, before anything else is looked at |
| SessionEffects.TurnOutcome | lib/kodo/sessions.ex:1102-1150 | A turn begins if and only if its request is not in the log, the session neither runs nor awaits an approval, and the preflight passes; the exact events and status |
| SessionEffects.EndingOutcome | lib/kodo/sessions.ex:1012-1042 | Which status and which events a completion, a failure and a pause record, and that only an active session can end |
| SessionEffects.CurrentIsLatest | lib/kodo/sessions.ex:1399-1408 | The current approval is that of the last request in the log |
| SessionEffects.DecisionOutcome | lib/kodo/sessions.ex:1326-1368 | A decision is recorded if and only if the approval is undecided in the log, the last requested, and awaited; repeating it changes nothing and contradicting it is refused |
| SessionRuns.ExecuteAll | lib/kodo/sessions.ex:1102-1324 | After any mix of committed and rolled-back transactions the event table holds exactly the sequences 1 to next - 1, and row and log are those of the run |
| SessionRuns.StepKeepsOwnership | lib/kodo/sessions.ex:227-280 | Every transaction keeps: issued epochs are 1 to the current one, the owner holds the last, and every event's author held an issued token in epoch order |
| SessionRuns.EachEpochIssuedOnce | lib/kodo/sessions.ex:227-280 | Over every run, an epoch was issued if and only if it lies between 1 and the current one, and by exactly one claim or transfer |
| SessionRuns.WriterEpochsNeverDecrease | lib/kodo/sessions.ex:1507-1522 | Reading the log of any run in order, the epochs of the tokens that wrote it never decrease, and each such token was issued |
| SessionRuns.SupersededTokenNeverSucceeds | lib/kodo/sessions.ex:1589-1597 | A past token that no longer matches makes every fenced transaction fail as stale, after any further run |
| SessionRuns.StatusFollowsLog | lib/kodo/sessions.ex:1261-1397 | A committed transaction keeps the row's status equal to the fold of the log if and only if it is not a raw append, or its events fold to the status the row has |
| SessionRuns.RawStatusEventsDiverge | lib/kodo/sessions.ex:989-1010 | A concrete raw status event after which row and log disagree |
| SessionRuns.StatusIsTheFold | lib/kodo/sessions.ex:1261-1397 | In every run whose raw appends carry plain events, the status is the fold of the creation, status-change and cancellation events |
| SessionRuns.TurnsAreIdempotent | lib/kodo/sessions.ex:1102-1202 | A turn adds zero or three adjacent events, there is at most one user message per client request id, and a retry at any later point of the run adds nothing |
| SessionRuns.DecidedOnceAndForAll | lib/kodo/sessions.ex:1326-1420 | In every run an approval is decided at most once, its decision reads the same after any continuation, and it was recorded for the latest request while the log's fold was awaiting approval |
| SessionRuns.RevivedExactlyBy | lib/kodo/sessions.ex:1296-1397 | An abandoned approval stays abandoned unless - exactly - it is requested again or the status is set directly to awaiting while it is the latest |
| SessionRuns.AbandonedForever | lib/kodo/sessions.ex:1261-1397 | With fresh ids and no direct awaiting status, an abandoned approval is abandoned after every run |
| SessionRuns.CancelledApprovalIsNeverDecided | lib/kodo/sessions.ex:1261-1420 | An approval awaited when its session was cancelled or finalized is never decided: every later attempt fails and records nothing |
| SessionRuns.DirectStatusRevivesApproval | lib/kodo/sessions.ex:1070-1079 | A concrete run of a created session: a regular turn whose approval is requested and cancelled, then one direct status change, after which the approval is decided |
| Locks.Sort | lib/kodo/sessions.ex:368-373 | The keys come back strictly ascending, none lost and none added |
| Locks.StepKeepsInv | lib/kodo/sessions.ex:350-407 | Starting, acquiring one key, entering, committing, leaving and releasing keep lock table and holders in agreement and running dispatches under their own epoch |
| Locks.DispatchRunsUnderItsEpoch | lib/kodo/sessions.ex:344-348 | In every reachable state, while a dispatch callback runs, its token names the session's current owner and epoch, whatever claims, transfers and transactions interleave |
| Locks.PlacementsExclude | lib/kodo/sessions.ex:350-407 | In every reachable state at most one process is inside for a session, and at most one is inside placing onto an instance |
| Locks.NoWaitCycle | lib/kodo/sessions.ex:354-407 | For any number of processes taking their sorted keys one at a time, no cycle of waiters is reachable |
| Locks.SomeoneAdvances | lib/kodo/sessions.ex:368-407 | While any process is busy, some process has an enabled step that moves its job on |
| Locks.EveryJobFinishes | lib/kodo/sessions.ex:354-407 | Once no new job starts, every schedule has at most a computed number of steps, and it is stuck if and only if all processes are outside |
| Credentials.NextAttemptGeneration | lib/kodo/integrations.ex:1306-1312 | One past the largest generation of the attempts still stored for the integration, or one if there are none |
| CredentialStore.Store.InvalidateRecovery | lib/kodo/integrations.ex:1750-1768 | Every pending wish of that user and provider is withdrawn, in rows and in active attempts, and nothing else changes |
| CredentialStore.Store.UpdateFenced | lib/kodo/integrations.ex:1579-1636 | The statements, in order and with rollback, commit exactly the simple install, disconnection, validation verdict or refused grant |
| CredentialStore.Store.Install | lib/kodo/integrations.ex:1454-1489 | The checks outside the transaction and the fenced update commit exactly the simple install, errors included |
| CredentialStore.Store.ActivateIntegration | lib/kodo/integrations.ex:801-849 | Withdrawing, deselecting all accounts and selecting one commit exactly the simple activation |
| CredentialStore.Store.StartDeviceAuthorization | lib/kodo/integrations.ex:1228-1312 | The checks of lines 853-868 and the statements - ending the active attempt, moving the generation, inserting the attempt - commit exactly the simple beginning |
| CredentialStore.Store.CompleteDeviceAuthorization | lib/kodo/integrations.ex:1077-1126 | Installing, selecting if wished and possible, and ending the attempt commit exactly the simple completion |
| CredentialEffects.CommitsExactlyWhen | lib/kodo/integrations.ex:477-1346 | For every transaction the exact conditions on rows, claims, leases and deadlines under which it commits |
| CredentialEffects.DisconnectEffect | lib/kodo/integrations.ex:763-790 | A disconnection leaves its row disconnected, deselected, without credentials, expiry, refresh time, validation, claim or wish, one generation later; other accounts lose at most a wish; the account's active attempt is cancelled |
| CredentialEffects.ReauthorizationEffect | lib/kodo/integrations.ex:662-761 | A refused grant demands reauthorization, takes selection and validation away, and keeps credentials and generation |
| CredentialEffects.InstallEffect | lib/kodo/integrations.ex:1454-1489 | An install or completed authorization stores exactly the credentials and expiry it was handed, connects the account, moves its generation by one, and touches no other account |
| CredentialEffects.CreationEffect | lib/kodo/integrations.ex:446-509 | A new account belongs to its creator, and is selected only if it is connected as the first of its provider |
| CredentialEffects.ActivationEffect | lib/kodo/integrations.ex:801-849 | The account and no other of its provider is selected; every pending wish there is withdrawn; nothing else changes |
| CredentialEffects.BeginEffect | lib/kodo/integrations.ex:1228-1312 | The active attempt is superseded, the generation moves, the refresh claim goes, and an unclaimed attempt for that generation is stored with its payload, deadline, interval and recorded wish |
| CredentialEffects.EndingEffect | lib/kodo/integrations.ex:1335-1346 | Which attempts a completion, failure, cancellation or expiry ends, in which state and with which reason, with payload and claim removed |
| CredentialEffects.TouchEffect | lib/kodo/integrations.ex:932-1075 | What a holder's renewal, poll admission, scheduling, stored exchange and exchange admission change, and nothing else |
| CredentialEffects.HoldsTheLastStored | lib/kodo/integrations.ex:477-849 | In every run an account holds exactly the credentials of the latest install or completed authorization on record, none if a disconnection came after, and is disconnected if and only if it holds none |
| CredentialEffects.DisconnectedUntilInstalled | lib/kodo/integrations.ex:763-790 | After a disconnection, over any run, the account stays disconnected, deselected and empty until credentials stored for it are on record |
| CredentialTables.ApplyKeeps | priv/repo/structure.sql:139-201 | Every committed transaction keeps the table constraints, one active account per user and provider, active only when connected, a refresh claim only when not disconnected, one active attempt per integration, nothing held by finished attempts; and lets generations and claim epochs only grow |
| CredentialRuns.TablesAlwaysHold | priv/repo/structure.sql:139-201 | Those constraints and unique indexes hold in every reachable state |
| CredentialRuns.CountersNeverDecrease | lib/kodo/integrations.ex:477-849 | Over any run identities stay, generations and refresh-claim epochs never decrease, and within one epoch a claim's owner can only go away |
| CredentialRuns.OneTransitionPerGeneration | lib/kodo/integrations.ex:1454-1534 | Each generation below the current one was left by exactly one transition, and at most one credential install succeeded per integration and generation |
| CredentialRuns.CompletionFindsGenerationUntouched | lib/kodo/integrations.ex:1143-1166 | A completing attempt's beginning is on record and no transition has moved its integration's generation since |
| CredentialRuns.SelectionStep | lib/kodo/integrations.ex:1715-1748 | The only transitions that turn an account active, with the row or attempt flag that let them |
| CredentialRuns.NoSilentReactivation | lib/kodo/integrations.ex:1715-1768 | In every run, an inactive account becomes active only by its own activation, as a first account, or, when none there is active, because its device authorization or its latest refresh claim recorded the wish and nothing has withdrawn it: no activation or disconnection for that user and provider since, and for a refresh no later claim, release, install or new authorization of the account |
| CredentialRuns.CompletionSelectsExactlyWhen | lib/kodo/integrations.ex:1077-1126 | A finished device authorization leaves its account active if and only if it was, or its beginning recorded the wish, no such choice has committed since, and no account there is active |
| CredentialRuns.InstallSelectsExactlyWhen | lib/kodo/integrations.ex:1579-1768 | A finished refresh, or any other install, leaves its account active if and only if it was, or no account there is active and it is the only account getting its first OAuth credentials, or the installer asks for it and the account's latest refresh claim recorded the wish with nothing since to withdraw it |
| CredentialRuns.RefreshClaimEnds | lib/kodo/integrations.ex:569-717 | A takeover, a release or any move of the generation makes a matching refresh claim stop matching |
| CredentialRuns.RefreshGoneForever | lib/kodo/integrations.ex:1527-1534 | A past refresh claim that does not match never matches again, after any run |
| CredentialRuns.DeviceClaimEnds | lib/kodo/integrations.ex:894-966 | A takeover, the end of the attempt by completion, failure, cancellation or expiry, or any move of the integration's generation makes a matching device claim stop matching |
| CredentialRuns.DeviceGoneForever | lib/kodo/integrations.ex:1143-1192 | A past device claim that does not match never matches again, although cleanup lets attempt generations restart |
| CredentialClaims.RefreshIsExclusive | lib/kodo/integrations.ex:569-616 | After any run, as long as a refresh claim still matches, no other refresh of that integration is admitted within its thirty seconds |
| CredentialClaims.AuthorizationBlocksRefresh | lib/kodo/integrations.ex:569-616 | After any run, as long as a begun device authorization has not ended, no refresh of its integration is admitted for fifteen minutes |
| CredentialClaims.ClaimDeviceGrantsOne | lib/kodo/integrations.ex:894-930 | A successful device claim takes over exactly one attempt, whose previous lease had ended, and its claim matches |
| CredentialClaims.LostClaimNeverActs | lib/kodo/integrations.ex:1143-1192 | After any run, a device claim that was lost once makes renewing, polling, storing, exchanging, failing and completing fail |
| CredentialClaims.LostRefreshNeverActs | lib/kodo/integrations.ex:645-717 | After any run, a refresh claim that was lost once makes releasing and demanding reauthorization fail as stale |
| CredentialClaims.PollsRespectInterval | lib/kodo/integrations.ex:968-999 | Between two admitted polls of an attempt, by any workers and with anything in between, at least the polling interval passes, on a clock that does not go back |
| Utf8.ScanFindsEncodings | crates/kodo/src/process.rs:517-552 | The scanner accepts a prefix as a character if and only if that prefix is the character's UTF-8 encoding (section 4 of RFC 3629) |
| Utf8.RejectsMaximalSubpart | crates/kodo/src/process.rs:517-552 | A rejected prefix is a maximal subpart: what it claims to consume starts a character or is one byte, and one byte more does not |
| Utf8.DecodingResumes | crates/kodo/src/process.rs:517-552 | Settling a prefix, then its leftover with more bytes, gives the same text and leftover as settling everything at once |
| Utf8.LossySplits | crates/kodo/src/process.rs:517-552 | Lossy decoding is the settled text followed by one replacement character if bytes are left over |
| Utf8.LossyKeepsText | crates/kodo/src/process.rs:517-552 | Lossy decoding of an encoded text is that text |
| Utf8.FromUtf8Settles | crates/kodo/src/process.rs:517-552 | The library's validation result - valid length and error length - is the one the settled text and leftover imply |
| Utf8.ClipIsLastBoundary | crates/kodo/src/process.rs:554-565 | The clipped text ends at the last character boundary within the limit |
| Utf8.TruncateUtf8 | crates/kodo/src/process.rs:554-565 | The backward search returns the longest prefix of whole characters within the limit, and says truncated exactly when that is not all |
| Utf8.ByteLenIsEncodedLength | crates/kodo/src/process.rs:554-565 | The byte length of a text is the length of its encoding |
| Utf8Stream.StreamDecoder.Decode | crates/kodo/src/process.rs:517-552 | One call returns the settled text of pending and new bytes and keeps their leftover, at most three bytes; at the end of the stream it flushes; the loop terminates |
| Utf8Stream.LossyResumes | crates/kodo/src/process.rs:517-552 | Lossy decoding of a concatenation is the settled text of the first part, then lossy decoding from its leftover |
| Utf8Stream.ChunkingIsIrrelevant | crates/kodo/src/process.rs:454-481 | For every byte string and every way of splitting it into reads, the concatenated outputs equal lossy decoding of the whole |
| Utf8Stream.TextArrivesVerbatim | crates/kodo/src/process.rs:454-481 | A text encoded and split anywhere arrives as that text |
| Utf8Stream.DecodeReads | crates/kodo/src/process.rs:454-481 | The read loop's outputs concatenate to lossy decoding of everything read |
| OutputBuffer.Buffer.AppendOutput | crates/kodo/src/process.rs:484-515 | The in-place push and eviction loop computes the simple append on chunks, byte count, cursor and truncation flag |
| OutputBuffer.RetainIsLongest | crates/kodo/src/process.rs:493-514 | Eviction keeps the longest suffix of chunks that fits both quotas |
| OutputBuffer.AddedChunk | crates/kodo/src/process.rs:484-515 | An append adds nothing if not one character fits, else one chunk with the next sequence, its stream and the longest prefix that fits, marked truncated exactly when that is not all |
| OutputBuffer.AppendTracks | crates/kodo/src/process.rs:484-515 | Retained chunks stay a suffix of the full history with contiguous sequences up to the next one, an exact byte count and both quotas |
| OutputBuffer.PollIsExactOrSaysSo | crates/kodo/src/process.rs:196-231 | A poll that does not report truncation returns exactly the history after its cursor, unclipped |
| OutputBuffer.TruncatedMeans | crates/kodo/src/process.rs:196-231 | A poll shows exactly the history from its cursor or from the first retained chunk on; it says truncated if and only if the buffer's flag is up, chunks after the cursor are evicted, or a chunk of that part was clipped |
| OutputBuffer.ClientPollFollows | crates/kodo/src/process.rs:196-231 | A client resuming from next - 1 that was not told of truncation holds the whole history after its poll |
| OutputBuffer.AppendCarries | crates/kodo/src/process.rs:484-515 | Unless clipped or dropped, the history carries exactly the appended text of each stream |
| ProcessLifecycle.StepKeepsInv | crates/kodo/src/process.rs:278-359 | Reads, ends of stream, the supervisor's decision, joins, publication and polls keep decoding, history, phases and client in agreement |
| ProcessLifecycle.TerminalOnlyAfterReaders | crates/kodo/src/process.rs:278-359 | The status leaves Running only by publication and only after both readers have ended |
| ProcessLifecycle.StatusReportsOutcome | crates/kodo/src/process.rs:307-346 | In every run at most one outcome is decided, and a finished process reports it: exited with exactly the child's code, timed out if and only if the deadline passed, stopped if and only if a stop was requested or the authority was lost |
| ProcessLifecycle.FrozenAfterTerminal | crates/kodo/src/process.rs:418-482 | After a terminal status, in every continuation, status and polls from any cursor stay identical |
| ProcessLifecycle.PollingIsExactInEveryRun | crates/kodo/src/process.rs:196-231 | In every interleaving the client has every chunk up to its cursor once, in order and unclipped, unless a poll said truncated; retained chunks are the newest, contiguous and within quota |
| ProcessLifecycle.ReplayIsComplete | crates/kodo/src/process.rs:278-515 | A client never told of truncation that saw a terminal status holds exactly the lossy decoding of everything read from each stream, and both readers ended by themselves |
| ProcessLifecycle.TruncatedExactlyWhen | crates/kodo/src/process.rs:196-231 | In every run a poll says truncated if and only if text was dropped because not one character of it fits, the finished process had a reader whose join timed out, chunks after the cursor are evicted, or a chunk it would show was clipped |
| ProcessLifecycle.ReportedExactlyWhenLost | crates/kodo/src/process.rs:278-359 | In every run a loss is reported; the report is exact if and only if something was lost or no reader ended after its join had timed out |
| ProcessLifecycle.TimedOutJoinIsReportedWithoutLoss | crates/kodo/src/process.rs:418-431 | A concrete run of a silent command that is reported as truncated although both readers ended and nothing was written |
| Limits.LanguagesAgree | crates/kodo/src/protocol.rs:52-111 | For every limits record and any size of at least 32 bits, the overflow-checked Rust validation accepts if and only if the unbounded Elixir validation (lib/kodo/runner_protocol.ex:178-198) does, and then both compute the same maximum |
| Json.EscapeExpandsSixfold | crates/kodo/src/protocol.rs:97-111 | Escaping (section 7 of RFC 8259) makes no text more than six times as long in bytes |
| Json.UnescapeEscape | crates/kodo/src/protocol.rs:97-111 | Every escaped text is read back as it was |
| Json.CursorsRead | crates/kodo/src/process.rs:196-231 | The cursors and the truncation flag of an encoded poll can be read back |
| ToolResults.ResultBytes | crates/kodo/src/protocol.rs:97-111 | Under accepted limits every result within quota encodes within the maximum less the envelope |
| ToolResults.SuccessFits | crates/kodo/src/protocol.rs:97-111 | The encoded response of every result within quota is at most the announced maximum |
| ToolResults.ErrorFits | crates/kodo/src/dispatcher.rs:161-178 | The encoded response of every execution error, clipped as the dispatcher does, is at most the announced maximum |
| ToolResults.EveryResponseIsReplayable | crates/kodo/src/dispatcher.rs:161-193 | Under limits the runner accepts, every such response fits the transport and is still cached for replay after its own eviction loop |
| ToolResults.EveryAccountedResponseSurvives | crates/kodo/src/dispatcher.rs:147-193 | Over every run of the dispatcher in which executions respond as the tools do, every response fits the transport and is still cached when its own eviction loop ends |
| ToolResults.ReplacementFitsIff | crates/kodo/src/runner.rs:537-586 | The response to a replacement fits if and only if the escaped resolved path is at most the announced maximum less 144 bytes |
| ToolResults.ReplacementRetainedIff | crates/kodo/src/dispatcher.rs:179-193 | The response to a replacement is kept for replay if and only if the escaped resolved path is at most the cache's byte quota less the same 144 bytes |
| ToolResults.RoomyLimitsFitEveryReplacement | crates/kodo/src/runner.rs:537-586 | If the announced maximum leaves room for the longest resolvable path fully escaped, every replacement's response fits it, the transport and the cache |
| ToolResults.ReplacementCanOverflow | crates/kodo/src/runner.rs:537-586 | Accepted limits and a replacement the runner carries out, of a path whose names and length a file system can hold, whose response is over the maximum |
| RunnerTools.ListFiles | crates/kodo/src/runner.rs:279-307 | The listing obeys both quotas and is complete if and only if it does not say truncated |
| RunnerTools.FittingByPath | crates/kodo/src/runner.rs:297-305 | Path by path, the next one is kept if and only if it fits what the kept ones leave |
| RunnerTools.FileMatchesExact | crates/kodo/src/runner.rs:343-369 | The matches of a file are exactly its lines that contain the query, whole, with their one-based numbers, in increasing order |
| RunnerTools.SearchFile | crates/kodo/src/runner.rs:343-369 | Either every match of the file is added in full, or a quota ends the search: the first matches in full, as many as allowed or up to a path that leaves no byte, or the last one cut to the longest prefix that fits |
| RunnerTools.SearchCode | crates/kodo/src/runner.rs:309-373 | Both quotas hold; the result is all matches, or those matches as a quota ends them; it says truncated if and only if a listing was truncated or matches are missing |
| RunnerTools.ReadPage | crates/kodo/src/runner.rs:375-412 | A page is returned if and only if it is not empty by request and fits the output quota; it says truncated and where to go on if and only if lines remain beyond it |
| RunnerTools.JoinedLinesSplit | crates/kodo/src/runner.rs:390-396 | The lines of a page can be read back from its text |
| RunnerTools.PagesCoverTheFile | crates/kodo/src/runner.rs:375-412 | Pages of any sizes, each starting at the next offset, hold every line once and in order |
| RunnerTools.FollowedPagesCoverTheFile | crates/kodo/src/runner.rs:375-412 | A reader that follows the returned next offsets to the end receives exactly those pages, and so every line once and in order |
| RunnerTools.ReadBounded | crates/kodo/src/runner.rs:942-957 | Draining a pipe keeps exactly its first `limit` bytes and says truncated exactly when there were more |
| RunnerTools.LossyBounded | crates/kodo/src/runner.rs:937-940 | The longest whole-character prefix of the lossy decoding within the limit, flagged exactly when it is not all |
| RunnerTools.SuccessfulStdout | crates/kodo/src/runner.rs:857-869 | A successful command's output is the longest whole-character text of its first bytes within the limit, complete if and only if it does not say truncated, and cut only when its text is over the limit |
| RunnerTools.GitDiff | crates/kodo/src/runner.rs:414-505 | The text is the bounded tracked diff followed by the untracked diffs, each within the room left, up to the first that does not fit whole; unless it says truncated it is complete; it says so only if the complete text fills the quota; with commands that succeed, an untracked list within its limit and paths that resolve there is no error |
| RunnerTools.LossyNotShorter | crates/kodo/src/runner.rs:937-957 | Lossy decoding never makes a text shorter in bytes than its input, so a pipe cut at the quota means the text would not have fitted |
| RunnerTools.CheckPatchPaths | crates/kodo/src/runner.rs:736-753 | Paths are accepted if and only if there are some and they make a result within the quotas that replay needs |
| RunnerTools.PollWithinQuota | crates/kodo/src/process.rs:196-231 | Every poll of a buffer that obeys the limits is within the quotas that replay needs |
| RunnerTools.Execute | crates/kodo/src/runner.rs:153-276 | Whatever files, Git output, listings and buffers the tools are given, each gives the answer its own contract states, and every result except a replacement's is within the quotas the encoding relies on |
| RunnerTools.Respond | crates/kodo/src/dispatcher.rs:161-178 | The response encodes that answer or the clipped error, is at most the announced maximum, and is one that `ToolResults.EveryResponseIsReplayable` speaks of |

## Left out

- `wait_until_invalid` and the notification it waits on: a lost lease reaches a running command as one of the outcomes the supervisor may decide on.
- Sorting and deduplication of file listings and patch paths, Git, the file system, child processes and signals: their results are inputs; a path outside the workspace, a command that cannot be started or a lost lease is the failure given to `RunnerTools.Respond`.
- SHA-256 request fingerprints and credential encryption: fingerprints and sealed payloads are abstract values, and `Fencing.AnswersMatchRequests` assumes that fingerprints do not collide; an encryption failure aborts before any change.
- The bodies of refusals that never reach a response slot (unsupported protocol, missing lease, expired id): they are not cached.
- 64-bit overflow of event sequences, output sequences and credential counters, which are unbounded here; the lease generation does wrap around.
- Instance liveness, capability and capacity are chosen by the environment at every step; a bound on the number of sessions per instance is not claimed, because a same-owner claim skips the check.
- Concurrency inside one database transaction: a transaction is one step, and a rollback leaves no trace.
- Lock holders that crash, nested locks and colliding lock hashes.
- Credential transactions that are a single update statement (refresh claim and release, device claim and renewal, poll admission, failure, cancellation, expiry, cleanup) are modelled on values only; there is no order of statements to capture.
- `create_oauth_integration` and `connect` beyond their effect on the rows: display names and changeset validation.
- Audit events, broadcasts and `updated_at` columns; which finished attempts are old enough for cleanup is the clock's choice.
- Placement, recovery, projections, the coordinator process, the web layer and the command-line client.
