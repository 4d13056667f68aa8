# Verification of the payment, session, gateway and profile protocols

A Dafny model of the components listed below, and proofs about it. Components that compute a
value are functions; components that change state step by step are classes and methods proved
against a specification; components whose awaits interleave are transition systems in which one
event is one atomic effect, and the theorems are about every reachable state of every run.

Check everything with `dafny verify dfyconfig.toml`.

| file | what it models |
|---|---|
| `Invoice.dfy` | one invoice row, the one amount rule, every guarded SQL write |
| `Settlement.dfy` | any number of `/pay` requests, the facilitator, the chain, the reaper, the scanner, the held-row resolver and the owner, interleaved on a table of invoices |
| `InvoiceStore.dfy` | the invoice table as an object and the `/pay` handler run over it alone |
| `PayRun.dfy` | the handler run alone, as a run of the interleaved protocol |
| `SessionRuns.dfy` | runners, producers, cancellers and other status writers of one session, interleaved |
| `MessageQueue.dfy` | where a session's messages are: the list kept before there is an agent, the agent's queue, the file of an eviction |
| `SessionManager.dfy` | one session's status as an object, one whole run of it, the REPL exit |
| `BodySlots.dfy` | upload slots: semaphore, per-client table, exactly-once release, interleaved |
| `BodyIngress.dfy` | length gate, bounded read, spool, replay; the webhook route's capped reader |
| `KeyCache.dfy` | the API key validation cache against its database, read and write as separate steps |
| `TokenTable.dfy` | the table in which session tokens and API keys are cached side by side |
| `RateLimiter.dfy` | token bucket and two fixed windows per user, single calls and whole histories |
| `ProfileDigest.dfy` | the length-prefixed byte stream a profile's digest covers, and the approval gate |
| `Snapshot.dfy` | the bounded copy of a profile: an `os.walk` worklist over a tree with links |
| `ForwardedIp.dfy` | the forwarded-address walk behind trusted proxies, and the rate key |
| `Workspace.dfy` | serving one workspace file: path text, probe, resolution in a file system with links |
| `FileReadiness.dfy` | the back-off loop that waits for attached files |
| `MessageIntake.dfy` | one posted message: gates, queue, restart, reply |
| `Text.dfy`, `Bytes.dfy`, `Numbers.dfy`, `Wrappers.dfy` | splitting and stripping, joining, minima, `Option` |

## Main results

* **Settlement.** At most one payment per invoice is accepted on chain, in every interleaving
  without the resolver, and with it in every interleaving whose reopens are sound
  (`AtMostOnePaymentAccepted`). `ReopenIsSafeIff` says exactly which reopens are: any other can be
  continued to a double payment. The guard the resolver lacks, comparing the recorded deadline of
  the authorization with the clock, would be enough (`GuardedRunsAreSound`, `GuardedRowIsSafe`); so
  is, as the code stands, that no authorization outlives the hold window
  (`ShortLivedRunsAreSound`). The argument rests on the durable
  marker, not on the claim: a claim can be released by another request's late revert
  (`ClaimCanBeReleasedByAnother`).
  The handler as written, run alone under any answers and cancellations, is one run of that protocol
  (`HandlerIsARunOfTheProtocol`).
* **Sessions.** Every entry into the execution region is its own transition into `running`, so
  even without the lock two runners can be inside only if the status left `running` in between;
  with the lock, never two. Every message whose producer has queued it and then called has that
  producer's own runner for as long as it is queued (`QueuedMessageHasItsRunner`): in every run on
  one event loop in which stored statuses are known, each run that ends has drained what was queued
  before it was requested, and, for a forged message only, the gate of a cancelled session is not
  met. Each of these three rules is needed: one run per rule keeps the other two and strands a
  message. The model lets others act between a runner's read of the status and its
  compare-and-sets, which the code's event loop does not; the results about entries and the lock
  hold even so.
* **Messages.** Through the early list, the flush into a new agent, drains of three, evictions,
  restores and crashes, every accepted message is read exactly once or still ahead, if and only if
  every step is harmless (`NoMessageLostOrDoubledIff`).
* **Upload slots.** Free slots plus holders is constant, the per-client table is exact, every
  admitted request frees exactly once, and the replay is the received body.
* **Key cache.** What is served was a database answer less than 60 seconds ago.
* **Profiles.** The digest's byte stream has an inverse, so approving a digest approves exactly
  one set of files; the copy under review is the source without its `.git` directories.
* **Addresses, paths.** No forged header hides the client behind trusted proxies; a served path is
  the root followed by the given components and opening it follows no link.

## Where a promise does not hold

Each of these is stated by the lemmas and methods named with it, which give the exact condition
and, where one is named, a concrete run or input.

* `modules/x402/settlement_scan.py:1148-1155` promises to release a held submission only on proof
  that it never paid. It reads that the authorization is unused so far and never looks at the
  authorization's own deadline (recorded as `valid_before`). One unanswered submission whose
  authorization outlives the 1800 second hold lets an invoice be paid twice, with every nonce
  distinct to the end (`DistinctNoncesCanPayTwice`). A nonce used by two requests is the other way;
  it takes a refused request that stalls for longer than the hold before its own reopen
  (`SharedNonceCanPayTwice`). `ReopenIsSafeIff` is the exact condition.
* `api/api_key_auth.py:41-43` promises that a revocation takes effect at once in its process. The
  epoch is read when the entry is written, so an answer read before the revocation and stored after
  its bump is served for up to 60 seconds (`BumpDuringLookupServesRevokedKey`,
  `RevokedKeyDiesWithinTtl`; exactly when: `RevocationIsImmediateIff`).
* `api/middleware.py:63-64` says a denied request consumes nothing. A call the hour gate denies has
  already started a new minute window, which can change a later decision
  (`HourDenialCanChangeALaterDecision`). `DeniedCallLeavesNoTraceIff` says exactly when a denied call
  leaves the limiter as it was; `OnlyLastMinuteDenialsMatter` that only a call denied in the last
  minute of its hour window can change a decision.
* The per-client upload share is checked before an acquire that may wait, so two requests of one
  client can both pass and exceed it (`WaitingAcquireCanExceedTheShare`; exactly when:
  `ShareIsExceededIff`).
* A cancel that lands before a run rebuilds its evicted orchestrator is overwritten by
  `initializing` (`EarlyCancelSurvivesIff`), and a pause is overwritten by the cleanup of a run that
  ends cancelled (`PauseLostOnlyToACancelledEnding`). A status `resumed` can stand while the lock is
  free, because resuming a session writes it outside the lock (`LockSerializesRuns` says exactly
  when).
* A queued message can be left with no runner: by a self-wake into a cancelled session, which the
  gate holds for a person's next message (`SelfWakeIntoCancelledIsStranded`), by a run that fails
  before its first drain (`FailedStartStrandsAMessage`), by a stored status nobody knows
  (`UnknownStatusStrandsAMessage`). `CoverageIsLostIff` lists every way.
* A message posted to a session that never ran is lost when the session is evicted, because the
  snapshot covers agents' queues only (`EvictionLosesAnEarlyMessage`). A restored file is kept until
  the queue is empty, so a crash after a first drain repeats messages (`CrashRepeatsMessages`).
  `MessagesAreKeptIff` lists every way.
* A posted message can be answered with success although nothing was queued
  (`SuccessWithoutACopyIff`), or with a failure although it was (`FailureWithACopyIff`). The status
  `cancelled` is listed as resumable by a message (`api/task_http_api.py:76-77`), but the list at
  line 210 refuses it (`CancelledIsResumableInNameOnly`). The second file pass for running sessions
  (lines 579-662) is reached only without an orchestrator, where handing over the message fails.
* `verify_files_ready` with a limit of zero or less reports from variables that were never set
  (`VerifyFilesReady`, verdict `Unbound`).
* `_facilitator_refusal` lets an invoice whose asset is not configured go on to payment, although
  its challenge says it is unpayable (`UnpayableInvoiceIsCompleted`; exactly when:
  `UnpayableGoesToPaymentIff`).
* A workspace file whose whole path is white space cannot be fetched (`EveryFileIsServedIff`).

## Model

| member | source | states |
|---|---|---|
| `InvoiceStore.UnpayableGoesToPaymentIff` | api/x402_endpoints.py:401-417 | an invoice whose challenge says unpayable is taken to payment exactly when its asset is not configured and nothing else refuses it |
| `InvoiceStore.UnpayableInvoiceIsCompleted` | api/x402_endpoints.py:401-417 | one such invoice, paid in full, is completed |
| `InvoiceStore.Store.ClaimForSettlement` | modules/x402/invoicing.py:783-797 | wins exactly on a pending row; the whole table after it |
| `InvoiceStore.Store.RevertSettlementClaim` | modules/x402/invoicing.py:800-812 | the whole table after a release, a miss included |
| `InvoiceStore.Store.MarkInvoiceSubmitted` | modules/x402/settlement_attempt.py:32-43 | succeeds exactly on a settling, unmarked row |
| `InvoiceStore.Store.ReopenRejectedSettlement` | modules/x402/settlement_holds.py:14-34 | the whole table after a reopen keyed on the nonce |
| `InvoiceStore.Store.SettlePaymentRequest` | modules/x402/invoicing.py:852-909 | completes exactly when the row is open, is no held machine payment, and no row carries the transaction |
| `InvoiceStore.Store.ReapClaim` | modules/x402/invoice_reaper.py:47-70 | releases exactly a claimed, settling, unmarked row; the job's step of the protocol |
| `InvoiceStore.Store.ReopenClaim` | modules/x402/invoice_reaper.py:228-239 | reopens exactly a settling, unmarked row; the owner's step of the protocol |
| `InvoiceStore.Store.ExpireStale` | modules/x402/invoicing.py:917-955 | expires exactly a row still pending |
| `InvoiceStore.Store.ScanSettle` | modules/x402/invoicing.py:884-909 | settles exactly a pending row under a transaction no row carries |
| `InvoiceStore.Store.OwnerSettle` | modules/x402/invoicing.py:884-909 | settles an open row, with a transaction also one settled without, never a held machine payment |
| `InvoiceStore.Store.CompleteHeld` | modules/x402/settlement_holds.py:121-149 | an invoice completes, a held machine payment becomes a refund owed, under an unused transaction |
| `InvoiceStore.Store.ResolveHeld` | modules/x402/invoice_reaper.py:242-268 | decides exactly a held row, a void only past the deadline |
| `InvoiceStore.PayInvoice` | api/x402_endpoints.py:447-571 | undisturbed: each refusal in order; completed exactly when submitted, reported, proven for the invoice's amount, the stored raw amount or else the dollars, under an unused transaction; held exactly when a marker was set and no definite refusal recorded; otherwise payable again and unchanged; 402 and 502 exactly when; no other invoice moves |
| `PayRun.HandlerIsARunOfTheProtocol` | api/x402_endpoints.py:484-571 | whatever facilitator, chain and scheduler do, the table the handler leaves is one a sound run of the interleaved protocol leaves, its request finished |
| `Settlement.AtMostOnePaymentAccepted` | api/x402_endpoints.py:484-507 | in every run without the resolver, and in every run whose reopens are sound, two payments accepted on chain for one invoice are the same payment |
| `Settlement.ReopenIsSafeIff` | modules/x402/settlement_scan.py:1147-1205 | after a sound run, a reopen leaves no way to pay the still payable invoice twice if and only if nothing submitted for it has paid and each authorization is refused, consumed elsewhere or past its deadline |
| `Settlement.GuardedRunsAreSound` | modules/x402/settlement_scan.py:1171-1205 | with distinct nonces and verdicts read only past the authorization's recorded deadline, every reopen of every run is sound, however late it is written |
| `Settlement.GuardedRowIsSafe` | modules/x402/settlement_scan.py:1159-1182 | a held row whose marked authorization is unused and past its deadline has nothing submitted for it that has paid or still can: what the resolver can see is enough |
| `Settlement.GuardedReopenIsSound` | modules/x402/settlement_holds.py:14-34 | after a sound run, a reopen under that guard is sound whatever the nonces |
| `Settlement.ShortLivedRunsAreSound` | modules/x402/settlement_holds.py:37-51 | as the code stands: with distinct nonces and authorizations that expire within the hold window, every reopen of every run is sound |
| `Settlement.VerdictsWereRead` | modules/x402/settlement_scan.py:1159-1205 | a resolver verdict was read from a row held under that nonce for the whole window with the authorization unused |
| `Settlement.LiveSubmissionHoldsInvoice` | api/x402_endpoints.py:535-558 | in the same runs, while a submission may still pay, its row carries its own marker and can be neither claimed, released, reaped nor marked again |
| `Settlement.WhoGoesOnHasWon` | api/x402_endpoints.py:484-543 | in every run a request past its claim won it on a pending invoice, and one that reached the facilitator set the marker itself on an unmarked one |
| `Settlement.OpenInvoicesAreUnmarked` | modules/x402/settlement_holds.py:14-34 | in every run a pending row has no marker and can be claimed |
| `Settlement.CompletedByPayIsProven` | api/x402_endpoints.py:325-371 | in every run a row completed by `/pay` or by the resolver's receipt names a transaction that paid at least what its challenge asked for: the stored raw amount if positive, else the dollars; no other row names it |
| `Settlement.OneTransactionSettlesOneInvoice` | modules/x402/invoicing.py:852-909 | in every run, whoever settled, no transaction is on two rows |
| `Settlement.MarkedRowLeavesOnlyOnAnAnswer` | api/x402_endpoints.py:489-507 | in every run a marked row stays held except by a proven settle, a definite refusal of its own nonce, a resolver verdict on that nonce, the owner or a transaction the chain proves |
| `Settlement.RefusalReopens` | api/x402_endpoints.py:551-558 | without the resolver, a definite refusal makes a still-held invoice payable and unmarked |
| `Settlement.StepsFollowTheTable` | modules/x402/invoice_status.py:18-45 | every status change of every event is an edge of the status table; terms never change |
| `Settlement.ClosedStaysClosed` | modules/x402/invoice_status.py:18-45 | in every run an invoice once completed, expired or owed back is never open or held again |
| `Settlement.ChancesEnd` | modules/x402/settlement_attempt.py:15-29 | an unpaid submission can no longer pay from its deadline on, or once its payer cancels on chain |
| `Invoice.LeadsTo` | modules/x402/invoice_status.py:18-45 | what can lead to each invoice status |
| `Settlement.StepKeepsInv` | api/x402_endpoints.py:447-571 | the inductive invariant, in each scope: one marker holder per invoice, open rows unmarked, completions backed by the chain |
| `Settlement.RunKeepsInv` | api/x402_endpoints.py:447-571 | the invariant over whole runs from a fresh table |
| `Settlement.OpenInvoiceCanBeSubmitted` | api/x402_endpoints.py:484-543 | from every reachable state with an open invoice, a new request can reach the settle call: safety is not bought by blocking |
| `Settlement.DistinctNoncesCanPayTwice` | modules/x402/settlement_scan.py:1171-1205 | a sound run after which the resolver's reopen of an unanswered submission lets the invoice be paid twice, all nonces distinct in the state in which it is |
| `Settlement.SharedNonceCanPayTwice` | modules/x402/settlement_holds.py:14-34 | a sound run, hold window included, after which a refused request's own late reopen lets the invoice be paid twice |
| `Settlement.ClaimCanBeReleasedByAnother` | api/x402_endpoints.py:501-503 | a run in which the release after a refusal frees a later request's claim |
| `SessionRuns.EntryIsTheTransition` | agents/task_agent_lite.py:643-701 | with or without the lock, the status becomes running exactly when some runner enters, and was not running before |
| `SessionRuns.StatusLeftRunningBetweenEntries` | agents/task_agent_lite.py:643-701 | between any two entries of a run the status left running |
| `SessionRuns.LockSerializesRuns` | agents/task_agent_lite.py:589-593 | never two runners inside; a free lock means not running, and resumed exactly when written from outside |
| `SessionRuns.RunKeepsLock` | agents/task_agent_lite.py:589-701 | the lock invariant over whole runs |
| `SessionRuns.LandedCancelSurvives` | agents/task_agent_lite.py:715-864 | a cancel that landed during a run is still there when the run lets go, whatever its exit, unless somebody wrote again or the run rebuilt its orchestrator |
| `SessionRuns.CalmRunsLoseNoCas` | agents/task_agent_lite.py:643-701 | with the lock and no write between a read and an entry, every compare-and-set of a known status wins |
| `SessionRuns.QueuedMessageHasItsRunner` | agents/task_agent_lite.py:580-632 | in every run with the lock on one event loop, with known statuses and runs that drain what was queued before they were requested: a queued message whose producer has called has the runner of that very call waiting, on its way in or inside |
| `SessionRuns.QuietSessionHasReadItsMessages` | agents/task_agent_lite.py:589-632 | in the same runs, once every producer has called and no runner is left, the message is not queued |
| `SessionRuns.CoverageIsLostIff` | agents/task_agent_lite.py:627-701 | coverage is lost in one step exactly when the last attending runner is refused by the gate, loses a compare-and-set, meets a status no run starts from, or ends, with a called message queued |
| `SessionRuns.GateStrandsOnlyForgedIff` | agents/task/task_agent_delivery.py:588-619 | the gate strands messages exactly in a cancelled session with no room line and nothing a person sent |
| `SessionRuns.SelfWakeIntoCancelledIsStranded` | agents/task/task_agent_delivery.py:592-597 | a run that keeps every rule but the gate's: a self-wake into a cancelled session is left queued with no runner |
| `SessionRuns.FailedStartStrandsAMessage` | agents/task_agent_lite.py:846-864 | a run that keeps every rule but the drain's: it fails before its first drain and leaves its message with no runner |
| `SessionRuns.UnknownStatusStrandsAMessage` | agents/task_agent_lite.py:699-701 | a run that keeps every rule but the status one: no run starts from an unknown status and the message is left |
| `SessionRuns.DrainTakes` | agents/task/agent/hitl_manager.py:130-137 | a drain takes three at most, and all when there are no more |
| `SessionRuns.MessageIsReadAndTheSessionCompletes` | agents/task_agent_lite.py:589-864 | a run in which a message is posted, read, its session completed and the lock free again |
| `MessageQueue.HitlManager.QueueUserMessage` | agents/task/agent/hitl_manager.py:58-104 | queued at the end exactly when the rate limit has room |
| `MessageQueue.HitlManager.DrainUserMessages` | agents/task/agent/hitl_manager.py:130-148 | the oldest three, in order, and the rest stays |
| `MessageQueue.HitlManager.RestoreState` | agents/task/agent/hitl_manager.py:350-372 | saved messages go before anything queued, in their order |
| `MessageQueue.HitlManager.FlushPending` | agents/task/session/execution.py:218-237 | the early list is handed over whole exactly when the rate limit has room for all of it; otherwise a prefix is queued and the list kept |
| `MessageQueue.FlushOfAFreshAgent` | agents/task/session/execution.py:218-237 | undisturbed, the flush into a fresh agent hands over the whole list in order |
| `MessageQueue.RateRecovers` | agents/task/agent/hitl_manager.py:80-95 | a full rate window takes messages again exactly when enough old ones have left it |
| `MessageQueue.NoMessageLostOrDoubledIff` | agents/task/session_residency.py:71-122 | over whole runs: at every moment every accepted message has been read exactly once or is ahead, if and only if every step was harmless |
| `MessageQueue.MessagesAreKeptIff` | agents/task/task_agent_lifecycle.py:194-262 | one step loses or doubles a message exactly when it evicts an early list, hands over beyond the rate limit, or crashes with memory and file apart |
| `MessageQueue.CrashIsHarmlessIff` | agents/task/session_residency.py:91-108 | a crash keeps every message exactly when nothing was drained since the restore and nothing newer is in memory |
| `MessageQueue.OrderIsKeptIff` | agents/task/session/execution.py:218-237 | a harmless step keeps the order of acceptance exactly when it is no submission during the hand-over |
| `MessageQueue.ReadInOrder` | agents/task/agent/hitl_manager.py:130-148 | over whole harmless runs, what was read and what is ahead is what was accepted, in order |
| `MessageQueue.DequeNeverDrops` | agents/task/agent/hitl_manager.py:43-45 | the queue never grows to the length at which the deque would drop a message |
| `MessageQueue.EvictionLosesAnEarlyMessage` | agents/task/session_residency.py:71-88 | a run in which a message posted before the first run is lost to an eviction |
| `MessageQueue.CrashRepeatsMessages` | agents/task/agent/hitl_manager.py:130-143 | a run in which a crash after a first drain has three messages read again |
| `SessionStatus.LeadsTo` | agents/task/agent/session.py:50-97 | what can lead to each session status; only a running session can complete |
| `SessionStatus.OldSpellings` | agents/task/agent/session.py:468-480 | old spellings move as what they stand for and are never written; an unknown status may move anywhere known |
| `SessionManager.Session.TryTransitionStatus` | agents/task/agent/session.py:555-579 | wins exactly when the stored status is the expected one and the edge exists |
| `SessionManager.Session.UpdateSessionStatus` | agents/task/agent/session.py:444-480 | the status after a plain write, and what it reports |
| `SessionManager.Session.FinishStatus` | agents/task/task_agent_control.py:128-136 | writes exactly from running; any other status is kept |
| `SessionManager.Session.RunSessionImpl` | agents/task_agent_lite.py:595-864 | runs exactly when the input gate passes and the status is runnable: a cancelled session on a person's message, a completed one on any; each refusal exactly when, with the status untouched; the status left by a run |
| `SessionManager.GatesAgree` | agents/task/task_agent_delivery.py:588-599 | the gate of one run is the gate of the interleaved model |
| `SessionManager.ScriptIsARun` | agents/task_agent_lite.py:715-864 | a runner of the interleaved model that meets the same events leaves the status the single run leaves |
| `SessionManager.Session.CloseOnExit` | cli/repl_exit.py:17-26 | cancels exactly the sessions that never finished a turn, keeps every other |
| `SessionManager.Session.ResumeSession` | agents/task/task_agent_control.py:154-171 | writes resumed exactly from a finished status |
| `SessionManager.QuietRunEndsAsItEnded` | agents/task_agent_lite.py:715-864 | with no outside write: completed for a done run, cancelled for a stopped one, suspended for want of credits, failed otherwise |
| `SessionManager.EarlyCancelSurvivesIff` | agents/task/agent/orchestrator.py:435-441 | a cancel before the rebuild point survives exactly when there was no rebuild, or the run ended cancelled and was cleaned up |
| `SessionManager.LateCancelSurvives` | agents/task_agent_lite.py:715-864 | a cancel after the rebuild point survives every exit |
| `SessionManager.LateWriteSurvivesIff` | agents/task/session/cleanup.py:910-923 | for every status written late: exactly when it survives the guarded ending and the cleanup |
| `SessionManager.PauseLostOnlyToACancelledEnding` | agents/task/session/cleanup.py:910-923 | a pause is lost exactly to the cleanup of a run that ends cancelled |
| `BodySlots.SlotsAreConserved` | api/request_limits.py:104-137 | over all interleavings: free plus holders is the concurrency, table entries are holder counts and absent at zero, every ended request freed exactly once |
| `BodySlots.QuiescentIsInitial` | api/request_limits.py:114-137 | once nobody holds a slot, semaphore and table are as at the start |
| `BodySlots.ClientShare` | api/request_limits.py:104-121 | holders whose check and acquire ran undisturbed number at most the share; all of a client's holders fit the semaphore |
| `BodySlots.WaitingAcquireCanExceedTheShare` | api/request_limits.py:105-112 | a run in which two requests of one client wait for a slot, none being free, and then exceed its share |
| `BodySlots.ShareIsExceededIff` | api/request_limits.py:105-112 | a client goes over its share exactly when a request is counted while the table shows the full share |
| `BodySlots.TurnedAwayIff` | api/request_limits.py:104-106 | turned away at the check exactly when the client's entry is at the share |
| `BodySlots.SlotIsGivenBack` | api/request_limits.py:114-137 | replayed, left early, or without a spool: an admitted request gives back the slot and its count, once |
| `BodySlots.StepKeepsTable` | api/request_limits.py:111-121 | every event keeps the table exact |
| `BodyIngress.SlotNeededIff` | api/request_limits.py:43-103 | each answer exactly: a slot for one well-formed length within the cap that promises bytes, or no length where a body is possible; straight through for length 0 or no possible body; 413 for a length over the cap; 400 for anything but one well-formed length (section 6.3 of RFC 9112) |
| `BodyIngress.IntOfDecimal` | api/request_limits.py:94-98 | a length written in decimal is read back as itself |
| `BodyIngress.VerdictsInOrder` | api/request_limits.py:143-165 | each answer to a stream exactly: 408, 413, 503, 400, gone, or the body |
| `BodyIngress.EndsOnce` | api/request_limits.py:143-165 | a stream has one point where the read ends |
| `BodyIngress.ReadyIffBodyWithinBounds` | api/request_limits.py:139-165 | the application gets a body exactly when an in-time, written prefix ends it, within the cap and with the declared length; then it is that prefix |
| `BodyIngress.ReplayIsFaithful` | api/request_limits.py:175-184 | the replayed chunks concatenate to the body, are at most 65536 bytes each, number max(1, ceil(size/65536)), and only the last is final |
| `BodyIngress.Request.Release` | api/request_limits.py:130-137 | frees the slot at the first call and never again |
| `BodyIngress.Request.Read` | api/request_limits.py:139-165 | the spooling loop ends in the stream's one verdict, with the spool holding the body |
| `BodyIngress.Request.Replay` | api/request_limits.py:175-184 | hands over the next part, then the real receive |
| `BodyIngress.Request.Handle` | api/request_limits.py:139-188 | a whole request: the verdict, the parts in order, and exactly one release however it goes |
| `BodyIngress.ReadCapped` | api/webhooks.py:41-56 | the exact concatenation if and only if declared length and streamed total are within the cap |
| `KeyCache.Cache.ValidateCached` | api/api_key_auth.py:57-83 | a hit returns the stored answer and changes nothing; a miss returns the database's answer, stored under the epoch of the write; refusals are never stored |
| `KeyCache.Cache.NoteKeyRevoked` | api/api_key_auth.py:51-54 | bumps the epoch and touches no entry |
| `KeyCache.ServedAnswerIsFresh` | api/api_key_auth.py:65-83 | in every interleaving, what the cache serves is a database answer less than 60 seconds old for an unexpired key |
| `KeyCache.AnswerIff` | api/api_key_auth.py:108-155 | the database vouches for a key exactly while its row is active and unexpired |
| `KeyCache.WriteStoresIff` | api/api_key_auth.py:72-83 | a lookup's last step stores exactly an unexpired answer, under the epoch of the write, for 60 seconds and the key's life at most; otherwise the entry goes |
| `KeyCache.EntriesEnd` | api/api_key_auth.py:65-71 | an entry is served on exactly until its time, its key's expiry, or an eviction |
| `KeyCache.RevokedKeyDiesWithinTtl` | api/api_key_auth.py:41-44 | a revoked key is served for less than 60 seconds after its row was switched off |
| `KeyCache.EntryStoredBeforeBumpIsDead` | api/api_key_auth.py:67-71 | no entry stored before a bump is served after it, under every eviction |
| `KeyCache.AnnouncedKeyServedOnlyAcrossABump` | api/api_key_auth.py:72-83 | an announced key is served only from an entry whose lookup had a bump between read and write |
| `KeyCache.AnnouncedWriteServesIff` | api/api_key_auth.py:72-83 | the write of an announced key's lookup makes it served exactly when its answer is good and its time not over, and then the answer predates the bump |
| `KeyCache.RevocationIsImmediate` | api/auth_endpoints.py:469-473 | with no bump inside a lookup of that key, it is never served from its bump on |
| `KeyCache.RevocationIsImmediateIff` | api/api_key_auth.py:41-44 | in a whole run a key is never served after its bump if and only if no lookup of it writes a good, timely answer after that bump |
| `KeyCache.BumpDuringLookupServesRevokedKey` | api/api_key_auth.py:72-83 | a run in which a revoked, announced key is served |
| `KeyCache.StepKeepsInv` | api/api_key_auth.py:57-83 | every event keeps entries and lookups backed by database answers |
| `TokenTable.Table.ValidateBearer` | api/middleware.py:330-390 | a three-part token authenticates exactly when it decodes now, as the identity decoded from that token, cached or not; any other bearer can only be an API key |
| `TokenTable.Table.ValidateApiKey` | api/middleware.py:398-421 | the cache rule over the shared table: a miss stores the database's own answer under the current epoch for at most 60 seconds and the key's life, a refusal stores nothing; no session identity, no other entry touched |
| `TokenTable.PresentTwice` | api/api_key_auth.py:65-83 | a key presented twice with one database answer is the same identity, from the cache or not |
| `TokenTable.DotsAddUp` | api/middleware.py:350-351 | a token's parts are counted by its dots |
| `RateLimiter.Limiter.CheckRateLimit` | api/middleware.py:60-111 | decision and new state are the specification's, and no other user's state moves |
| `RateLimiter.Limiter.Sweep` | core/rate_limit.py:244-253 | the sweep of the tables forgets exactly the idle keys |
| `RateLimiter.DeniedCallLeavesNoTraceIff` | api/middleware.py:63-64 | a denied call leaves tokens and both windows as they would be at every later moment exactly when it opened no window |
| `RateLimiter.OnlyHourDenialsOpenWindows` | api/middleware.py:91-99 | with positive limits only an hour denial can open a window, the minute one |
| `RateLimiter.DeletingDeniedCallsChangesNothing` | api/middleware.py:60-111 | deleting all denied calls from a history leaves the admitted calls and all later tokens and windows unchanged, when no denial opened a window |
| `RateLimiter.OnlyLastMinuteDenialsMatter` | api/middleware.py:81-103 | deleting all denied calls leaves the admitted calls and the next decision unchanged, when no denied call opens a minute window that outlives its hour window |
| `RateLimiter.HourDenialCanChangeALaterDecision` | api/middleware.py:81-99 | a history in which deleting one denied call changes a later decision |
| `RateLimiter.SweepIsInvisible` | core/rate_limit.py:244-253 | forgetting an idle key changes nothing a later decision looks at |
| `RateLimiter.BurstBound` | api/middleware.py:48-51 | any d seconds admit at most burst times (1 + d) calls of one user |
| `RateLimiter.WindowBound` | core/rate_limit.py:286-334 | a window admits at most its limit, and less than n windows at most n + 1 times it |
| `ProfileDigest.ParseUndoesPrint` | cli/profile_review.py:49-56 | a parser undoes the printer on every list of files with lengths below 2^64 |
| `ProfileDigest.PrintUndoesParse` | cli/profile_review.py:49-56 | a stream that parses is the print of what it parses to |
| `ProfileDigest.DistinctInventoriesDistinctStreams` | cli/profile_review.py:45-57 | equal streams come from equal inventories |
| `ProfileDigest.PosixIsInjective` | cli/profile_review.py:50-50 | the written name determines the path |
| `ProfileDigest.SortSorts` | cli/profile_review.py:47-47 | the listing in path order, nothing added or lost |
| `ProfileDigest.BytesBelowIff` | cli/profile_review.py:47-47 | names are ordered by their first difference, a prefix first |
| `ProfileDigest.PathBelowIff` | cli/profile_review.py:47-47 | paths are ordered by their first different component, a directory before what is in it |
| `ProfileDigest.StreamIgnoresEnumerationOrder` | cli/profile_review.py:45-57 | the stream does not depend on the order the directory is listed in |
| `ProfileDigest.StreamDeterminesFiles` | cli/profile_review.py:45-57 | equal streams come from the same paths, executable bits and contents |
| `ProfileDigest.Inventory` | cli/profile_review.py:45-57 | the digest loop is fed exactly the stream, and the names come in path order |
| `ProfileDigest.ApprovalBindsContent` | cli/profile_review.py:180-197 | with no collision between the two streams, approving one profile's digest approves another exactly when both hold the same files |
| `Snapshot.KeptIff` | cli/profile_review.py:21-22 | an entry is copied exactly when nothing on its path is a directory, or a link to one, called `.git` |
| `Snapshot.AcceptedIff` | cli/profile_review.py:11-13 | the limits in numbers: 1000 files, 4 MiB each, 64 MiB in all |
| `Snapshot.TakeSnapshot` | cli/profile_review.py:16-42 | for every listing order, accepted exactly when every kept entry is a directory or a single-link file and the limits hold of the whole tree; the copy is the pruned source; a refusal's reason is true |
| `Snapshot.CopyEntry` | cli/profile_review.py:24-41 | after each entry the copy is still a faithful, exactly counted part of the pruned source; a refusal names a reason true of the whole tree |
| `Snapshot.CopyingTwiceChangesNothing` | cli/profile_review.py:16-42 | a copy of an accepted copy is accepted and equal to it |
| `Snapshot.InventoryOfTheCopyIsOfTheSource` | cli/profile_review.py:16-57 | the copy's inventory is that of the source without `.git` directories, within the limits |
| `Snapshot.InventoryDeterminesFiles` | cli/profile_review.py:45-57 | two inventories hash the same bytes exactly when the trees hold the same files |
| `ForwardedIp.ForgedHeaderCannotHideTheClient` | api/dependencies.py:126-141 | whatever header the client sends and however many trusted proxies append to it, the answer is the address the first of them saw |
| `ForwardedIp.AnswerIsTheLastOutsideHop` | api/dependencies.py:137-141 | behind a trusted peer the answer is the last hop outside the proxies, or the peer when there is none |
| `ForwardedIp.LeftOfAnOutsideHopIsIgnored` | api/dependencies.py:137-141 | nothing left of an address outside the proxies changes the answer |
| `ForwardedIp.HeaderIgnoredIff` | api/dependencies.py:131-133 | the header has no effect exactly when the peer is not a trusted proxy |
| `ForwardedIp.TrustedListIsItsPieces` | api/dependencies.py:86-94 | a padded address appended to the environment list adds exactly that address |
| `ForwardedIp.LoopbackIsTrusted` | api/dependencies.py:83-94 | loopback is always trusted, and alone without a list |
| `Text.AddressesKeepTheirCharacters` | api/dependencies.py:137-137 | no character of an address is stripped; blanks, tabs and line ends are |
| `ForwardedIp.SameBudgetIff` | api/dependencies.py:144-162 | two addresses share a rate key exactly when both are IPv4, mapped or not (section 2.5.5.2 of RFC 4291), and equal, or neither is and their upper 64 bits agree |
| `ForwardedIp.OtherTextsKeepToThemselves` | api/dependencies.py:151-157 | what is no address is its own key and shares it with nothing else |
| `Workspace.ResolvedIsPhysical` | api/task_workspace.py:49-60 | resolution ends on a path without links, whatever it went through |
| `Workspace.ResolveIsIdentity` | api/task_workspace.py:49-60 | resolution is the identity on a path without links |
| `Workspace.LinkLeads` | api/task_workspace.py:59-60 | a link leads to its target, from the top if absolute, else from the directory it stands in |
| `Workspace.UpLeadsBack` | api/task_workspace.py:59-60 | `..` leads back to where the name before it was looked up |
| `Workspace.ResolveWorkspaceFile` | api/task_workspace.py:25-67 | the route's refusals and probe loop give the specified reply |
| `Workspace.ProbedPathIsExact` | api/task_workspace.py:52-64 | after the probe the resolved path is the target itself, so the two later refusals never happen |
| `Workspace.ReplyIff` | api/task_workspace.py:41-67 | each reply exactly when; a served path is root plus the components, a regular file, no link on the way |
| `Workspace.BadTextIff` | api/task_workspace.py:41-47 | the text is refused exactly when it is blank, starts with a slash, or has a piece `..` |
| `Workspace.ServedIsConfined` | api/task_workspace.py:28-37 | a served file lies under the resolved workspace, strictly when that is a directory, and opening it follows no link |
| `Workspace.EveryFileIsServedIff` | api/task_workspace.py:41-48 | every regular file behind no link is served under its own name, unless that name is white space only |
| `FileReadiness.Scan` | api/task_http_api.py:1580-1597 | one attempt reports the missing and the unreadable files, in order |
| `FileReadiness.VerifyFilesReady` | api/task_http_api.py:1546-1628 | ready at the first attempt that finds every file; otherwise the last attempt's problems; refused paths and a non-positive limit exactly |
| `FileReadiness.PathRefusedIff` | api/task_http_api.py:1572-1573 | a path is refused exactly when it starts with a slash or has a piece `..` |
| `FileReadiness.LinearFromFive` | api/task_http_api.py:1575-1620 | from the sixth attempt on the pause is two seconds and the waiting linear |
| `FileReadiness.AttemptsAreBounded` | api/task_http_api.py:1575-1620 | total wait below the limit plus two seconds; at most 5 + ceil((limit - 3.1)/2) attempts above 3.1 seconds, reached exactly by a call that gives up |
| `MessageIntake.Orchestrator.Submit` | agents/task/session/hitl_ingress.py:146-243 | a line is stored, pushed back or dropped by an agent that cannot receive, and the queue after it |
| `MessageIntake.EnsureSessionAndDeliver` | agents/task/task_agent_delivery.py:290-344 | delivered, busy or gone, and the queue after it |
| `MessageIntake.SendUserMessage` | api/task_http_api.py:178-697 | the reply, the effects in order and both queues, for every gate, status, orchestrator and restart; each refusal code in the handler's order and nothing done before every gate is passed; at most one copy, at most one run, the copy first |
| `MessageIntake.QueuesAgree` | agents/task/session/hitl_ingress.py:199-236 | the queue model and the handler's model take the same submissions |
| `MessageIntake.RefusedDidNothing` | api/task_http_api.py:671-697 | an error reply left no copy and asked for no run |
| `MessageIntake.SuccessWithoutACopyIff` | api/task_http_api.py:372-475 | exactly when a success reply hides that nothing was queued |
| `MessageIntake.FailureWithACopyIff` | api/task_http_api.py:485-577 | exactly when a failure reply hides that the message is queued |
| `MessageIntake.CancelledIsResumableInNameOnly` | api/task_http_api.py:74-77 | a cancelled session refuses every message, though listed as resumable; it is the one such status |

## Left out

- PayInvoice: requires that a pending row has no marker, which `OpenInvoicesAreUnmarked` proves of every reachable table; the interleaved protocol is `Settlement`.
- AtMostOnePaymentAccepted: with the resolver it covers runs whose reopens are sound; `ReopenIsSafeIff` shows that no weaker condition will do.
- ReopenIsSafeIff: is about an invoice whose deadline has not passed at the reopen, so that a new payer is still let in; server and chain share one clock, and a facilitator's explicit refusal is final.
- AnnouncedKeyServedOnlyAcrossABump: is the necessary direction; `AnnouncedWriteServesIff` is both.
- RevocationIsImmediate: covers runs in which no bump falls inside a lookup of the key; `RevocationIsImmediateIff` is exact.
- DeletingDeniedCallsChangesNothing: covers histories in which no denied call opens a window; `HourDenialCanChangeALaterDecision` shows why, `OnlyLastMinuteDenialsMatter` which openings can matter to a decision. Whether one does depends further on the limits and the tokens to hand.
- QueuedMessageHasItsRunner: a drain takes any three queued messages; the order is `MessageQueue`'s. One-shot ephemerals are no input to the gate.
- FlushPending: a list kept after a failed hand-over is handed to the next agent created, a sub-agent's creation included; that is not modelled.
- HitlManager: the deque's own limit is a precondition that `DequeNeverDrops` discharges; timestamps are a count.
- ApprovalBindsContent: assumes the hash does not collide on the two streams compared.
- PosixIsInjective: file names are byte strings without a slash; surrogate escapes are not modelled.
- TakeSnapshot: the directory listing is any duplicate-free enumeration, so `sorted` is not fixed; permission errors and races with the walk are not modelled.
- VerifyFilesReady: arithmetic over reals, not floating point.
- ResolveWorkspaceFile: the number of links after which resolution gives up is a parameter of every theorem; races between check and open and NUL characters are not modelled.
- SendUserMessage: the text and images injected from attached files, the feed and telemetry are not modelled; whether the agent's rate limit is exceeded is an input.
- SameBudgetIff: the textual address parser is a parameter; IPv6 scope ids are not modelled.
- SlotsAreConserved: `asyncio.Semaphore` is a counter taken in one step; its wait queue is not modelled.
- GateFor: Python's 4300-digit limit on integer text is not modelled.
- Facilitator and chain input and output are nondeterministic outcomes; `to_atomic_amount` is an arbitrary value per row.
- TokenTable: a miss reads the database and stores the entry in one step, `KeyCache` has the two apart; eviction from the bounded table is not modelled.
- OwnerResolve: the void of a held row waits for the invoice's deadline, as the code does (`modules/x402/invoice_reaper.py:247-249` speaks of the authorization's); whether a payment still lands after it is not stated.
- Claim ages and the expiry's deadlines in the interleaved settlement model: the reaper and the expiry may strike at any time, which covers every age.
- Machine payments, Solana scanning, amount jitter, wake and notification bookkeeping.
- Orchestrator cleanup, history saving, room turns and the agent loop: a run drains what is queued and ends in one of the listed outcomes.
- Cross-process session routing and persistence of session metadata.
- `changed_paths`, the review report's text, admin and MCP endpoints, pydantic models and routers: one branch each or plumbing.
