# Verified model of the CLI provider gateway

A Dafny model of the protocol cores of a gateway that runs coding-agent CLIs
behind an HTTP API, and proofs about them over every run. `dafny verify
dfyconfig.toml` checks the whole project.

Code between two suspension points of the cooperative event loop, and every
SQLite transaction, is one atomic step. Each protocol is a state and a set of
steps; its main results hold in every state of every finite run. Where the
original keeps mutable objects, a class with the same fields has one method per
atomic section, proved to move the abstract state by exactly that step.

Safety results are kept by a system that refuses everything. Each protocol therefore
has a second set of results: what every call answers, exactly when, over its inputs
alone, and that runs which should succeed do.

* **Run lifecycle** (`Lifecycle.dfy`, `LifecycleProofs.dfy`, `LifecycleTraces.dfy`,
  `LifecycleOutcomes.dfy`, `SubmitVerdicts.dfy`, `RunController.dfy`).
  Durable attempts, the run task, the Runner's side of the run RPC, cancels,
  quarantine and crash/restart. At most one attempt per task ever executes, and
  nothing is dispatched over an unresolved outcome. A run is named by the position
  of its attempt row, which is the order the store sorts by. The fields `executed`
  and `driverLive` are history, never read by a step.
* **Admission** (`Admission.dfy`). Outstanding counters and the two semaphores,
  with the acquire task that an outside cancellation leaves behind.
  `AdmissionRefinement.dfy` shows that this protocol gives the run lifecycle the free
  permit it assumes.
* **Runner slot** (`RunnerSlot.dfy`, `RunnerSlotOutcomes.dfy`). Arrival, queue, slot,
  queued cancels and shutdown of the Runner. `RunnerRefinement.dfy` shows that this protocol only makes
  the moves that the run lifecycle assumes of a Runner.
* **Event pipeline** (`Pipeline.dfy`, `SseReplay.dfy`). Driver, Runner, session,
  store and SSE replay, stage by stage and composed.
* **Dispatch receipts** (`DispatchStore.dfy`, `DispatchProtocol.dfy`,
  `DispatchOutcomes.dfy`, `ReviewHandoff.dfy`). The receipt and approval ledger, the
  tick that drives it, operator commands racing it, and the review handoff.
* **Fenced connection** (`FencedConnection.dfy`). Guards checked under the board's
  write lock, for arbitrary mutators and foreign commits, and exactly which calls of
  a mutator go round them, and which mutations go through.
* **Catalog** (`AliasNames.dfy`, `Catalog.dfy`, `CatalogProofs.dfy`,
  `CatalogOutcomes.dfy`). Alias resolution, the listings and the refresh scopes, which are separate copies of
  one authorization relation and are proved to agree.
* **Registry** (`Registries.dfy`, `RegistryProofs.dfy`, `RegistryTraces.dfy`,
  `RegistryOutcomes.dfy`). Verification passes, freshness marks and derived presets, composed with alias resolution.
* **Native drivers** (`Devin*.dfy`, `Antigravity*.dfy`). The two frame machines.

Where the code differs from what its comments or documentation promise, the model
follows the code:

* `_GuardedConn` is documented as gating every statement, but an execute returns
  sqlite3's own cursor, whose statements are not gated, and the proxies pass on what
  they do not define: a cursor's `executescript` and `connection`, and the
  connection's other writing methods (`FencedConnection.ReturnedCursorIsNotFenced`,
  `RawBeginDisarmsTheGate`, `CursorScriptIsNotFenced`). Exactly the other calls keep
  the fence in every state (`SafeIffNotBypassing`), and a mutator that makes only those
  changes the board only under its guards (`ChangesOnlyUnderGuards`).
* A driver that was not asked to stop reports its result whether or not it saw its
  CLI stop (`DevinProofs.StopMattersIffAsked`, `AntigravityProofs.StopMattersIffAsked`).
  Such a result quarantines nothing, so a later run may be sent while the earlier CLI
  is alive (`LifecycleTraces.SentOverALiveDriver`), and only then
  (`LifecycleProofs.NeverDispatchesOverUnresolved`).
* An append that goes over the output budget stores its event before it raises,
  and sets no wakeup (`SseReplay.OverBudgetSleepIsReachable`).
* `/v1/models` lists catalog ids of up to 128 characters, but an alias segment has
  at most 64, so such rows fail when requested (`CatalogProofs.LongIdsAreListedButFail`,
  `AnyIdCanBeListed`).
* The Runner's bounded queue can be exceeded by arrivals that find the slot still
  unlocked (`RunnerSlot.QueueBoundedIff`, `BurstExceedsTheBound`).
* A refresh that is cancelled after a runner's report leaves that runner's presets
  on the previous report (`RegistryTraces.StrandedPresetIsReachable`).
* A queued cancel is confirmed whenever its reply is timely: the check that the run
  was not started can never fail (`RunnerSlot.TimelyReplyConfirms`).
* Devin takes an id-less frame with a result or error as a response while it waits
  for a mode acknowledgement (`DevinProofs.StrayErrorFailsTheRun`).
* `submit`'s cached-replay fallback after `NotRetryable` is unreachable, since
  nothing suspends between its two checks; `RunController.SubmitRun` asserts so.
* A kernel error on the cancelled path calls a helper with no kernel
  (`dispatch.py`, lines 527-534), which raises; the model ends the tick there.

## Model

| member | source | states |
|---|---|---|
| `LifecycleProofs.AtMostOneExecution` | packages/core/src/cli_provider_core/controller.py:163-322 | over every interleaving of submits, cancels, queue timeouts, Runner replies, crashes and restarts, at most one attempt of a (principal, task) ever has its driver started |
| `LifecycleProofs.PrecheckAgreesWithReserve` | packages/core/src/cli_provider_core/store.py:276-334 | in every reachable state submit's look at the newest attempt admits exactly what reserve's whole-history SQL check admits |
| `LifecycleProofs.LogicalLockUnique` | packages/core/src/cli_provider_core/store.py:71-73 | the partial unique index on (principal, task) over active and unknown statuses is never violated |
| `LifecycleProofs.NeverDispatchesOverUnresolved` | packages/core/src/cli_provider_core/controller.py:443-498 | with one permit per instance, whenever a run RPC is sent, every run started there earlier by this process has a validated terminal; its CLI is still alive if and only if that result was concluded over a stop that was not confirmed and it has not stopped since |
| `LifecycleTraces.SentOverALiveDriver` | drivers/devin/src/cli_driver_devin/__init__.py:1389-1427 | such a dispatch is reachable: a failure reported over an unconfirmed stop quarantines nothing, so the next run is sent to the instance while the earlier CLI is alive |
| `LifecycleProofs.StatusMovesDownOnlyOnLateFailure` | packages/core/src/cli_provider_core/controller.py:603-660 | a step lowers a run's status rank if and only if it is a session-close failure (or outside cancellation) after a validated result was stored |
| `LifecycleProofs.ValidatedTerminalIsFinal` | packages/core/src/cli_provider_core/controller.py:724-836 | no cancel, late reply, crash or restart replaces a validated terminal, unless the session close fails right after it |
| `LifecycleProofs.TwoPermitsLoseTheQuarantine` | packages/core/src/cli_provider_core/store.py:505-534 | with two runs of one instance streaming at once, the overwritten quarantine row would be lifted while a driver is still alive: capacity 1 is needed |
| `LifecycleOutcomes.RowsAreTruthful` | packages/core/src/cli_provider_core/controller.py:500-640 | in every reachable state a row's terminal status and outcome are what the Runner answered, a rejection before any effect, or how the run left the queue undispatched; an unfinished row has no outcome |
| `LifecycleOutcomes.QueuedRunIsServed` | packages/core/src/cli_provider_core/controller.py:324-498 | from every reachable state a queued run whose instance is free and not quarantined can be dispatched, executed and finished with whatever validated result its Runner answers; its row then says so and nothing else changed |
| `LifecycleOutcomes.QueuedRunIsCancelled` | packages/core/src/cli_provider_core/controller.py:724-770 | from every reachable state a queued run can be cancelled: recorded as cancelled, never dispatched, and nothing else changed |
| `LifecycleOutcomes.ReachableVerdicts` | packages/core/src/cli_provider_core/controller.py:192-255 | in every reachable state the newest attempt alone decides: content conflict, run active, not retryable and a fresh attempt are each given exactly when its row and the deployment call for it |
| `LifecycleOutcomes.MoveReplies` | apps/runner/src/cli_provider_runner/server.py:373-487 | the reply of each move of the Runner |
| `LifecycleOutcomes.MoveDrives` | apps/runner/src/cli_provider_runner/server.py:489-640 | what each move of the Runner does to the driver |
| `LifecycleOutcomes.MoveRecords` | apps/runner/src/cli_provider_runner/server.py:373-640 | and which moves send an event or start the driver |
| `SubmitVerdicts.SubmitAnswers` | packages/core/src/cli_provider_core/controller.py:163-322 | in every state, for every request, each of the ten verdicts is given if and only if the attempt rows, tasks and quarantine rows call for it: a completed task is replayed to the same model and refused to another; only a fresh attempt changes the state, by one queued row |
| `Lifecycle.BlockerMirrorsPython` | packages/core/src/cli_provider_core/store.py:120-151 | the SQL blocker filter under three-valued logic and the Python predicate are complementary on every row, a NULL outcome included |
| `Lifecycle.BareComparisonFailsOpen` | packages/core/src/cli_provider_core/store.py:120-151 | without COALESCE the filter is wrong exactly on failed rows with no outcome |
| `RunControllers.RunController.SubmitRun` | packages/core/src/cli_provider_core/controller.py:163-322 | the same of the object's own rows: each verdict exactly when they call for it, and the one row that a fresh attempt adds |
| `RunControllers.RunController.ReserveAttempt` | packages/core/src/cli_provider_core/store.py:245-342 | reserve inserts the attempt and its task exactly when no lock and no blocker is in the history |
| `RunControllers.RunController.SetAttempt` | packages/core/src/cli_provider_core/store.py:360-407 | set_attempt rewrites the named columns of one attempt row and nothing else |
| `RunControllers.RunController.FinishRun` | packages/core/src/cli_provider_core/controller.py:603-640 | a validated result is stored and lifts the quarantine row only if that row names this run |
| `RunControllers.RunController.WakeRun` | packages/core/src/cli_provider_core/controller.py:337-350 | a queued run wakes acquired, timed out, failed or cancelled, and a quarantined instance rejects it |
| `RunControllers.RunController.FirstEvent` | packages/core/src/cli_provider_core/controller.py:548-556 | the first event makes a starting run running and never takes a cancelling one back |
| `RunControllers.RunController.StreamReply` | packages/core/src/cli_provider_core/controller.py:500-601 | a reply becomes a stored result, a no-effect rejection, or an unknown outcome with a quarantine |
| `RunControllers.RunController.TaskFails` | packages/core/src/cli_provider_core/controller.py:439-483 | every other end of a run's task records unknown and quarantines the instance |
| `RunControllers.RunController.CancelRun` | packages/core/src/cli_provider_core/controller.py:724-788 | cancel finishes an orphaned queued run, flags a waiting one, and marks a dispatched one cancelling |
| `RunControllers.RunController.CancelRunReturns` | packages/core/src/cli_provider_core/controller.py:790-836 | after its bounded waits a cancel leaves a terminal alone and otherwise records unknown and quarantines |
| `RunControllers.RunController.ReconcileRestart` | packages/core/src/cli_provider_core/store.py:200-212 | restart turns every active attempt into unknown and leaves the others and the quarantine rows |
| `Admission.PermitsConserved` | packages/core/src/cli_provider_core/controller.py:128-161 | per runner and per principal, free permits plus held ones equal the capacity, and the outstanding counter is the number of active runs, within active limit plus queue limit |
| `AdmissionRefinement.NoticeFindsPermitFree` | packages/core/src/cli_provider_core/controller.py:337-350 | with capacity 1, in every reachable state of admission a run that wakes with its slots finds no other run holding its instance, which is what the run lifecycle assumes of a wake |
| `AdmissionRefinement.OrphanBlocksDispatch` | packages/core/src/cli_provider_core/controller.py:443-451 | while an acquire task left behind holds an instance's one permit, no run of that instance is dispatched |
| `AdmissionRefinement.SubmitTogether` | packages/core/src/cli_provider_core/controller.py:247-322 | submit moves the lifecycle and the admission books together, the books deciding queue_full |
| `AdmissionRefinement.NoticeTogether` | packages/core/src/cli_provider_core/controller.py:337-350 | so does a wake with both slots |
| `AdmissionRefinement.EndTogether` | packages/core/src/cli_provider_core/controller.py:484-498 | and so does every end of a run's task |
| `Admission.LiveRunsAccountIffNoOrphanHolds` | packages/core/src/cli_provider_core/controller.py:443-451 | live runs alone account for the permits if and only if no acquire task left behind by an outside cancellation holds one |
| `Admission.OrphanWithBothIsForever` | packages/core/src/cli_provider_core/controller.py:443-451 | an acquire task left behind with both permits is never released by any step |
| `Admission.SizesAre` | packages/core/src/cli_provider_core/controller.py:128-155 | a runner's semaphore has the smaller of the configured and the verified capacity but at least one permit, a principal's the smaller of the global cap and its own; a run is refused exactly when a counter is at its bound |
| `Admission.QueuedRunGetsItsSlots` | packages/core/src/cli_provider_core/controller.py:324-350 | a queued run for which both semaphores have a permit takes one of each and resumes with both |
| `AdmissionController.Slots.SubmitRun` | packages/core/src/cli_provider_core/controller.py:247-322 | submit's admission: queue_full exactly when a counter is at its bound, and then nothing changes |
| `AdmissionController.Slots.FinishRun` | packages/core/src/cli_provider_core/controller.py:484-498 | a finished run gives back both permits and both counters |
| `AdmissionController.Slots.LeaveQueue` | packages/core/src/cli_provider_core/controller.py:337-350 | a run that leaves the queue gives back what it had acquired, no more |
| `RunnerSlot.SlotConserved` | apps/runner/src/cli_provider_runner/server.py:414-487 | the slot is free or held by exactly one run and the queue counter equals the handlers waiting, over every run of the server, shutdown included |
| `RunnerSlot.AtMostOneStarted` | apps/runner/src/cli_provider_runner/server.py:414-487 | while the Runner serves, a started run holds the slot until its handler exits, so two started runs never overlap |
| `RunnerSlot.ShutdownStartsWithoutTheSlot` | apps/runner/src/cli_provider_runner/server.py:211-218 | shutdown lets a queued run start beside the running one without the slot |
| `RunnerSlot.QueuedCancelNeverExecutes` | apps/runner/src/cli_provider_runner/server.py:845-874 | a cancel that found the run queued wins every race with slot acquisition: the driver is never called for it, then or later |
| `RunnerSlot.ConfirmedMeansNeverExecuted` | apps/runner/src/cli_provider_runner/server.py:845-874 | a confirmed queued cancel is true for good |
| `RunnerSlot.TimelyReplyConfirms` | apps/runner/src/cli_provider_runner/server.py:850-858 | a queued cancel answered before its deadline always confirms |
| `RunnerSlot.QueueBoundedIff` | apps/runner/src/cli_provider_runner/server.py:404-423 | the queue stays within its bound over a run if and only if no arrival meets a full queue while the slot is still unlocked |
| `RunnerSlot.BurstExceedsTheBound` | apps/runner/src/cli_provider_runner/server.py:404-423 | and that happens: n runs that arrive before any acquire task has run are all queued, for every n and every bound |
| `RunnerSlotOutcomes.ArrivalDecides` | apps/runner/src/cli_provider_runner/server.py:373-412 | each verdict on an arrival exactly when the request, the table and the queue call for it |
| `RunnerSlotOutcomes.WaitingRunIsServed` | apps/runner/src/cli_provider_runner/server.py:414-487 | in every reachable state with the slot free, any uncancelled waiting run can be granted it, executed and finished, and then gives it back |
| `RunnerServers.RunnerServer.HandleRun` | apps/runner/src/cli_provider_runner/server.py:373-423 | arrival is refused for its parameters, its binding, a duplicate id or a full queue, in that order, changing nothing, or is queued |
| `RunnerServers.RunnerServer.WaitEnds` | apps/runner/src/cli_provider_runner/server.py:425-462 | the wait's end starts the run, answers a cancelled one, or withdraws its acquire |
| `RunnerServers.RunnerServer.AcquireCancelled` | apps/runner/src/cli_provider_runner/server.py:436-462 | a withdrawn acquire that had got the slot keeps it, and the run goes on or is answered as cancelled |
| `RunnerServers.RunnerServer.HandleCancel` | apps/runner/src/cli_provider_runner/server.py:828-849 | a cancel marks exactly a run that is in the table, queued and not started |
| `RunnerServers.RunnerServer.HandlerExits` | apps/runner/src/cli_provider_runner/server.py:477-487 | every exit path releases exactly what was acquired |
| `RunnerServers.RunnerServer.QueuedCancelReplies` | apps/runner/src/cli_provider_runner/server.py:845-874 | the reply to a queued cancel confirms exactly when it is timely |
| `RunnerRefinement.ArrivalIsAMove` | apps/runner/src/cli_provider_runner/server.py:386-412 | an arrival's verdict is a move of the run lifecycle: denied, rejected with a no-effect code, or accepted |
| `RunnerRefinement.StepIsAMove` | apps/runner/src/cli_provider_runner/server.py:414-487 | every server step is, for each unfinished run, no move or one the lifecycle allows; a handler ends only by a reply its state allows |
| `Pipeline.Consume` | apps/runner/src/cli_provider_runner/server.py:642-743 | the Runner forwards exactly the longest valid prefix; its result is other than unknown if and only if the whole stream is valid with one terminal in last place, the driver did not crash and the client stayed connected, and is then completed and succeeded or partial, failed or cancelled exactly as that last event says |
| `Pipeline.ReadRun` | packages/core/src/cli_provider_core/runner.py:165-220 | the session yields exactly the leading in-order events of its own request and ends on the first frame after them, retryable only before any event |
| `Pipeline.StoreStream` | packages/core/src/cli_provider_core/controller.py:500-601 | within the budgets exactly the yielded events are stored and the result with their summary; past a budget storing stops at a stated point |
| `Pipeline.DriverToStore` | packages/core/src/cli_provider_core/controller.py:537-601 | composed end to end, for every driver stream, crash, lost connection and budget: the store holds exactly what the connection carried of the longest valid prefix, cut where a budget says; a result is stored if and only if the reply arrived within the budgets, is other than unknown if and only if the stream is complete, and has the status and outcome of its last event |
| `Pipeline.LongestValidIsUnique` | apps/runner/src/cli_provider_runner/server.py:642-743 | a stream has one longest valid prefix |
| `Pipeline.PageIsNextSlice` | packages/core/src/cli_provider_core/store.py:433-451 | a page of events after a cursor is the next slice of the stored stream |
| `Pipeline.RowsOfContiguous` | packages/core/src/cli_provider_core/store.py:411-431 | rows keyed by sequence hold a contiguous stream without gaps or losses |
| `Pipeline.SummaryGrows` | packages/core/src/cli_provider_core/controller.py:537-573 | the stored summary grows by the text of each delta, and is absent exactly without one |
| `Pipeline.Utf8Appends` | packages/core/src/cli_provider_core/controller.py:557-562 | output is counted in UTF-8 bytes, one to four a character by its code point |
| `Pipeline.BytesGrowBy` | packages/core/src/cli_provider_core/controller.py:557-562 | and of deltas only |
| `SseReplay.EmittedExactlyOnceInOrder` | apps/api/src/cli_provider_api/sse.py:70-98 | at every moment the client was sent exactly the stored deltas up to the reader's cursor, each once and in order |
| `SseReplay.NoLostWakeup` | apps/api/src/cli_provider_api/sse.py:70-98 | the reader never sleeps on a cleared wakeup after the run ended, nor over a backlog, one stated exception apart |
| `SseReplay.OverBudgetEventSleeps` | packages/core/src/cli_provider_core/controller.py:557-568 | that exception: the event stored by an append over the output budget wakes nobody |
| `SseReplay.OverBudgetSleepIsReachable` | packages/core/src/cli_provider_core/controller.py:557-568 | and it is reached: for every text that breaks the budget, four steps leave the reader asleep, its wakeup cleared, over a stored event |
| `SseReplay.CompletedStreamEqualsCachedReplay` | apps/api/src/cli_provider_api/sse.py:127-165 | a completed stream's text equals the stored summary that a cached replay and a non-stream response send |
| `SseReplay.DrainToEnd` | apps/api/src/cli_provider_api/sse.py:70-98 | once the run has ended the reader alone replays the whole backlog, page after page, and finishes |
| `SseReplay.CatchUp` | apps/api/src/cli_provider_api/sse.py:70-98 | from any sleep over a live run the keepalive brings the reader through the whole backlog, an over-budget event included |
| `SseReplay.RunTells` | packages/core/src/cli_provider_core/controller.py:537-568 | what each step of the run stores and whether it wakes the readers |
| `SseReplay.ProbeDecides` | apps/api/src/cli_provider_api/sse.py:92-98 | the reader stops for a client that is gone and sleeps otherwise |
| `DispatchLedger.ApprovalsAreLinear` | packages/kanban/src/cli_provider_kanban/store.py:256-318 | over every history of calls, an approval is consumed if and only if exactly one reservation was paid with it, of identical scope, decided by an allowed actor and unexpired |
| `DispatchLedger.OneLiveReceipt` | packages/kanban/src/cli_provider_kanban/store.py:77-84 | at most one receipt per task and per workspace is in a blocking state |
| `DispatchLedger.OneWayDoors` | packages/kanban/src/cli_provider_kanban/store.py:350-423 | no call takes a receipt out of a one-way state, withdraws a cancel or rewrites a scope |
| `DispatchStores.DispatchStore.ReserveReceipt` | packages/kanban/src/cli_provider_kanban/store.py:256-318 | grant consumption and insert are one transaction: a uniqueness failure burns nothing |
| `DispatchStores.DispatchStore.MoveReceipt` | packages/kanban/src/cli_provider_kanban/store.py:350-398 | a transition is refused exactly for a missing or one-way receipt or a guarded cancel, and then changes nothing |
| `DispatchStores.DispatchStore.CancelReceipt` | packages/kanban/src/cli_provider_kanban/store.py:412-423 | a cancel request is recorded on that receipt alone |
| `DispatchStores.DispatchStore.CreateApproval` | packages/kanban/src/cli_provider_kanban/store.py:427-471 | an approval without actors is refused, a pending one for the same scope is reused |
| `DispatchStores.DispatchStore.FindAppliedGrant` | packages/kanban/src/cli_provider_kanban/store.py:504-529 | expired grants are marked, and the newest grant for the exact scope is found if there is any |
| `DispatchStores.DispatchStore.DecideApproval` | packages/kanban/src/cli_provider_kanban/store.py:531-571 | only a pending, unexpired approval is decided, by an actor on its list |
| `DispatchProtocol.SubmittedStaysBlocking` | packages/kanban/src/cli_provider_kanban/dispatch.py:743-895 | with crashes anywhere and control commands interleaved, a submitted receipt stays in a blocking state until its request has ended or a cancel is recorded |
| `DispatchProtocol.OneUncancelledExecution` | packages/kanban/src/cli_provider_kanban/dispatch.py:502-536 | per task and per workspace at most one uncancelled dispatch may be executing |
| `DispatchProtocol.AbortedNeverSubmitted` | packages/kanban/src/cli_provider_kanban/dispatch.py:259-295 | an aborted receipt's request never reached the wrapper and never will |
| `DispatchProtocol.AbortedStays` | packages/kanban/src/cli_provider_kanban/store.py:350-398 | an aborted receipt stays aborted |
| `DispatchProtocol.NoReviewUnderCancel` | packages/kanban/src/cli_provider_kanban/dispatch.py:1015-1023 | no step, resolve included, puts a receipt into review while its cancel is on record |
| `DispatchProtocol.RecoveryNeedsTheLock` | packages/kanban/src/cli_provider_kanban/dispatch.py:259-295 | without the tick lock the recovery's snapshot would abort a receipt that was submitted meanwhile |
| `DispatchOutcomes.ViewDecides` | packages/kanban/src/cli_provider_kanban/dispatch.py:915-1018 | for a submitted, uncancelled receipt the run view decides: completing if and only if it completed with success, failed if and only if it failed or completed without, cancelled, unknown or left submitted likewise |
| `DispatchOutcomes.ViewUnderCancelDecides` | packages/kanban/src/cli_provider_kanban/dispatch.py:915-1023 | under a cancel the same, but a success goes to the cancel path unrecorded |
| `DispatchOutcomes.WriteIsRecorded` | packages/kanban/src/cli_provider_kanban/dispatch.py:622-913 | every other write of a tick is refused exactly on a closed receipt, and for the review on a cancelled one; otherwise its state and run ids are recorded and nothing else changes |
| `DispatchOutcomes.WriteMovesOn` | packages/kanban/src/cli_provider_kanban/dispatch.py:897-913 | where the tick goes after a write, and after a refused one |
| `DispatchOutcomes.CancelIsChecked` | packages/kanban/src/cli_provider_kanban/dispatch.py:787-795 | the check before the request turns back exactly when a cancel is on record |
| `DispatchOutcomes.RecoveryResolves` | packages/kanban/src/cli_provider_kanban/dispatch.py:259-295 | recovery aborts a reservation never claimed and makes every other open receipt of its snapshot unknown |
| `DispatchOutcomes.ControlIsRecorded` | packages/kanban/src/cli_provider_kanban/control.py:381-560 | resolve and the closing of a cancelled dispatch record what they ask for on an open receipt, a review only without a cancel |
| `DispatchOutcomes.SuccessIsReviewed` | packages/kanban/src/cli_provider_kanban/dispatch.py:1012-1224 | from every state with a succeeded view of a submitted, uncancelled request, three steps put the receipt into review and change nothing else |
| `DispatchOutcomes.DispatchIsReviewed` | packages/kanban/src/cli_provider_kanban/dispatch.py:622-1224 | from every reachable state of a scanning tick, a dispatch that nothing stands against can go from its reservation to review, with its run and its claim on record |
| `ReviewHandoff.CancelledDispatchIsNotInReview` | packages/kanban/src/cli_provider_kanban/dispatch.py:1168-1224 | however the handoff and an operator cancel interleave, once both have finished the card is not in review under this dispatch's run |
| `ReviewHandoff.IntentMustComeFirst` | packages/kanban/src/cli_provider_kanban/control.py:199-276 | with the command's two effects reversed, from every start with the run live on its card, a run of both actors ends with the card in review under the cancelled dispatch |
| `ReviewHandoff.EachGetsItsWay` | packages/kanban/src/cli_provider_kanban/dispatch.py:1168-1224 | undisturbed, the handoff records the review, and the cancel command blocks the card and closes the receipt |
| `ReviewHandoff.WriteIsRecorded` | packages/kanban/src/cli_provider_kanban/dispatch.py:1012-1224 | each write of either side is refused exactly on a closed receipt, verification and review also under a cancel; otherwise its state is recorded |
| `ReviewHandoff.CardDecides` | packages/kanban/src/cli_provider_kanban/control.py:199-276 | what either side does about the card it finds, by the card's status and its review's run |
| `FencedConnection.ChangesOnlyUnderGuards` | packages/kanban/src/cli_provider_kanban/hermes_bridge.py:134-180 | for a mutator that keeps to calls the proxies see, every change it makes to the board is a commit, and every guard holds on the board it replaces, whatever foreign connections commit in between |
| `FencedConnection.SafeIffNotBypassing` | packages/kanban/src/cli_provider_kanban/hermes_bridge.py:68-188 | that condition is exact: a call keeps the fence in every state if and only if it is not one that begins or writes on an unwrapped object or through an attribute a proxy passes on |
| `FencedConnection.ReturnedCursorIsNotFenced` | packages/kanban/src/cli_provider_kanban/hermes_bridge.py:101-111 | one gated SELECT returns sqlite3's own cursor, on which a write commits under failing guards though the proxy refuses it |
| `FencedConnection.RawBeginDisarmsTheGate` | packages/kanban/src/cli_provider_kanban/hermes_bridge.py:164-176 | a BEGIN on that cursor opens a transaction without its guards, and the proxy's own writes and commit then pass |
| `FencedConnection.FailedGuardChangesNothing` | packages/kanban/src/cli_provider_kanban/hermes_bridge.py:164-176 | a guard that fails under the lock leaves board and connection as they were, through either proxy |
| `FencedConnection.ForeignCardUntouched` | packages/kanban/src/cli_provider_kanban/hermes_bridge.py:114-188 | over any stretch, open transactions and foreign commits included, in which a guard fails, the board is what the foreign commits alone make of it |
| `FencedConnection.BlockOwnedSparesOthers` | packages/kanban/src/cli_provider_kanban/hermes_bridge.py:485-534 | over any interleaving, block_owned never replaces a board on which the card is in review, already blocked, finished, or live under another run |
| `FencedConnection.ReopenSparesOtherReviews` | packages/kanban/src/cli_provider_kanban/hermes_bridge.py:536-572 | over any interleaving, reopen_review_if never replaces a board whose latest review is not the expected run's |
| `FencedConnection.ClaimSparesNewerRuns` | packages/kanban/src/cli_provider_kanban/hermes_bridge.py:431-458 | over any interleaving, a fenced claim never replaces a board on which a newer run exists or another is live |
| `FencedConnection.UnblockSparesOtherBlocks` | packages/kanban/src/cli_provider_kanban/hermes_bridge.py:610-637 | over any interleaving, unblock_owned never replaces a board whose latest block is another run's, or on which a newer run or another live claim has appeared |
| `FencedConnection.CursorScriptIsNotFenced` | packages/kanban/src/cli_provider_kanban/hermes_bridge.py:91-111 | a cursor proxy passes executescript and its connection on: both replace the board under failing guards, where the connection proxy refuses the script |
| `FencedConnection.ControlAndGuardAgree` | packages/kanban/src/cli_provider_kanban/control.py:86-96 | the control command's rule for a dispatch-marked block and the bridge's guard agree |
| `FencedConnection.MarkerNamesOneDispatch` | packages/kanban/src/cli_provider_kanban/hermes_bridge.py:221-230 | a block's closing marker names one dispatch |
| `FencedConnection.BeginIsExecutedIff` | packages/kanban/src/cli_provider_kanban/hermes_bridge.py:164-176 | through either proxy a locking BEGIN on an idle connection is executed if and only if the lock is free and every guard holds, and then a transaction is open on the committed board |
| `FencedConnection.TransactionStatements` | packages/kanban/src/cli_provider_kanban/hermes_bridge.py:134-180 | inside it a write is private, COMMIT makes it the board and ROLLBACK forgets it |
| `FencedConnection.IdleStatements` | packages/kanban/src/cli_provider_kanban/hermes_bridge.py:134-162 | outside one a write, a deferred BEGIN or a savepoint is refused and changes nothing |
| `FencedConnection.GoesThroughIff` | packages/kanban/src/cli_provider_kanban/hermes_bridge.py:134-188 | BEGIN, a write and a commit are all executed and leave the written board if and only if every guard holds |
| `FencedConnection.BlockOwnedSucceedsIff` | packages/kanban/src/cli_provider_kanban/hermes_bridge.py:485-534 | block_owned goes through if and only if the card was and is running or ready with no foreign run on it |
| `FencedConnection.ReopenSucceedsIff` | packages/kanban/src/cli_provider_kanban/hermes_bridge.py:536-572 | reopen_review_if goes through if and only if the latest review was and is the expected run's and the card is in review with no foreign run on it |
| `FencedConnection.ClaimSucceedsIff` | packages/kanban/src/cli_provider_kanban/hermes_bridge.py:431-458 | a claim goes through if and only if it is unfenced, or the expected run is the card's newest and no foreign run is on it |
| `FencedConnection.UnblockSucceedsIff` | packages/kanban/src/cli_provider_kanban/hermes_bridge.py:610-637 | unblock_owned goes through if and only if the card is blocked or scheduled, with no foreign or newer run, and its latest block is the caller's by run and anchored reason |
| `FencedConnection.GuardedConn.RunGated` | packages/kanban/src/cli_provider_kanban/hermes_bridge.py:164-188 | gate, statement, then the guards under the fresh lock, rolling back when one fails and leaving the transaction open when all hold |
| `FencedConnection.GuardedConn.OnProxy` | packages/kanban/src/cli_provider_kanban/hermes_bridge.py:114-188 | every method called on the connection proxy, gated, refused or passed on |
| `FencedConnection.GuardedConn.OnCursor` | packages/kanban/src/cli_provider_kanban/hermes_bridge.py:91-111 | every method called on a cursor proxy, gated or passed on |
| `AliasNames.AliasOfIdIff` | packages/driver-sdk/src/cli_provider_sdk/models.py:30-54 | source prefix plus catalog id is a valid alias if and only if the id has at most 64 and the whole at most 259 characters |
| `AliasNames.TailIsLastSegment` | packages/driver-sdk/src/cli_provider_sdk/models.py:46-53 | a catalog id after a prefix is exactly the alias's last segment |
| `AliasNames.TailOfAliasIsId` | packages/core/src/cli_provider_core/catalog.py:336-344 | the pattern's tolerance of a final newline never matters for a valid alias |
| `CatalogProofs.ResolutionIsNonInterfering` | packages/core/src/cli_provider_core/catalog.py:584-625 | two registries that agree on the alias's refresh scope and the presets bound to it give the same binding or the same error |
| `CatalogProofs.EmptyScopeFails` | packages/core/src/cli_provider_core/catalog.py:584-625 | an empty scope means an authorization or not-found failure, whatever any registry says |
| `CatalogProofs.AtMostOneRefreshed` | packages/core/src/cli_provider_core/config.py:210-216 | with non-overlapping prefixes an alias refreshes at most one runner |
| `CatalogProofs.ListedIffResolves` | packages/core/src/cli_provider_core/catalog.py:628-702 | a valid alias is listed if and only if resolving it without effort binds it dynamically |
| `CatalogProofs.ListedResolvesIffNameable` | packages/core/src/cli_provider_core/catalog.py:327-421 | a listed alias resolves if and only if it is a valid alias, and otherwise fails on that alone |
| `CatalogProofs.LongIdsAreListedButFail` | packages/driver-sdk/src/cli_provider_sdk/models.py:34-36 | a listed row fails to resolve if and only if its id has more than 64 or its alias more than 259 characters |
| `CatalogProofs.AnyIdCanBeListed` | packages/core/src/cli_provider_core/catalog.py:628-702 | and such rows occur: for every valid catalog id a valid configuration and registry list it, and resolving it fails whenever it is longer than 64 |
| `CatalogProofs.EffortTargetIsResolvable` | packages/core/src/cli_provider_core/catalog.py:375-421 | an effort request through a source lands on a model whose own alias is listed and resolvable to it, unless statically shadowed (or not nameable) |
| `CatalogProofs.StaticHopIsAuthorized` | packages/core/src/cli_provider_core/catalog.py:268-324 | a static binding hops to another model only through a held preset or an admitting source on the same runner and policy |
| `CatalogOutcomes.DynamicResolvesIff` | packages/core/src/cli_provider_core/catalog.py:327-421 | an alias under a source resolves without effort if and only if the principal has a grant, the runner is up, and the source offers the model there; each refusal exactly when, in the source's order |
| `CatalogOutcomes.NowhereIsNotFound` | packages/core/src/cli_provider_core/catalog.py:327-421 | an alias that no preset owns and that falls under no source is not found |
| `CatalogOutcomes.StaticResolvesIff` | packages/core/src/cli_provider_core/catalog.py:190-265 | an alias that a preset owns resolves without effort if and only if it is allowed, in scope, verified on a runner that is up, and its model is there; each refusal exactly when |
| `CatalogOutcomes.DynamicEffortIff` | packages/core/src/cli_provider_core/catalog.py:133-157 | where an alias resolves through a source, an effort selects the model itself if and only if it lists that effort, the variant it names for it if and only if the principal could bind that one, and is unsupported in every other case |
| `CatalogOutcomes.StaticEffortIff` | packages/core/src/cli_provider_core/catalog.py:190-265 | the same where a preset owns the alias, with the targets lent by a held preset or a source on the same runner and policy |
| `CatalogProofs.ViewAgreesWithListing` | packages/core/src/cli_provider_core/catalog.py:451-517 | a discovery row says executable if and only if the model list shows it, and gives a rejection in every other case |
| `CatalogProofs.NoAliasListedTwice` | packages/core/src/cli_provider_core/catalog.py:628-702 | no alias has two rows |
| `CatalogProofs.ListScopeCoversResolution` | packages/core/src/cli_provider_core/catalog.py:544-581 | the list's refresh scope contains the runner of every binding resolution can give |
| `CatalogProofs.ListScopeCoversListing` | packages/core/src/cli_provider_core/catalog.py:544-581 | and of every row the list can show |
| `CatalogProofs.ListingIsNonInterfering` | packages/core/src/cli_provider_core/catalog.py:544-581 | the list depends on no runner outside its refresh scope |
| `CatalogOutcomes.ViewSays` | packages/core/src/cli_provider_core/catalog.py:451-517 | a discovery row's flags and the reason of its rejection, exactly when |
| `CatalogOutcomes.EntrySays` | packages/core/src/cli_provider_core/catalog.py:628-702 | what a row of the model list shows of its model |
| `CatalogOutcomes.ListingKeepsOrder` | packages/core/src/cli_provider_core/catalog.py:628-702 | the list keeps the order of the sources |
| `CatalogOutcomes.RowsKeepOrder` | packages/core/src/cli_provider_core/catalog.py:628-702 | and within a source that of its models |
| `CatalogOutcomes.AliasRefreshIff` | packages/core/src/cli_provider_core/catalog.py:584-625 | exactly which runners an alias refreshes |
| `CatalogOutcomes.ListRefreshIff` | packages/core/src/cli_provider_core/catalog.py:544-581 | exactly which runners the list refreshes |
| `Catalog.DynamicModelEntries` | packages/core/src/cli_provider_core/catalog.py:628-702 | the listing loop returns the rows of the listed aliases, exactly those, each with its model's policy, verification and descriptor, in source and then stored order |
| `Catalog.AliasRefreshRefs` | packages/core/src/cli_provider_core/catalog.py:584-625 | the loop collects exactly the runners the alias may consult |
| `Catalog.ModelsRefreshRefs` | packages/core/src/cli_provider_core/catalog.py:544-581 | the loops collect exactly the runners that may contribute |
| `Catalog.SourceView` | packages/core/src/cli_provider_core/catalog.py:451-517 | one row per discovered model, in order, with its alias, descriptor, executable flag and reason of rejection |
| `RegistryProofs.TtlIsRespected` | packages/core/src/cli_provider_core/registry.py:257-285 | however callers interleave, an unforced verification of a runner begins no sooner than one TTL after any earlier attempt on it finished |
| `RegistryProofs.PassCoversItsTargets` | packages/core/src/cli_provider_core/registry.py:217-250 | a pass that reaches its end attempted every configured target since it began |
| `RegistryProofs.CutShortLeavesNoMark` | packages/core/src/cli_provider_core/registry.py:229-241 | a pass cut short leaves the runner it was verifying and its remaining targets stale to the next caller |
| `RegistryProofs.SnapshotsAreWhole` | packages/core/src/cli_provider_core/registry.py:287-367 | every snapshot is the whole report of the last successful pass, also after failed ones |
| `RegistryProofs.OkRunnerShowsOnePass` | packages/core/src/cli_provider_core/registry.py:335-352 | an ok runner shows, row for row, what one pass reported |
| `RegistryProofs.PresetsFollowRunners` | packages/core/src/cli_provider_core/registry.py:419-500 | between passes a preset's health is what its runner's snapshot implies, runners touched by a cut-short pass apart |
| `RegistryProofs.CutShortStrandsPresets` | packages/core/src/cli_provider_core/registry.py:242-249 | a pass cut short after a report leaves that runner's presets verified though the model is gone |
| `RegistryTraces.StrandedPresetIsReachable` | packages/core/src/cli_provider_core/registry.py:217-250 | and a run from start-up reaches it: no pass running, the runner ok, its preset verified and not usable |
| `RegistryProofs.OthersUntouched` | packages/core/src/cli_provider_core/registry.py:217-250 | runners outside every pass of a stretch keep health and mark |
| `RegistryProofs.OtherPresetsUntouched` | packages/core/src/cli_provider_core/registry.py:242-249 | and the presets bound to them keep theirs |
| `RegistryProofs.OtherRefreshesDoNotInterfere` | packages/core/src/cli_provider_core/registry.py:257-285 | refreshes that exclude an alias's scope never change what the alias resolves to |
| `RegistryProofs.VisibleIsWellFormed` | packages/core/src/cli_provider_core/registry.py:313-352 | the registry that verification builds meets what resolution relies on |
| `RegistryOutcomes.ReportDecides` | packages/core/src/cli_provider_core/registry.py:287-367 | a report makes its runner ok if and only if it is complete and consistent and of the configured driver, and then the record shows it whole; otherwise the last good snapshot stays |
| `RegistryOutcomes.PresetVerifiedIff` | packages/core/src/cli_provider_core/registry.py:419-500 | between passes a preset is verified if and only if it is enabled, its runner ok, and its model there, passed or allowed unverified on a synthetic driver, executable, on a driver that streams and knows roles |
| `RegistryOutcomes.RefreshServes` | packages/core/src/cli_provider_core/registry.py:217-285 | in every reachable state with the guard free a refresh of a stale runner runs to its end; the runner is then ok exactly if its report was acceptable, marked, and its presets verified exactly if fit |
| `RegistryOutcomes.RequestDecides` | packages/core/src/cli_provider_core/registry.py:257-285 | a request passes without the guard if and only if it is unforced and all it asks for is fresh |
| `RegistryOutcomes.GuardDecides` | packages/core/src/cli_provider_core/registry.py:257-285 | a pass targets exactly the stale part of its request, or all of a forced one |
| `RegistryOutcomes.VisitDecides` | packages/core/src/cli_provider_core/registry.py:217-241 | a pass skips what it does not target and marks a disabled runner as not ok without asking it |
| `RunnerRegistries.RunnerRegistry.VerifyRunner` | packages/core/src/cli_provider_core/registry.py:287-367 | a runner's health is replaced whole by a consistent report and otherwise only marked not ok |
| `RunnerRegistries.RunnerRegistry.DescriptorTable` | packages/core/src/cli_provider_core/registry.py:316-331 | the table of a catalog with valid, distinct rows, or nothing |
| `RunnerRegistries.RunnerRegistry.DerivePresets` | packages/core/src/cli_provider_core/registry.py:242-249 | exactly the presets of touched runners are re-derived |
| `RunnerRegistries.RunnerRegistry.StaleTargets` | packages/core/src/cli_provider_core/registry.py:277-283 | the stale part of a requested set |
| `DevinProofs.PromptOnlyAfterHandshake` | drivers/devin/src/cli_driver_devin/__init__.py:883-1025 | requests keep the protocol's order, and session/prompt is sent only after protocol 1, a session on the pinned model and the configured mode in force (bypass only under a policy) |
| `DevinProofs.EventsAreContiguous` | drivers/devin/src/cli_driver_devin/__init__.py:762-1136 | events are numbered from 1 without gaps and at most one terminal event closes them |
| `DevinProofs.SuccessMeansNeverAsked` | drivers/devin/src/cli_driver_devin/__init__.py:1025-1062 | outcome succeeded means a prompted turn in which no permission was ever asked for; a partial one has a stop reason or a request behind it |
| `DevinProofs.SilentExactlyWhenUnconfirmed` | drivers/devin/src/cli_driver_devin/__init__.py:1389-1427 | a spawned run has no terminal event if and only if an exception escaped it or a requested stop was not confirmed |
| `DevinProofs.StopMattersIffAsked` | drivers/devin/src/cli_driver_devin/__init__.py:1389-1427 | what a run reports depends on whether its CLI was seen to stop if and only if the run was asked to stop; a failure of its own is reported either way |
| `DevinProofs.AwaitedIdOnly` | drivers/devin/src/cli_driver_devin/__init__.py:1199-1206 | while id n is awaited a frame is its response if and only if it carries a result or error and id n (or true for 1) |
| `DevinProofs.IdlessFrameMatchesNothing` | drivers/devin/src/cli_driver_devin/__init__.py:1199-1206 | between requests a frame without id is taken as a response: its error stops the run |
| `DevinProofs.StrayErrorFailsTheRun` | drivers/devin/src/cli_driver_devin/__init__.py:960-998 | so, for every configuration that allows its mode, a run waiting for its mode acknowledgement ends as failed, never prompted, over an error frame that answers none of its requests |
| `DevinProofs.StrayResponseIsForgotten` | drivers/devin/src/cli_driver_devin/__init__.py:859-881 | such a stray result is never read by the next request |
| `DevinOutcomes.CooperatingRunSucceeds` | drivers/devin/src/cli_driver_devin/__init__.py:762-1136 | with an agent that answers, for every configuration that allows its mode and every text in any pieces, the run completes as a success with exactly that text and exactly the three requests |
| `DevinOutcomes.AnswerEndsTurn` | drivers/devin/src/cli_driver_devin/__init__.py:1025-1062 | the answer to the prompt ends the turn: a success if and only if it says end_turn and no permission was asked, partial, cancelled or failed exactly as its stop reason says |
| `DevinOutcomes.ModeIsSwitched` | drivers/devin/src/cli_driver_devin/__init__.py:960-998 | a session in another mode is switched by the request, its response and the acknowledging update, and only then goes on |
| `DevinOutcomes.AckDecides` | drivers/devin/src/cli_driver_devin/__init__.py:975-998 | how the wait for the acknowledgement ends |
| `DevinOutcomes.SessionIsTakenIff` | drivers/devin/src/cli_driver_devin/__init__.py:899-958 | session/new is taken if and only if it shows a session id, the pinned model and the mode on offer, bypass only where allowed; each refusal exactly when |
| `DevinOutcomes.ProtocolDecides` | drivers/devin/src/cli_driver_devin/__init__.py:883-897 | the run goes past initialize if and only if the answer agrees on protocol 1 |
| `DevinOutcomes.RequestIsMade` | drivers/devin/src/cli_driver_devin/__init__.py:859-881 | a request that cannot be written raises, one that can waits for its own id |
| `DevinOutcomes.PumpMeets` | drivers/devin/src/cli_driver_devin/__init__.py:1161-1189 | what each turn of the pump makes of the flags and of what it reads, in order |
| `DevinOutcomes.FrameSays` | drivers/devin/src/cli_driver_devin/__init__.py:1191-1219 | what a frame is taken as, and what that does |
| `DevinOutcomes.UpdateSays` | drivers/devin/src/cli_driver_devin/__init__.py:1289-1372 | the events and the mode that each kind of session update leaves |
| `DevinOutcomes.FailureSays` | drivers/devin/src/cli_driver_devin/__init__.py:1389-1427 | the code of each failure of the run's own |
| `DevinOutcomes.NeverStarted` | drivers/devin/src/cli_driver_devin/__init__.py:762-858 | a run that is refused, or whose CLI cannot be started, says just that |
| `DevinDriver.Run.Dispatch` | drivers/devin/src/cli_driver_devin/__init__.py:1191-1219 | one frame's effect on the run state, by response, request, notification or error |
| `DevinDriver.Run.HandleNotification` | drivers/devin/src/cli_driver_devin/__init__.py:1289-1372 | the events and mode changes of one session update |
| `DevinDriver.Run.Pump` | drivers/devin/src/cli_driver_devin/__init__.py:1161-1189 | frames are read until the condition, a flag, an expiry or an error |
| `DevinDriver.Run.Rpc` | drivers/devin/src/cli_driver_devin/__init__.py:859-881 | one request and the pump for its response |
| `DevinDriver.Run.SwitchMode` | drivers/devin/src/cli_driver_devin/__init__.py:960-998 | the mode request and its response, then the acknowledgement |
| `DevinDriver.Run.AwaitAck` | drivers/devin/src/cli_driver_devin/__init__.py:978-998 | the wait for the mode update, with the two codes it can fail with |
| `DevinDriver.Run.Execute` | drivers/devin/src/cli_driver_devin/__init__.py:762-1136 | the whole run as the composition the main results speak of |
| `AntigravityProofs.OneTerminalLast` | drivers/antigravity/src/cli_driver_antigravity/__init__.py:717-756 | events are contiguous from 1 with one terminal in last place, and none if and only if a requested stop was not confirmed or an exception escaped |
| `AntigravityProofs.StopMattersIffAsked` | drivers/antigravity/src/cli_driver_antigravity/__init__.py:717-756 | what a run reports depends on whether its CLI was seen to stop if and only if the run was asked to stop |
| `AntigravityProofs.DeltasAreTheAnswer` | drivers/antigravity/src/cli_driver_antigravity/__init__.py:1009-1016 | the deltas are exactly the agent_response texts read, in order |
| `AntigravityProofs.ToolsStartOnceAndFirst` | drivers/antigravity/src/cli_driver_antigravity/__init__.py:1017-1056 | each tool id starts at most once and before any of its completions |
| `AntigravityProofs.SucceededIffNoToolErrored` | drivers/antigravity/src/cli_driver_antigravity/__init__.py:928-962 | a completed run succeeded if and only if no tool step it read ended in error |
| `AntigravityOutcomes.CompletesIff` | drivers/antigravity/src/cli_driver_antigravity/__init__.py:758-962 | a run completes if and only if the expected init frame is the first thing to happen, the prompt is sent, and nothing stops the turn before a SUCCESS result |
| `AntigravityOutcomes.CompletedRunShows` | drivers/antigravity/src/cli_driver_antigravity/__init__.py:856-962 | it has then read exactly the frames between the two, and succeeded if and only if none of them is an errored tool step |
| `AntigravityOutcomes.HandshakeDecides` | drivers/antigravity/src/cli_driver_antigravity/__init__.py:758-835 | the handshake goes on exactly past the expected init frame; each refusal exactly when |
| `AntigravityOutcomes.TurnDecides` | drivers/antigravity/src/cli_driver_antigravity/__init__.py:856-956 | a turn ends at the first input it does not read on over: completed exactly at a SUCCESS result, stopped otherwise for exactly that reason |
| `AntigravityOutcomes.StepSays` | drivers/antigravity/src/cli_driver_antigravity/__init__.py:975-1057 | the events one step frame adds |
| `AntigravityOutcomes.PromptDecides` | drivers/antigravity/src/cli_driver_antigravity/__init__.py:836-855 | a prompt that cannot be written ends the run before its turn |
| `AntigravityOutcomes.StopSays` | drivers/antigravity/src/cli_driver_antigravity/__init__.py:717-756 | what a stopped run reports |
| `AntigravityOutcomes.NeverStarted` | drivers/antigravity/src/cli_driver_antigravity/__init__.py:595-716 | a run that is refused, or whose CLI cannot be started, says just that |
| `AntigravityDriver.Run.StepEvents` | drivers/antigravity/src/cli_driver_antigravity/__init__.py:975-1057 | the events, the new seen set and the denial flag of one step frame |
| `AntigravityDriver.Run.AwaitInit` | drivers/antigravity/src/cli_driver_antigravity/__init__.py:758-835 | the handshake goes on only after a verified init frame |
| `AntigravityDriver.Run.StreamTurn` | drivers/antigravity/src/cli_driver_antigravity/__init__.py:856-956 | the turn's frames up to its result or what stops it |
| `AntigravityDriver.Run.Execute` | drivers/antigravity/src/cli_driver_antigravity/__init__.py:595-962 | the whole run as the composition the main results speak of |

## Left out

- DispatchProtocol.SubmittedStaysBlocking: the dispatcher's tick and the control commands are steps on values, not methods of an object, because they run in separate processes over one database; the store under them is a class.
- DispatchProtocol.RecoveryNeedsTheLock: the tick lock is taken to outlive its dispatcher process; this member shows why that matters.
- DispatchProtocol.OneUncancelledExecution: kernel calls and the wrapper are an environment; a terminal run view is taken as authoritative.
- DispatchProtocol.NoReviewUnderCancel: heartbeats, integration checks, accept commands and notifications of the dispatcher are not modelled.
- FencedConnection.ChangesOnlyUnderGuards: the classification of SQL text into statement kinds is taken as given, a RELEASE never commits (so an outermost savepoint opened on an unwrapped cursor ends by COMMIT), and the rollback after a failed guard is taken to succeed.
- LifecycleProofs.NeverDispatchesOverUnresolved: an operator clearing a quarantine row by hand is not a step, and the registry snapshot and the admission counters are parameters of submit.
- LifecycleProofs.AtMostOneExecution: a run issues one RPC, so RUN_ALREADY_ACTIVE is one of the rejections without effect; the Runner's connection framing is not modelled.
- Admission.PermitsConserved: semaphores and wait_for are atomic primitives; waiting order is not modelled.
- RunnerSlot.AtMostOneStarted: a driver that ignores its cancel is abandoned and may outlive its handler; only the controller's quarantine (LifecycleProofs) covers that. Excludes shutdown, as ShutdownStartsWithoutTheSlot shows it must.
- RunnerSlot.SlotConserved: the event loop cancelling a connection handler itself is not a step.
- SseReplay.NoLostWakeup: chunk encoding, keepalive text and usage chunks are not modelled; a page is at most 1000 events as in the source.
- Catalog.DynamicModelEntries: the listing order of a runner's models is given, not sorted; the capabilities record is represented by the descriptor it is computed from.
- Catalog.SourceView: rejections are kinds, without their display texts.
- CatalogProofs.ListedIffResolves: rejection texts and display fields are not modelled; errors are kept by class.
- RegistryProofs.TtlIsRespected: the startup pass that bypasses the guard is not a step, since nothing is served before it ends.
- RunnerRegistries.RunnerRegistry.VerifyRunner: reads its replies as one argument; the suspension points between them are steps of Registries, whose state they do not touch.
- DevinProofs.EventsAreContiguous: a consumer that closes the event generator midway sees a prefix of these events.
- DevinDriver.Run.Execute: preflight checks, the catalog re-verification and the session facts record are one rejection input; event payloads other than texts, paths and tool ids are dropped.
- AntigravityDriver.Run.Execute: preflight and effort resolution are one rejection input; usage and tool names are dropped.
- HTTP routing, authentication, request parsing, redaction, artifacts, classifier gates, policy validators and the mock and hermes-api drivers: plumbing or one-branch facts.
- Real processes, sockets, file locks and git: each appears only as an outcome (confirmed or not, available or not).
