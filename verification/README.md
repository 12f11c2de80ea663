# Vyane: the durable AgentRun store and the protocols around it

This project models the transactional heart of Vyane and proves what it promises.

* **The AgentRun store.** Workers form a tree, runs belong to workers, and every run is moved by whoever
  holds its lease receipt, its cancel ticket or its recovery ticket. `Tables.dfy` holds the tables of one
  owner, `Operations.dfy` and `CancelTree.dfy` give each store method as one transaction that either
  commits new tables or rejects and leaves them alone, and `Protocol.dfy` plays any sequence of calls of
  any owners under any clock readings, clocks that run backwards included.
* **The projector.** `Projector.dfy` is the ordered, at-least-once copy of the outbox into an event
  stream, for any number of interleaved, failing and restarting instances; `ProjectorLoops.dfy` is one instance as
  an object.
* **The REST task supervisor.** `Supervisor.dfy` is the initialisation and shutdown handshake, one step
  for each atomic action; `Handshake.dfy` and `Shutdown.dfy` prove it.
* **Process evidence.** `Process.dfy` is the sidecar file of a process controller, the reporter's
  lifecycle, the recovery adapter, and what an execution may conclude from them.

## How the proof is built

`Invariant.dfy` states what every reachable version of the tables satisfies, and `Progress.dfy` states
what no step ever takes back (`Forward`). Every run transition is one call of `Tables.Advance`;
`RunStep.dfy`, `CoreStep.dfy` and `InvStep.dfy` show that one lawful step keeps the invariant. The `...IsGood`
lemmas discharge each operation, `Reachable.PlayKeeps` lifts them to whole runs, and the theorems follow from the
invariant of two versions of the tables and the `Forward` relation between them. `Good` means: never reports
corrupt data, and what is committed satisfies the invariant and takes nothing back.

`Audit.dfy` writes the store's own integrity audit down query by query, with its counts, minima and maxima, so it
is a second, independent statement of what a sound database is; `AuditProof.dfy` connects the two.

The imperative parts are proved against those definitions: `AgentStore.dfy` is the store as an object whose
transactions change rows in place, `CancelPhases.dfy` the two-phase tree cancellation, `TreeWalks.dfy` the
breadth-first walk, the explicit-stack postorder and the cycle check.

Where the code does not meet a property, the exact condition is proved.

* Whoever may call the drain, the shutdown signals serve every run of the supervisor if and only if at most one
  caller ever does (`Shutdown.WakeupsServeOneDrainer`; `Shutdown.StrandedNeverWakes` has the run that strands a second
  one). A run with several drains, each begun after the earlier ones returned, strands nobody
  (`Shutdown.OrderlyDrainsAllWake`). The one production call, crates/vyane-cli/src/api.rs:2046, meets the condition.
* A stop recorded for pid zero is the one call that turns a reservation into a sidecar its own reader refuses
  (`Process.ProcessControllerStore.RecordStopped`, played out by `Process.StopBeforeStart`). The one caller,
  crates/vyane-cli/src/agent_host.rs:514-517, passes the pid of an active process, which `ProcessLifecycle.Valid`
  keeps different from zero.

## Modelling choices

* Identifiers are naturals: only equality and one total order matter. Tokens, hashes, completion tokens and plan
  digests are free constructors, so they are injective. Each call that mints tokens or operation identifiers takes a
  seed; an operation identifier already on record for the run is refused by the table's key.
* Times are integer milliseconds, and counters and timestamps do not overflow.
* The clock, the operating system, failing writes and failing appends are parameters.
* A `requires` of the form `Inv(db)` or `StoreInv(s)` says that the tables are reachable; `Reachable.PlayKeeps` shows that every
  run from the empty store provides it.

## Model

| member | source | states |
|---|---|---|
| `AuditProof.ReachableStoresPassAudit` | crates/vyane-agent/src/sqlite.rs:4429-5009 | from the empty store, any calls under any clocks reach only stores that the whole integrity audit accepts |
| `AuditProof.OwnerHolds` | crates/vyane-agent/src/sqlite.rs:4578-4848 | every audit query about one owner passes on any tables that satisfy the invariant |
| `AuditProof.QueueHolds` | crates/vyane-agent/src/sqlite.rs:4700-4714 | across all owners the queue sequences are 1..n: smallest one, largest equal to the number of runs |
| `AuditProof.GenerationsHold` | crates/vyane-agent/src/sqlite.rs:4670-4682 | per worker the smallest generation is one and the largest equals the number of claimed runs |
| `AuditProof.CompletionHolds` | crates/vyane-agent/src/sqlite.rs:4433-4513 | a completion fits its run, has exactly the events its status calls for, and an abandoned one has prepared, terminal and abandoned events in that order |
| `AuditProof.EventHolds` | crates/vyane-agent/src/sqlite.rs:4778-4822 | each outbox event agrees with the worker, run and completion rows it names |
| `AuditProof.HistoryHolds` | crates/vyane-agent/src/sqlite.rs:4749-4777 | a run's history has one event per revision from zero and the last carries its update time |
| `AuditProof.PlanHolds` | crates/vyane-agent/src/sqlite.rs:4895-4980 | a frozen plan still equals the current postorder of its subtree and each entry was carried out |
| `AuditProof.ControlHolds` | crates/vyane-agent/src/sqlite.rs:4616-4668 | a control operation agrees with its fenced run and a cancel operation belongs to a plan that lists the run |
| `AuditProof.ReleasedHolds` | crates/vyane-agent/src/sqlite.rs:4832-4847 | a released worker has no unfinished run and no unreleased child |
| `Reachable.PlayKeeps` | crates/vyane-agent/src/sqlite.rs:551-2525 | every run of the store keeps the invariant for all owners and takes nothing back |
| `Reachable.AttemptIsGood` | crates/vyane-agent/src/sqlite.rs:551-2525 | each of the 21 mutating operations keeps the invariant, moves only forward and never reports corrupt data |
| `Reachable.QueueStaysDense` | crates/vyane-agent/src/sqlite.rs:4071-4082 | taking one more than the largest queue position of all owners keeps positions distinct and gapless |
| `RunStep.StepKeepsRun` | crates/vyane-agent/src/sqlite.rs:2850-2939 | one lawful step of a run keeps everything the invariant says about its row, history, operations and completion |
| `InvStep.StepIsGood` | crates/vyane-agent/src/sqlite.rs:2850-3009 | a lawful step that fits its worker is accepted and keeps the whole invariant |
| `InvStep.PlanFrame` | crates/vyane-agent/src/sqlite.rs:4895-4980 | a frozen plan stays in force through anything that only moves forward |
| `TableOps.CreateRootIsGood` | crates/vyane-agent/src/sqlite.rs:552-611 | creating a root worker with its first run is good |
| `TableOps.SpawnIsGood` | crates/vyane-agent/src/sqlite.rs:613-692 | spawning a child keeps the forest acyclic and parents no further along than children |
| `TableOps.EnqueueIsGood` | crates/vyane-agent/src/sqlite.rs:694-728 | queueing a run is good |
| `TableOps.EnqueueResumeIsGood` | crates/vyane-agent/src/sqlite.rs:2241-2360 | resuming an interrupted run keeps chains linear and within their allowance |
| `Claims.ClaimDueIsGood` | crates/vyane-agent/src/sqlite.rs:744-849 | claiming a page of due runs is good |
| `RunOps.StartIsGood` | crates/vyane-agent/src/sqlite.rs:851-904 | starting a claimed run is good |
| `RunOps.HeartbeatIsGood` | crates/vyane-agent/src/sqlite.rs:975-1030 | a heartbeat is good |
| `RunOps.ActivityIsGood` | crates/vyane-agent/src/sqlite.rs:1032-1075 | an activity report is good |
| `RunOps.BindIsGood` | crates/vyane-agent/src/sqlite.rs:1077-1142 | binding a resumable session is good |
| `TableOps.PrepareIsGood` | crates/vyane-agent/src/sqlite.rs:1144-1259 | preparing a completion keeps publications distinct and is good |
| `RunOps.CommitIsGood` | crates/vyane-agent/src/sqlite.rs:1311-1379 | committing a live completion is good |
| `RunOps.CommitRecoveredIsGood` | crates/vyane-agent/src/sqlite.rs:1418-1508 | committing a recovered completion is good |
| `RunOps.SettleIsGood` | crates/vyane-agent/src/sqlite.rs:1510-1565 | settling a run abandons its completion and is good |
| `RunOps.SettleCancelIsGood` | crates/vyane-agent/src/sqlite.rs:1878-1954 | settling a cancel ticket is good, and accepted whenever the ticket is live |
| `Claims.ClaimRecoveryIsGood` | crates/vyane-agent/src/sqlite.rs:1956-2099 | claiming a recovery page hands out one live ticket per selected run, touches no other run, and is refused only by a reused identifier |
| `RunOps.ConfirmIsGood` | crates/vyane-agent/src/sqlite.rs:2101-2177 | confirming a controller gone is good, and accepted whenever the ticket is live |
| `WorkerOps.ReleaseIsGood` | crates/vyane-agent/src/sqlite.rs:2179-2239 | releasing is good, and accepted for a draining worker without unfinished runs or unreleased children |
| `TableOps.MarkIsGood` | crates/vyane-agent/src/sqlite.rs:2396-2432 | acknowledging an event clears its disposition and is good |
| `TableOps.DeferIsGood` | crates/vyane-agent/src/sqlite.rs:2434-2488 | deferring an event is good |
| `TableOps.QuarantineIsGood` | crates/vyane-agent/src/sqlite.rs:2490-2525 | quarantining an event is good |
| `CancelPlans.CancelTreeIsGood` | crates/vyane-agent/src/sqlite.rs:1575-1876 | cancelling a subtree, new or retried, is good; its corrupt-data branches are unreachable |
| `CancelScope.CancelWorkersCuts` | crates/vyane-agent/src/sqlite.rs:1655-1870 | children first, every worker is drained, every queued run cancelled, every controlled run fenced under this operation, tickets live and in order, all else untouched |
| `CancelPlans.EntriesIff` | crates/vyane-agent/src/sqlite.rs:1591-1621 | a plan lists exactly the unfinished runs of its workers, each with the right action |
| `CancelPlans.RetryAgrees` | crates/vyane-agent/src/sqlite.rs:1622-1648 | a retry always finds its frozen plan in agreement with the current tree |
| `CancelPlans.RetryReturns` | crates/vyane-agent/src/sqlite.rs:1686-1766 | an accepted retry changes no table and returns the tickets it was given |
| `Acceptance.AcceptedIff` | crates/vyane-agent/src/sqlite.rs:1575-1876 | a request is accepted if and only if it is well formed and, for a new one, every unfinished run of the subtree is queued or has no live operation and never saw the identifier, or, for a retry, live tickets for exactly the unfinished runs are presented |
| `Acceptance.FreeRun` | crates/vyane-agent/src/sqlite.rs:1655-1810 | the same for one run of a new request |
| `Acceptance.RetryAccepted` | crates/vyane-agent/src/sqlite.rs:1622-1766 | the same for a whole retry: a missing, dead or left-over ticket refuses it |
| `Cancellation.CancellationIsFinal` | crates/vyane-agent/src/sqlite.rs:1575-1954 | after an accepted cancellation and any later calls the subtree gains no child, run or claim, nothing in it holds live authority, and unfinished runs end cancelled or uncontrollable with completions abandoned |
| `Cancellation.RequestSeals` | crates/vyane-agent/src/sqlite.rs:1575-1876 | an accepted request, new or retried, closes the subtree and binds its unfinished runs |
| `Draining.Drainable` | crates/vyane-agent/src/sqlite.rs:1788-1954 | settling every ticket once, in any order with any outcome before it expires, then releasing in the frozen order, is never refused and leaves the subtree released |
| `Draining.SettleAllSucceeds` | crates/vyane-agent/src/sqlite.rs:1878-1954 | live tickets of different runs can be settled in any order |
| `Draining.ReleaseAllSucceeds` | crates/vyane-agent/src/sqlite.rs:2179-2239 | an idle closed subtree can be released children first |
| `Retrying.CancelRetryIsIdempotent` | crates/vyane-agent/src/sqlite.rs:1622-1766 | repeating a request with its own unexpired tickets while the subtree's runs are untouched returns the same plan and changes nothing |
| `Retrying.RequestIsComplete` | crates/vyane-agent/src/sqlite.rs:1811-1870 | the tickets returned are live and are exactly the unfinished runs, in order |
| `Recovery.RatchetIsOneWay` | crates/vyane-agent/src/sqlite.rs:2001-2082 | a run ever fenced for another reason than an expired lease can never commit, live or recovered |
| `Recovery.RatchetChain` | crates/vyane-agent/src/sqlite.rs:2001-2050 | an expired-lease recovery follows only expired-lease recoveries |
| `Recovery.EveryActiveRunBecomesDue` | crates/vyane-agent/src/sqlite.rs:1969-1994 | each run with a controller has a finite time from which, and only from which, recovery selects it, and no other run is ever selected |
| `Recovery.DueRunIsRecovered` | crates/vyane-agent/src/sqlite.rs:1956-2177 | a selected run gets a ticket, and confirming it at any time before it expires makes the run terminal |
| `Recovery.NeverCorrupt` | crates/vyane-agent/src/sqlite.rs:551-2525 | no call on a reachable store ends in a corrupt-data branch |
| `Authority.SecretsFollowState` | crates/vyane-agent/src/sqlite.rs:4603-4668 | a lease hash exists exactly while starting or running, one active operation exactly while cancelling |
| `Authority.SingleAuthority` | crates/vyane-agent/src/sqlite.rs:3529-3563 | capabilities accepted in the same tables share run generation, revision, kind and secret |
| `Authority.SupersededIsDead` | crates/vyane-agent/src/sqlite.rs:3529-3563 | a capability whose run moved on is never accepted again |
| `Authority.UsedOnce` | crates/vyane-agent/src/sqlite.rs:3929-3968 | a capability that moved its run is dead for good |
| `Authority.SuccessIsExact` | crates/vyane-agent/src/sqlite.rs:1311-1379 | succeeded if and only if the completion is committed; ended otherwise means none or an abandoned one |
| `Authority.TerminalIsFinal` | crates/vyane-agent/src/sqlite.rs:2850-2939 | an ended run and its completion never change again |
| `Authority.CommitReplays` | crates/vyane-agent/src/sqlite.rs:1311-1345 | a replayed commit returns the same records in any later tables and changes nothing |
| `Authority.RecoveredCommitReplays` | crates/vyane-agent/src/sqlite.rs:1434-1450 | the same for a recovered commit |
| `Permits.RevocationIsPermanent` | crates/vyane-agent/src/sqlite.rs:454-548 | once a live permit is revoked no later validation accepts it, native or not |
| `Permits.ValidUntilRevoked` | crates/vyane-agent/src/sqlite.rs:454-548 | after any calls a permit that was live is valid if and only if it is unrevoked and current lease and fixed deadline lie ahead, and its native scope matches if and only if the binding does |
| `Permits.IssuedIsLive` | crates/vyane-agent/src/sqlite.rs:906-955 | a receipt is turned into a permit if and only if it is of the current revision and the permit is live |
| `Permits.PermitSurvivesPulses` | crates/vyane-agent/src/sqlite.rs:975-1075 | through any heartbeats and activity a permit is live exactly while lease and deadline are, and leases never shrink |
| `Scheduling.ClaimTakesNextRuns` | crates/vyane-agent/src/sqlite.rs:765-845 | a claim takes, in queue order and at most one per worker, free workers' next due runs for the backend and changes no other run; an eligible run is left only when the page is full and then stands behind every run taken |
| `Scheduling.QueueIsExact` | crates/vyane-agent/src/sqlite.rs:765-790 | the claim queue holds exactly those runs |
| `Scheduling.LaterClaimsAreHigher` | crates/vyane-agent/src/sqlite.rs:4057-4069 | a run claimed later has the higher generation |
| `Scheduling.GenerationsAreExact` | crates/vyane-agent/src/sqlite.rs:4670-4682 | a worker's generations are exactly 1..n for its n claimed runs |
| `Scheduling.OneControllerPerWorker` | crates/vyane-agent/migrations/0001_agent.sql:94-96 | no worker has two runs with a controller |
| `Scheduling.ResumeChains` | crates/vyane-agent/src/sqlite.rs:2241-2360 | every run ends one simple chain inside one worker, attempts counting from zero within the allowance, frozen fields and binding equal |
| `Scheduling.ChainsAreDisjoint` | crates/vyane-agent/migrations/0001_agent.sql:76-78 | a run is resumed at most once |
| `Scheduling.ChainsStay` | crates/vyane-agent/src/sqlite.rs:2850-2885 | what a chain froze never changes |
| `Scheduling.OutboxIsComplete` | crates/vyane-agent/src/sqlite.rs:2941-3009 | per owner, sequences are gapless, times never decrease, each run has one history event per revision, and the outbox only grows |
| `Forest.PostDistinct` | crates/vyane-agent/src/sqlite.rs:4187-4232 | the postorder of an acyclic subtree names each worker once |
| `Forest.ChildrenFirst` | crates/vyane-agent/src/sqlite.rs:4187-4232 | in the postorder every child comes before its parent |
| `TreeWalks.TopologyFromWorkers` | crates/vyane-agent/src/sqlite.rs:4138-4185 | the walk ends on every input; a listing is the whole subtree, each worker once, parents first; a refusal means that no finite tree hangs below the root |
| `TreeWalks.SubtreePostorder` | crates/vyane-agent/src/sqlite.rs:4187-4232 | the explicit stack emits the recursive sorted postorder, and the walk refuses if and only if no finite tree hangs below the root |
| `TreeWalks.AuditTopology` | crates/vyane-agent/src/sqlite.rs:4982-5009 | accepts if and only if the parent links are acyclic |
| `CancelPhases.RequestInPhases` | crates/vyane-agent/src/sqlite.rs:1575-1876 | preparing everything and then writing accepts the same requests, commits the same tables and tickets and names the same refusal reason as the run-by-run definition |
| `AgentStore.Transaction.Advance` | crates/vyane-agent/src/sqlite.rs:2850-3009 | row by row updates in place add up to the defined step |
| `AgentStore.Transaction.FinishControl` | crates/vyane-agent/src/sqlite.rs:3905-3927 | closes the active operation of a run and no other |
| `AgentStore.Transaction.InsertControl` | crates/vyane-agent/src/sqlite.rs:3863-3903 | refuses exactly the identifiers the run already knows |
| `AgentStore.Transaction.CreateRoot` | crates/vyane-agent/src/sqlite.rs:552-611 | inserts the worker, its run and their events, as defined, or refuses for the defined reason |
| `AgentStore.Transaction.SpawnChild` | crates/vyane-agent/src/sqlite.rs:613-692 | updates the parent and inserts the child and its run, as defined, or refuses for the defined reason |
| `AgentStore.Transaction.EnqueueRun` | crates/vyane-agent/src/sqlite.rs:694-728 | inserts the run and its event, as defined, or refuses for the defined reason |
| `AgentStore.Transaction.EnqueueResume` | crates/vyane-agent/src/sqlite.rs:2241-2360 | inserts the resumed run and its event, as defined, or refuses for the defined reason |
| `AgentStore.Transaction.ReleaseWorker` | crates/vyane-agent/src/sqlite.rs:2179-2239 | updates the worker and records it, as defined, or refuses for the defined reason |
| `AgentStore.Transaction.RecordActivity` | crates/vyane-agent/src/sqlite.rs:1032-1075 | moves the run as defined, or refuses for the defined reason |
| `AgentStore.Transaction.BindResume` | crates/vyane-agent/src/sqlite.rs:1077-1142 | binds the session once, repeats harmlessly, or refuses for the defined reason |
| `AgentStore.Transaction.PrepareCompletion` | crates/vyane-agent/src/sqlite.rs:1144-1259 | inserts the completion and its event, repeats harmlessly, or refuses for the defined reason |
| `AgentStore.Transaction.CommitCompletion` | crates/vyane-agent/src/sqlite.rs:1311-1379 | ends the run and commits its completion together, replays, or refuses for the defined reason |
| `AgentStore.Transaction.CommitRecovered` | crates/vyane-agent/src/sqlite.rs:1418-1508 | the same under a recovery ticket |
| `AgentStore.Transaction.MarkProjected` | crates/vyane-agent/src/sqlite.rs:2396-2432 | records the acknowledgement once and clears the disposition, as defined |
| `AgentStore.Transaction.DeferProjection` | crates/vyane-agent/src/sqlite.rs:2434-2488 | writes the later of the old and new times, as defined |
| `AgentStore.Transaction.QuarantineProjection` | crates/vyane-agent/src/sqlite.rs:2490-2525 | turns a deferral into a quarantine and keeps an earlier one, as defined |
| `AgentStore.SqliteAgentStore.Start` | crates/vyane-agent/src/sqlite.rs:851-904 | commits or refuses exactly as defined and keeps the store sound |
| `AgentStore.SqliteAgentStore.Heartbeat` | crates/vyane-agent/src/sqlite.rs:975-1030 | commits or refuses exactly as defined and keeps the store sound |
| `AgentStore.SqliteAgentStore.Settle` | crates/vyane-agent/src/sqlite.rs:1510-1565 | commits or refuses exactly as defined and keeps the store sound |
| `AgentStore.SqliteAgentStore.SettleCancel` | crates/vyane-agent/src/sqlite.rs:1878-1954 | commits or refuses exactly as defined and keeps the store sound |
| `AgentStore.SqliteAgentStore.ConfirmControllerGone` | crates/vyane-agent/src/sqlite.rs:2101-2177 | commits or refuses exactly as defined and keeps the store sound |
| `AgentStore.SqliteAgentStore.ClaimDue` | crates/vyane-agent/src/sqlite.rs:744-849 | the loop over the page commits all of it or nothing, as defined |
| `AgentStore.SqliteAgentStore.ClaimRecoveryDue` | crates/vyane-agent/src/sqlite.rs:1956-2099 | the loop over the page commits all of it or nothing, as defined |
| `AgentStore.SqliteAgentStore.CancelTree` | crates/vyane-agent/src/sqlite.rs:1575-1876 | the two-phase request commits or refuses exactly as defined and keeps the store sound |
| `AgentStore.SqliteAgentStore.Execute` | crates/vyane-agent/src/sqlite.rs:551-2525 | any of the 21 operations, row by row in a transaction, commits the defined step or leaves everything as it was, names the defined reason, and never reports corrupt data |
| `Projector.StreamIsInitialSegment` | crates/vyane-broker/src/agent_projector.rs:89-178 | for every interleaving, failure and restart the stream holds exactly 1..k, first occurrences are in source order and every acknowledged event is in it |
| `Projector.StreamGrows` | crates/vyane-broker/src/agent_projector.rs:123-133 | stream and acknowledgements only grow |
| `ProjectorLoops.ScanSourceFloor` | crates/vyane-broker/src/agent_projector.rs:148-178 | paging through the stream finds its largest source number, or fails exactly when a read it needs fails |
| `ProjectorLoops.AgentEventProjector.ProjectOnce` | crates/vyane-broker/src/agent_projector.rs:89-145 | whatever fails, one call is a run of the step system, delivers a prefix of its page in order and stops only at that fault or at a real gap |
| `Handshake.PlayKeeps` | crates/vyane-cli/src/api.rs:214-226 | every interleaving keeps word, permits, entries, workers and watchers consistent |
| `Handshake.ReservationPersists` | crates/vyane-cli/src/api.rs:747-764 | in every interleaving a call's reservation is still its own when it records the worker's handle, so the branch for a replaced reservation is unreachable |
| `Shutdown.WordIsExact` | crates/vyane-cli/src/api.rs:214-226 | the word is the live permits plus the shutdown bit, without carry or borrow |
| `Shutdown.NoPermitAfterShutdown` | crates/vyane-cli/src/api.rs:442-476 | once the bit is set nobody new gets a permit |
| `Shutdown.DrainReturnsOnlyWhenStill` | crates/vyane-cli/src/api.rs:978-1065 | when a drain has returned no initialiser or worker is alive or can start, from then on |
| `Shutdown.WaitingMeansAborted` | crates/vyane-cli/src/api.rs:1076-1102 | while a drain waits for dispatches every remaining worker was told to stop and has a watcher |
| `Shutdown.NoLostWakeup` | crates/vyane-cli/src/api.rs:1067-1102 | with one drainer neither wait loses its wake-up |
| `Shutdown.OrderlyDrainsAllWake` | crates/vyane-cli/src/api.rs:978-1102 | any number of drains that do not overlap strand nobody, in any interleaving |
| `Shutdown.WakeupsServeOneDrainer` | crates/vyane-cli/src/api.rs:1067-1102 | the wake-ups are safe in every run if and only if there is at most one possible drainer |
| `Shutdown.StrandedNeverWakes` | crates/vyane-cli/src/api.rs:1067-1074 | with two drainers a run strands one, which then sleeps through anything |
| `Process.ProcessControllerStore.Reserve` | crates/vyane-cli/src/agent_process.rs:134-173 | reserves once, repeats harmlessly, otherwise conflicts, and touches no other file |
| `Process.ProcessControllerStore.RecordStarted` | crates/vyane-cli/src/agent_process.rs:250-312 | records an identity if and only if it is exact and goes over itself, a reservation or a group seen empty, and never changes the bound run, worker or generation |
| `Process.ProcessControllerStore.RecordStopped` | crates/vyane-cli/src/agent_process.rs:317-340 | records a stop if and only if it is for the recorded process and its group is absent; the files stay readable except in exactly one case |
| `Process.StopBeforeStart` | crates/vyane-cli/src/agent_process.rs:317-340 | a stop for pid zero after a reservation leaves a sidecar that reads as corrupt |
| `Process.ProcessLifecycle.Report` | crates/vyane-cli/src/agent_host.rs:473-528 | a report is believed if and only if it fits the state and reaches the disk; otherwise the lifecycle is Uncertain for good; bindings never change |
| `Process.ReportAll` | crates/vyane-cli/src/agent_host.rs:473-528 | over any sequence of events doubt is never lifted and bindings never change |
| `Process.ProcessLifecycle.Observation` | crates/vyane-cli/src/agent_host.rs:530-538 | Stopped means every accepted group was seen empty and the sidecar says Stopped for the last pid |
| `Process.Settle` | crates/vyane-cli/src/agent_host.rs:253-414 | Quiesced if and only if the permit came back, the lifecycle proves it for this kind of result and the result was staged or its input removed; then nothing started or every group was seen empty |
| `Process.ProcessRecovery.ObserveUntil` | crates/vyane-cli/src/agent_process.rs:474-549 | Gone if and only if absence is proven, and a signal goes only to a group whose exact identity was just seen |

## Left out

- Text, digest and identifier validators, enum spellings and JSON formats: identifiers are opaque here.
- SQLite connections, file locks, permissions, symlink checks, schema manifests and migrations: each store method is one atomic transaction.
- Overflow of counters and timestamps, and stored event identifiers: events are named by their sequence.
- Read-only queries (`get_worker`, `get_run`, `get_completion`, `completion_for_recovery`, `unprojected_events`): they would only add easy members; the projector takes any page the store may hand out.
- Runs stored by older schema versions with an unassigned backend: the model starts from an empty store of the current version.
- The supervisor's task store, token maps, budgets and retries of settlement: the handshake does not depend on them, and the supervisor is a step system rather than an object because its actions interleave.
- A worker that ends by itself before it is started or aborted is allowed by the supervisor's steps although the program never does it.
- Deleting sidecars (`remove`, and `remove_terminal_residue` at startup): it would only add an easy member, and everything here is about files that exist.
- A reporter and a recovery adapter writing the same sidecar at the same time: one writer is assumed.
- The event log, the message store and the harness that spawns processes: only the answers they give are modelled.
