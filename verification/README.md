# Verified models of the harness, its pools, queues and codecs

This project models the protocols and codecs at the core of the serverless agent harness and proves what
each promises. A protocol is a state machine whose steps interleave in any order, and its theorems speak of
every finite run; a step that the state does not allow is a step that changes nothing, so the theorems put no
condition on runs beyond those they name. The classes and methods follow the source's own in-place updates and
loops, and each is proved equal to the step function or specification the theorems are about.

| module | what it models |
|---|---|
| `ConfigCache` | the ref-counted configuration cache in a shared sandbox |
| `LeaseTimings`, `SandboxLease`, `SandboxPool` | the lease knobs, the timed lease protocol, and choosing a sandbox from the pool |
| `GateLog`, `GateLimits` | the human gate derived from an append-only session log, and where its promises end |
| `LoadEstimate`, `WorkerPool` | the supervisor's load estimate, and the hand-off of a connection |
| `Routing`, `StickyRouting` | least-loaded routing, admission and session affinity |
| `HeadScan`, `OneEdit` | the chunked header scan and the one-edit matcher |
| `WorkQueue`, `QueueRuns`, `QueueRecords`, `QueueCases` | the work queue with crashing consumers, what its runs promise, when a record is safe, and runs that show the limits |
| `Ustar`, `UstarArchive`, `ConfigBundle` | the deterministic archive and its content address |
| `Base64`, `Framing` | the framed bash channel |
| `Quoting` | shell quoting against the editor's word splitter |
| `Relay` | the sandbox relay's demultiplexer |
| `VaultStore` | the check-and-set credential store |
| `Ownership` | the paged session listing |
| `Prelude` | what the models share |

`dafny verify dfyconfig.toml` checks everything.

## What the proofs found

Where the code does not keep a promise in all cases, the model keeps the code and a lemma or contract says, for all
inputs or runs, exactly when the promise holds; where it takes a run to show the break, another lemma gives one.

- The lease cap holds in every run if and only if the time before the first renewal plus one more interval than
  renewals may be lost in a row is below the TTL (`CapHoldsIff`). For all knob values it holds when the timer is
  armed at once and no two renewals in a row are lost. With the defaults a third attempt falls on the expiry itself,
  so two losses in a row already break it, against the comment that three attempts fit; and so does converging a
  workspace for up to 300 s before the timer is armed (`DefaultsBreakCap`).
- A cleanup removes a cache if and only if every other ref on it is past the staleness limit (`CleanupReclaimsIff`),
  so a leaf that stays bound for longer loses its cache (`StaleLeafIsReached`).
- A run may submit a verdict if and only if no approval is required or some decision is on its log, and a rejection
  will do (`MaySubmitIff`, `RejectionAllowsVerdict`). It ends with a verdict beside a pending gate if and only if it
  submits, and asks in a batch that no submission precedes (`VerdictBesideGateIff`, `VerdictBesideOpenGate`).
- The write-behind buffer goes on after a failed write. Any entry but a decision may be lost that way
  (`LogStaysGood`); a lost decision breaks the rules if and only if its run then asks, or submits a verdict that this
  decision alone allowed (`LostDecisionIff`, `LostWriteBreaksGate`).
- A worker that exits leaves an estimate behind, once its last messages are taken, if and only if it had unfinished
  turns and a count under way (`DeadEstimateIff`, `LateCountOnDeadWorker`); it is listed as healthy again if and only
  if its slot was not drained and its last word under way was that it is ready (`DeadIsListedIff`,
  `EarlyExitIsListed`).
- The starts of a leaf are at most the maximum, and one more for each delivery count that was read back after the row
  had gone (`StartsAre`); with one attempt allowed a leaf can start three times (`LateStarts`). Where claim and count
  are one step the maximum holds (`BoundedAttempts`).
- Collecting idle consumers lists them first and deletes them later. A delete discards a row if and only if its
  consumer took the row after the listing and nobody has taken it since (`DeleteDiscardsIff`); a run with the leaf
  job's own limits loses an entry that way (`CollectRaceLosesRow`).
- A final record is safe from some point on if and only if its row is gone and nobody is dead-lettering or reaping
  the entry or owes its record (`FinalSurvivesIff`). It is overwritten after its writer died before the ack, after
  its writer lived and acknowledged, and by the reaper (`DyingWriterIsOverwritten`, `LivingWriterIsOverwritten`,
  `ReaperOverwrites`).
- A path reads back from an archive if and only if it has no NUL and is not 101 bytes behind a leading slash; the
  comment gives 255 as the longest path, the code accepts 256 (`PathRoundTripIff`).
- A stored bundle keeps the lockfile of its first upload, since the lockfile is not part of the digest
  (`PromoteAndFetch`).
- A stream that ends twice takes another worker off its sandbox id if and only if one has attached under it in
  between (`EvictsIff`, `SecondTeardownEvicts`). A worker that says hello with an empty id is parked for good, and
  its execs are never answered (`EmptyIdStays`, `EmptyIdNeverAnswers`).
- An out-of-band deletion in Vault keeps the version, so an update that had read before it brings the deleted
  document back (`SoftDeleteIsUndone`). Such a write breaks the law if and only if what it writes is not its change
  made to no document at all (`StaleWriteBreaksIff`).
- Over an index at rest the listing is complete if and only if no session that exists is skipped for sharing its
  creation time with the last one of a page (`CompleteIff`). A full page carries no cursor if and only if its last
  member left and none of its members survives (`NoCursorIff`, `GhostPageCutsShort`); then exactly the sessions
  under it are missing (`AllSessions`).

## Model

| member | source | states |
|---|---|---|
| `ConfigCache.Sandbox.CacheAcquire` | harness/src/config-overlay.ts:84-103 | the locked acquire sweeps stale refs, writes this leaf's and reports a hit exactly when the cache is there |
| `ConfigCache.Sandbox.CachePopulate` | harness/src/config-overlay.ts:110-153 | the locked populate leaves the cache in place and changes nothing else |
| `ConfigCache.Sandbox.LeafBind` | harness/src/config-overlay.ts:156-165 | binding links this leaf to the cache and changes nothing else |
| `ConfigCache.Sandbox.ConfigCleanup` | harness/src/config-overlay.ts:179-202 | the locked cleanup drops this leaf's link and ref, sweeps stale ones, and removes the cache with the last ref |
| `ConfigCache.Sandbox.OverlayConfig` | harness/src/config-overlay.ts:222-235 | the overlay succeeds only with cache, link and ref in place, and what each partial failure leaves behind |
| `ConfigCache.ReachableInv` | harness/src/config-overlay.ts:84-202 | the refcount invariant holds after every interleaving of any number of leaves |
| `ConfigCache.BoundLeafKeepsCache` | harness/src/run-leaf.ts:440-577 | in every run, from the end of its overlay to its cleanup a leaf with an unexpired ref has its cache |
| `ConfigCache.CacheImpliesRef` | harness/src/config-overlay.ts:179-202 | in every run, a cache directory implies a ref on it |
| `ConfigCache.NothingSurvivesTheLeaves` | harness/src/run-leaf.ts:440-577 | once no leaf is left, caches, refs and links remain only for leaves that died without cleanup, and the pod is empty if there were none |
| `ConfigCache.DeadLeafIsReclaimed` | harness/src/config-overlay.ts:84-103 | in every run, a leaf that dies leaves the pod as it was, and a day later one failed overlay of its digest clears the digest |
| `ConfigCache.CleanupReclaimsIff` | harness/src/config-overlay.ts:179-202 | a cleanup removes the cache if and only if every other ref on it has gone stale |
| `ConfigCache.StaleLeafLosesCache` | harness/src/config-overlay.ts:84-103 | a bound leaf whose ref is past the limit loses its cache to another leaf's failed overlay |
| `ConfigCache.StaleLeafIsReached` | harness/src/config-overlay.ts:84-103 | a run from the empty sandbox gets there, for any two leaves of any digest |
| `LeaseTimings.TwoRenewalsFit` | harness/src/lease-timings.ts:10-51 | for all knob values two heartbeat intervals are below the TTL, the heartbeat is the requested one exactly when three fit and a third of the TTL otherwise, cap and TTL at or above their floors are taken rounded down, and the defaults are 20, 60 s and 20 s |
| `LeaseTimings.IntEnvFloor` | harness/src/lease-timings.ts:10-15 | a knob at or above its floor is taken, rounded down; any other is its default |
| `SandboxLease.CapHoldsIff` | harness/src/sandbox-lease.ts:28-95 | the running holders stay within the cap, each with an unexpired lease, in every run if and only if gap plus (losses + 1) heartbeats is below the TTL |
| `SandboxLease.KnobsKeepCap` | harness/src/lease-timings.ts:41-51 | for all knob values the cap holds in every run that arms at once and loses no two renewals in a row |
| `SandboxLease.DefaultsBreakCap` | harness/src/run-leaf.ts:782-801 | the default timings break the cap with two losses in a row, and with a 300 s converge before the timer is armed |
| `SandboxLease.DeadLeaseIsReclaimed` | harness/src/sandbox-lease.ts:28-36 | one TTL after any moment nothing held at that moment is left, dead holders and late renewals included |
| `SandboxLease.RenewingKeepsLease` | harness/src/sandbox-lease.ts:88-91 | a holder that renews on every beat keeps its lease, a full TTL ahead, for any number of beats |
| `SandboxLease.ReleaseFreesSlot` | harness/src/sandbox-lease.ts:79-95 | in every run of a pod within its cap, a slot given back can be taken by any other holder at once |
| `SandboxPool.LeaseStore.Load` | harness/src/sandbox-lease.ts:74-78 | the load is the number of unexpired leases, and the expired ones are swept |
| `SandboxPool.LeaseStore.Acquire` | harness/src/sandbox-lease.ts:79-87 | sweep, then a lease if and only if the set is under the cap; other pods are untouched |
| `SandboxPool.LeaseStore.Heartbeat` | harness/src/sandbox-lease.ts:88-91 | the holder's expiry is renewed without a condition; other pods are untouched |
| `SandboxPool.LeaseStore.Release` | harness/src/sandbox-lease.ts:92-95 | the holder's lease is gone; other holders and pods are untouched |
| `SandboxPool.OrderByLoadSorts` | harness/src/select-sandbox.ts:193-198 | the candidates are the listing rearranged by load, ties in listing order |
| `SandboxPool.LeastLoadedFirst` | harness/src/select-sandbox.ts:193-198 | no candidate comes before a less loaded one, nor before one as loaded that was listed first |
| `SandboxPool.SelectPoolSandbox` | harness/src/select-sandbox.ts:427-473 | while other holders act between the attempts, the sandbox taken is the first in load order that has room when its turn comes, saturation means none had room at its turn, a failed build gives its lease back, and nothing but the sandbox tried changes |
| `GateLog.ComputeGateState` | harness/src/gate.ts:83-104 | the scan finds the last undecided request, the last decision and the next gate id |
| `GateLog.OpenGateSeed` | harness/src/gate.ts:129-149 | with a gate open, only a decision on that gate moves the leaf on: it is recorded, an abort ends the leaf, and otherwise the prompt carries its action and feedback |
| `GateLog.ClosedGateSeed` | harness/src/gate.ts:152-157 | with every request answered, the prompt carries the action and feedback of the last decision on the log, an abort ends the leaf, and without any the prompt is the fresh one |
| `GateLog.LogStaysGood` | harness/src/run-leaf.ts:732-834 | over any sequence of runs, decisions, crashes that lose an unflushed suffix, and swallowed writes of anything but a decision, the durable log obeys the gate rules |
| `GateLog.GateInvariant` | harness/src/gate.ts:83-158 | in every such log, request ids are below the next id, one gate is undecided at most, no gate is decided twice, only messages follow an abort, and with approval required a decision that is not an abort precedes every verdict |
| `GateLog.TerminalLogIsFrozen` | harness/src/gate.ts:129-158 | once a run ended with a verdict or abort recorded, no later run appends anything |
| `GateLog.GoodIds` | harness/src/request-approval-tool.ts:71-73 | in a log that obeys the rules, ids are below the count, decisions answer requests, and one gate is open at most |
| `GateLog.DecidedOnce` | harness/src/gate.ts:129-158 | no gate is decided twice |
| `GateLog.AbortIsLast` | harness/src/gate.ts:129-158 | nothing but messages follows an abort |
| `GateLog.VerdictAfterDecision` | harness/src/submit-verdict-tool.ts:60-66 | with approval required every verdict has an earlier decision that is not an abort |
| `GateLog.RunBatch` | harness/src/verdict-termination-extension.ts:46-57 | a batch of tool calls leaves the log, the captured gate and the captured verdict in step |
| `GateLog.BatchesAdd` | harness/src/verdict-termination-extension.ts:46-57 | a live run records a request exactly if a valid one comes in a batch that no submission precedes, and a verdict exactly if it may submit and does |
| `GateLog.LeafSession.ProduceVerdict` | harness/src/run-leaf.ts:732-856 | one invocation has the effect of its start, turns and finish on the log; a stored verdict is returned untouched; a done result carries the text of the last verdict on the log; an aborted one is exactly that of an abort; a live run is paused exactly when a valid request got through, done exactly when none did and a submission did, and without a verdict otherwise; a pause names the gate that is pending on the log |
| `GateLog.LeafSession.Converse` | harness/src/run-leaf.ts:802-856 | the turns of a live run end paused, done or without a verdict as the batches of calls say, with the text of the last verdict on the log |
| `GateLog.RejectionAllowsVerdict` | harness/src/gate.ts:129-158 | a run whose only decision is a rejection may record a verdict |
| `GateLog.VerdictBesideOpenGate` | harness/src/verdict-termination-extension.ts:46-57 | a verdict may be recorded beside a gate that stays open |
| `GateLog.LossKeepsGood` | harness/src/buffered-redis-backend.ts:18-35 | a log stays good without any one entry that is no decision, when no decision comes after it |
| `GateLimits.LostDecisionIff` | harness/src/buffered-redis-backend.ts:18-35 | in every run whose decision is lost, the log it leaves obeys the rules if and only if the run asks for nothing more and submits no verdict that this decision alone allowed |
| `GateLimits.LostWriteBreaksGate` | harness/src/buffered-redis-backend.ts:18-35 | a swallowed write of a decision leaves a verdict without one |
| `GateLimits.MaySubmitIff` | harness/src/run-leaf.ts:822-823 | a run may submit if and only if no approval is required or some decision is on its log |
| `GateLimits.VerdictBesideGateIff` | harness/src/verdict-termination-extension.ts:46-57 | for every run over every log that earlier runs can have left, a verdict stands beside a pending gate if and only if the run may submit and does, and asks in a batch that no submission precedes |
| `LoadEstimate.TurnCounter.Start` | packages/knative-server/src/worker.ts:53-75 | a new open turn, counted and reported |
| `LoadEstimate.TurnCounter.End` | packages/knative-server/src/worker.ts:53-75 | a turn ends once: a second end neither counts nor reports |
| `LoadEstimate.EstimateConverges` | packages/supervisor/src/pool.ts:206-220 | in every run of any pool, a live worker with no connection and no count under way has an estimate equal to its open turns |
| `LoadEstimate.SettlingConverges` | packages/knative-server/src/worker.ts:116-189 | from every reachable state, delivering what is under way brings the estimate to the open turns, so no credit is permanent |
| `LoadEstimate.BurstIsCounted` | packages/supervisor/src/pool.ts:206-220 | any number of connections handed over before a report comes back raise the estimate by that number |
| `LoadEstimate.ReportsTruth` | packages/knative-server/src/worker.ts:116-181 | a worker that takes a connection, starts or ends a turn, or loses a socket reports exactly its unfinished turns |
| `LoadEstimate.TurnIsCounted` | packages/knative-server/src/worker.ts:53-75 | once told, the supervisor estimates one turn more from its start and one less from its end |
| `LoadEstimate.DrainTakesOut` | packages/supervisor/src/pool.ts:367-390 | once the messages under way are taken, a live worker that is drained is out of the routing set for good |
| `LoadEstimate.DrainedStaysOut` | packages/supervisor/src/pool.ts:367-411 | whatever a drained worker still sends, it is not routed to again |
| `LoadEstimate.DeadEstimateIff` | packages/supervisor/src/pool.ts:412-417 | in every reachable pool, a worker that exits is no longer waited on, once its messages are taken, if and only if none of them is a count or it had no unfinished turn |
| `LoadEstimate.LateCountOnDeadWorker` | packages/supervisor/src/pool.ts:412-444 | a run with such a count leaves an estimate on the dead slot until the respawn |
| `LoadEstimate.DeadIsListedIff` | packages/supervisor/src/pool.ts:367-384 | a worker that exits is listed as healthy again if and only if its slot was not drained and its last word under way was that it is ready |
| `LoadEstimate.EarlyExitIsListed` | packages/supervisor/src/pool.ts:367-384 | a worker that exits before its readiness is taken is listed as healthy |
| `Routing.LeastIsBest` | packages/supervisor/src/routing.ts:30-39 | the choice is the first healthy worker with the least load, and there is none only if none is healthy |
| `Routing.PickLeastLoaded` | packages/supervisor/src/routing.ts:30-39 | the loop returns the id of the first healthy worker with the fewest turns in flight, and none exactly when no worker is healthy |
| `Routing.AdmittedHasRoom` | packages/supervisor/src/admission.ts:18-20 | a pool is not saturated if and only if its least-loaded healthy worker is below the limit |
| `StickyRouting.StickyPolicy.RememberPin` | packages/supervisor/src/routing.ts:70-88 | a pin is inserted or refreshed as the most recent, and the oldest go beyond the bound |
| `StickyRouting.StickyPolicy.Pick` | packages/supervisor/src/routing.ts:89-105 | a healthy pinned worker is chosen and its pin refreshed, else the least-loaded one is chosen and pinned |
| `StickyRouting.ChosenIs` | packages/supervisor/src/routing.ts:89-105 | a healthy pin is kept; any other session gets the first healthy worker with the fewest turns in flight, and none exactly when no worker is healthy |
| `StickyRouting.RecencyIsOrder` | packages/supervisor/src/routing.ts:70-105 | the order holds each session ever pinned with its latest worker, by time of last use |
| `StickyRouting.TableIsLru` | packages/supervisor/src/routing.ts:70-105 | after any history of pins the table is the most recent part of that order, within the bound |
| `StickyRouting.RoutingIsLru` | packages/supervisor/src/routing.ts:89-105 | after any traffic the table is the most recent part of what that traffic pinned |
| `StickyRouting.SessionReturnsToItsWorker` | packages/supervisor/src/routing.ts:89-105 | a session returns to its worker while that is healthy and fewer than the bound of other sessions came in between |
| `WorkerPool.PickIsNextInLine` | packages/supervisor/src/pool.ts:226-231 | the least-loaded pick among the untried is ahead of every other healthy worker not yet tried |
| `WorkerPool.Search` | packages/supervisor/src/pool.ts:196-239 | the loop ends, prefers the preferred worker, then takes the next in line, fails exactly if no healthy worker with its channel up accepts, and counts as retries exactly the workers passed over |
| `WorkerPool.Pool.HandOff` | packages/supervisor/src/pool.ts:196-249 | exactly one worker gets the socket and its estimate rises by one, or it is refused once and no estimate changes, exactly if no healthy worker with its channel up accepts |
| `WorkerPool.Pool.NoteRefusal` | packages/supervisor/src/pool.ts:266-270 | a refusal is counted and stamped on every slot with its estimate, which stays |
| `WorkerPool.Pool.Reconcile` | packages/supervisor/src/pool.ts:440-467 | the worker's count replaces the estimate; over-admission and at most one spurious refusal are counted |
| `WorkerPool.Pool.Route` | packages/supervisor/src/main.ts:97-145 | each connection is delivered once, refused once, or dropped because its client left before its head was read; a saturated pool refuses; an admitted one goes, by the pool as it is once its head was read, to its pinned worker if that takes it and else to the next in line, and is refused exactly if nobody takes it; without a pre-read, if the first send goes through, it reaches a worker that was below the limit |
| `HeadScan.HeaderBlockEndIsFirst` | packages/supervisor/src/head.ts:27-30 | the terminator is found exactly where it first occurs |
| `HeadScan.CarrySuffices` | packages/supervisor/src/head.ts:80-136 | three bytes of carry show every terminator that a new chunk completes |
| `HeadScan.ReadHead` | packages/supervisor/src/head.ts:80-136 | for every chunk sequence it stops at the first chunk where the whole contains the terminator or reaches the limit, says which, and returns all bytes consumed |
| `OneEdit.FirstDifference` | packages/knative-server/src/tenancy.ts:14-34 | at the first difference the lengths decide which one edit can still do |
| `OneEdit.EditDistanceAtMostOne` | packages/knative-server/src/tenancy.ts:14-34 | for all strings the two-pointer loop is true if and only if the Levenshtein distance is at most one |
| `WorkQueue.ReachableInv` | packages/work-queue/src/queue.ts:97-217 | in every run of any number of consumers, reapers and collectors, rows, claims, starts, records and marks agree |
| `QueueRuns.StartsAre` | harness/src/leaf-job-runner.ts:53-94 | in every run the starts of a leaf are the claims that read a live row, at most the maximum, and one for each count read back after the row had gone, and then the entry was acknowledged or lost |
| `QueueRuns.BoundedAttempts` | packages/work-queue/src/queue.ts:102-139 | over every run in which claim and count are one step, no start is late and there are at most the maximum |
| `QueueCases.LateStarts` | packages/work-queue/src/queue.ts:136-139 | a run in which a leaf with one attempt starts three times |
| `QueueRuns.NothingLost` | packages/work-queue/src/queue.ts:97-217 | in every run an entry is undelivered, pending, acknowledged with a record or by the reaper, or lost to a collector, and none is lost where no consumer is deleted that took a row since it was listed |
| `QueueRuns.LeavesOnlyByAck` | packages/work-queue/src/queue.ts:141-217 | a row leaves the pending list only by an ack after its record, by the reaper past the limit, or by a collector that deletes its owner after the owner took a row, so a clean exit discards none |
| `QueueRuns.DeleteDiscardsIff` | packages/work-queue/src/queue.ts:163-174 | over all runs, a collector's delete discards a pending row if and only if its consumer took the row after the listing and nobody has taken it since |
| `QueueRuns.EndedConsumerIsSafe` | packages/work-queue/src/queue.ts:163-174 | collecting the consumer of a process that has ended discards nothing, however late the delete comes |
| `QueueCases.CollectRaceLosesRow` | packages/knative-server/src/leaf-job.ts:13 | a run with the job's own limits, in which the consumer meets the collector's test and an entry is lost |
| `QueueRecords.FinalSurvivesIff` | harness/src/leaf-job-runner.ts:53-94 | in every run a final record survives whatever comes if and only if its row is gone and no process is dead-lettering or reaping the entry or owes its record |
| `QueueCases.DyingWriterIsOverwritten` | harness/src/leaf-job-runner.ts:53-94 | a final record whose writer died before its ack is dead-lettered |
| `QueueCases.LivingWriterIsOverwritten` | harness/src/leaf-job-runner.ts:53-94 | a final record whose writer lived and acknowledged is dead-lettered by a claim made before the ack |
| `QueueCases.ReaperOverwrites` | packages/knative-server/src/leaf-job.ts:32-57 | the reaper's own record, written after its ack, overwrites a final one |
| `WorkQueue.Queue.Enqueue` | packages/work-queue/src/queue.ts:97-101 | a new entry at the end of the stream |
| `WorkQueue.Queue.Claim` | packages/work-queue/src/queue.ts:102-134 | of the ten oldest pending rows the first stale one is reclaimed with its count raised, else the next entry becomes a new row, else nothing changes; with at most ten pending none that is stale is missed |
| `WorkQueue.FirstPendingIsPending` | packages/work-queue/src/queue.ts:102-134 | the rows a claim looks at are pending, in order, as many as asked for at most, and none below one of them is left out |
| `WorkQueue.Queue.AckEntry` | packages/work-queue/src/queue.ts:141-145 | the row is gone and no other |
| `WorkQueue.Queue.Touch` | packages/work-queue/src/queue.ts:146-157 | a heartbeat refreshes a row without raising its count |
| `WorkQueue.Queue.GcIdleConsumers` | packages/work-queue/src/queue.ts:163-174 | the listed idle consumers without rows are deleted, with every row they own by now, and every other row stays as it was |
| `WorkQueue.Queue.ReapDeadLetters` | packages/work-queue/src/queue.ts:179-217 | of the first batch of pending rows exactly the stale ones past the limit are taken |
| `WorkQueue.Queue.ProcessOne` | harness/src/leaf-job-runner.ts:31-94 | there is no work exactly when every entry was read and no row that a claim looks at is stale; the entry is the lowest stale row or else the next new one; it is a dead letter exactly when it was delivered as often as allowed, and is otherwise to be retried exactly when its leaf failed with "error" or "saturated"; a record comes before each ack, a retry leaves the row counted once more, and nothing else changes |
| `WorkQueue.Queue.Handle` | harness/src/leaf-job-runner.ts:60-93 | a claimed entry is a dead letter exactly past the limit, and is otherwise run: to be retried exactly on "error" or "saturated", with its row and records as they were, and else recorded and acknowledged |
| `WorkQueue.Queue.Drain` | packages/knative-server/src/leaf-job.ts:68-93 | the loop ends; a clean end has read every entry, leaves no stale row among those a claim looks at, has recorded each entry or left its row untouched, and discards nothing; any other end is on a row of its own within the limit whose leaf failed with "error" or "saturated" |
| `Ustar.SplitUstarPath` | packages/config-bundle/src/tar.ts:15-23 | the loop from slash to slash is the first split that fits |
| `Ustar.FirstSplitIsFirst` | packages/config-bundle/src/tar.ts:15-23 | the split found fits and no earlier one does; none is found only if none fits |
| `Ustar.SplitBounds` | packages/config-bundle/src/tar.ts:10-23 | a split exists if and only if the path is short or some slash fits, and its parts fit their fields |
| `Ustar.WriteHeader` | packages/config-bundle/src/tar.ts:25-43 | the buffer filled in place is the header block of the split path |
| `Ustar.HeaderNames` | packages/config-bundle/src/tar.ts:25-43 | name and prefix stand at their places, padded with NULs |
| `Ustar.HeaderNumbers` | packages/config-bundle/src/tar.ts:25-43 | mode, size, type and magic stand at their places in the ustar format |
| `Ustar.HeaderZeros` | packages/config-bundle/src/tar.ts:25-44 | owner, group and modification time are zero, and so is every byte outside the fields |
| `Ustar.ChecksumField` | packages/config-bundle/src/tar.ts:25-43 | the checksum always fits six octal digits and is the sum of the block with that field blank |
| `Ustar.HeaderRoundTrip` | packages/config-bundle/src/tar.ts:66-92 | a written header reads back as its path, mode and size |
| `Ustar.PathRoundTripIff` | packages/config-bundle/src/tar.ts:10-23 | a path reads back as it was if and only if it has no NUL and is not 101 bytes behind a leading slash |
| `UstarArchive.SortSorts` | packages/config-bundle/src/tar.ts:50-63 | the entries are sorted by path bytes, none lost or added |
| `UstarArchive.BelowAt` | packages/config-bundle/src/tar.ts:51-53 | of two paths that part at a byte the one that ends there comes first, or else the one with the smaller byte |
| `UstarArchive.WriteCanonicalTar` | packages/config-bundle/src/tar.ts:50-63 | the loop collects the canonical archive, or fails when it has none |
| `UstarArchive.ReadTar` | packages/config-bundle/src/tar.ts:66-92 | the loop over an offset reads what the archive holds |
| `UstarArchive.TarRoundTripIff` | packages/config-bundle/src/tar.ts:50-92 | for sizes below 8^11 an archive reads back as its entries, sorted and with default modes, if and only if every path survives the split and every mode is below 8^4 |
| `UstarArchive.TarOfPermutation` | packages/config-bundle/src/tar.ts:50-63 | with distinct paths the archive does not depend on the order of the entries |
| `UstarArchive.TarIsInjective` | packages/config-bundle/src/tar.ts:50-92 | two lists that pack to the same bytes hold the same files |
| `ConfigBundle.RepackSorted` | packages/config-bundle/src/build.ts:29-31 | entries read back from an archive pack to the same bytes again |
| `ConfigBundle.DigestSurvivesPacking` | packages/config-bundle/src/build.ts:154-201 | the packed bundle with its lockfile, read back, has the digest of the entries before the lockfile was added |
| `ConfigBundle.DigestIdentifiesContent` | packages/config-bundle/src/build.ts:29-31 | if the hash tells two archives apart, an equal digest means equal files |
| `ConfigBundle.BundleStore.PutBundle` | harness/src/config-store.ts:45-73 | a bundle is refused if and only if its digest is another; an existing one is left alone, a new one is stored |
| `ConfigBundle.BundleStore.GetBundle` | harness/src/config-store.ts:75-94 | what is returned has the digest asked for, and a stored bundle is always found |
| `ConfigBundle.BundleStore.PromoteAndFetch` | harness/src/config-store.ts:45-94 | every bundle that is built is accepted and can be fetched under its digest; a second upload gets the first one's bytes |
| `Base64.RoundTrip` | packages/k8s-sandbox/src/framing.ts:112-116 | decoding what section 4 of RFC 4648 encodes gives the bytes back |
| `Base64.ValueIsSymbol` | packages/k8s-sandbox/src/framing.ts:112-116 | a byte has a value exactly if it is in the alphabet or one of its two variants, and then the value of that symbol |
| `Framing.FrameParser.Push` | packages/k8s-sandbox/src/framing.ts:97-121 | a push emits all complete frames of the buffer and keeps the rest |
| `Framing.ParseOneIsStable` | packages/k8s-sandbox/src/framing.ts:97-121 | a frame that is complete stays the first frame, with the same bytes, whatever arrives later |
| `Framing.DrainConcat` | packages/k8s-sandbox/src/framing.ts:97-121 | parsing a stream is parsing its first part, then the left-over with the rest |
| `Framing.ChunkingIsIrrelevant` | packages/k8s-sandbox/src/framing.ts:97-121 | for every byte stream and every way of cutting it the frames are those of one push of it all |
| `Framing.BodyHasNoSoh` | packages/k8s-sandbox/src/framing.ts:1-7 | wrapped base64 cannot hold a marker byte |
| `Framing.WrappedIsWellFormed` | packages/k8s-sandbox/src/framing.ts:1-7 | encoded output cut into lines of any lengths is a well-formed body |
| `Framing.DecimalRoundTrip` | packages/k8s-sandbox/src/framing.ts:97-121 | every exit code, negative ones included, reads back as printed |
| `Framing.NumberRoundTrip` | packages/k8s-sandbox/src/framing.ts:97-121 | every number without leading zeros that the end marker may carry is printed as it was read |
| `Framing.StreamRoundTrip` | packages/k8s-sandbox/src/framing.ts:60-121 | a stream of well-formed commands with stray bytes between them, cut in any way, yields exactly their nonces, outputs and exit codes |
| `Quoting.EditorArgv` | packages/mocactl/src/os.ts:48-82 | the index loop splits as the character-by-character scanner does, errors included |
| `Quoting.SplitGivesMeanings` | packages/mocactl/src/os.ts:48-82 | any words made of bare characters, escaped characters, single-quoted and double-quoted texts with their two escapes, with any whitespace around and between them, split into what those pieces mean |
| `Quoting.SimpleWordsSplit` | packages/mocactl/src/os.ts:73-76 | non-empty words without whitespace, quotes or backslashes, joined by spaces, split into themselves |
| `Quoting.SplitRefusesIff` | packages/mocactl/src/os.ts:78-81 | for every command: the error is an unterminated quote exactly when a quote is open at the end, and blank exactly for whitespace alone; every other command splits |
| `Quoting.ScanEscaped` | packages/k8s-sandbox/src/paths.ts:2-4 | inside single quotes an escaped text adds exactly the text |
| `Quoting.QuoteSplitRoundTrip` | packages/k8s-sandbox/src/paths.ts:2-4 | any non-empty list of strings, quoted and joined with spaces, splits back into itself |
| `Quoting.QuotingIsInjective` | packages/k8s-sandbox/src/paths.ts:2-4 | quoting never confuses two lists |
| `Relay.ReachableInv` | packages/sandbox-relay/src/relay.ts:49-144 | in every run sessions, sinks and execs agree, and an exec in flight is on a parked worker or has been told that it ended |
| `Relay.Delivery` | packages/sandbox-relay/src/relay.ts:110-144 | in every run a consumer has been given the start of what its sink got, cut after the first terminal event, and all of it once the generator returned |
| `Relay.GetsWhatIsSent` | packages/sandbox-relay/src/relay.ts:83-88 | if no stream speaks after its end, a sink gets exactly its worker's frames under its request id while in flight, in order, and a disconnect error if the worker ends |
| `Relay.NoLostWakeUp` | packages/sandbox-relay/src/relay.ts:119-140 | in every run a generator that waits has nothing queued and its worker is still parked |
| `Relay.DoneFinishes` | packages/sandbox-relay/src/relay.ts:129-144 | once a terminal event has reached the sink the generator ends by itself with everything up to it delivered |
| `Relay.UnparkedExecEnds` | packages/sandbox-relay/src/relay.ts:90-107 | in every run, execs in flight on a worker taken off its id end by themselves |
| `Relay.EndedExecReturns` | packages/sandbox-relay/src/relay.ts:119-144 | in every run, an exec in flight whose sink got an end or an error is over after finitely many requests for more, with everything up to that event |
| `Relay.NextGives` | packages/sandbox-relay/src/relay.ts:131-140 | in every run, asking an exec in flight for more gives the next event it was sent and has still to give, if there is one |
| `Relay.CloseFrees` | packages/sandbox-relay/src/relay.ts:141-143 | an exec closed at a yield is over at once, and its request id is free on its worker again |
| `Relay.OneWorkerPerId` | packages/sandbox-relay/src/relay.ts:52-69 | if no stream speaks after its end, one live worker at most holds an id, and execs go to it, so a duplicate hello displaces nobody |
| `Relay.NoCrossTalk` | packages/sandbox-relay/src/relay.ts:83-88 | under the same condition an exec is given nothing from another worker or request |
| `Relay.EvictsIff` | packages/sandbox-relay/src/relay.ts:90-107 | ending a stream takes another worker off its id if and only if the stream had ended before and that worker has its id |
| `Relay.SecondTeardownEvicts` | packages/sandbox-relay/src/relay.ts:90-107 | an error and then an end, with a reconnect in between, evict the new worker |
| `Relay.EmptyIdStays` | packages/sandbox-relay/src/relay.ts:90-91 | a worker parked under the empty id is never taken off it |
| `Relay.EmptyIdNeverAnswers` | packages/sandbox-relay/src/relay.ts:83-88 | an exec routed to the empty id waits for good |
| `Relay.WaitsForALiveWorker` | packages/sandbox-relay/src/relay.ts:90-107 | if no stream speaks after its end, a generator waits only for a stream that has not ended, unless the id is empty |
| `Relay.PresenceIsSessions` | packages/sandbox-relay/src/relay.ts:70-105 | the presence writes, in the order issued, list the ids that execs can be routed to |
| `Relay.EveryExecIsWritten` | packages/sandbox-relay/src/relay.ts:127-128 | the exec frames written to a worker are the execs accepted for it, each once, in order |
| `Relay.Bridge.AcceptStream` | packages/sandbox-relay/src/relay.ts:49-51 | a new stream without an id |
| `Relay.Bridge.HandleHello` | packages/sandbox-relay/src/relay.ts:51-82 | a valid hello under a free id parks the worker; one with a bad token changes neither sessions, parked workers nor presence, and closes its stream; any other is closed or ignored |
| `Relay.ParkedWithGoodToken` | packages/sandbox-relay/src/relay.ts:52-70 | in every run, each parked worker said hello on its stream under its id with a good token |
| `Relay.HelloOutcome` | packages/sandbox-relay/src/relay.ts:52-82 | a hello on a stream with an id changes nothing; one with a bad token or for a taken id parks nobody, writes no presence and closes its stream; a good one is served from then on, and its first exec is written to its stream |
| `Relay.RouteRefusedIff` | packages/sandbox-relay/src/relay.ts:110-118 | in every run, a route is refused exactly when nobody serves the id or an exec of that request id is still in flight there |
| `Relay.AbortIsWritten` | packages/sandbox-relay/src/relay.ts:146-148 | in every run, an abort is written to the stream that serves the id, and nothing else changes |
| `Relay.Bridge.HandleFrame` | packages/sandbox-relay/src/relay.ts:83-88 | a frame goes to the sink of its request id on the stream's session, or nowhere |
| `Relay.Bridge.Teardown` | packages/sandbox-relay/src/relay.ts:90-107 | every sink of the session gets a disconnect error, and session and presence are removed |
| `Relay.Bridge.RouteExec` | packages/sandbox-relay/src/relay.ts:110-128 | refused if and only if no worker is parked or the request id is in flight; else registered, written and waiting |
| `Relay.Bridge.RunOn` | packages/sandbox-relay/src/relay.ts:129-144 | the generator runs to its next yield, wait or end, and gives its sink back when it ends |
| `Relay.Bridge.Close` | packages/sandbox-relay/src/relay.ts:141-144 | a consumer that stops at a yield gives the sink back |
| `Relay.Bridge.RouteAbort` | packages/sandbox-relay/src/relay.ts:146-148 | an abort is written to the parked worker, or nowhere |
| `VaultStore.FoldIsLastWrite` | packages/control-plane/src/subject-document.ts:103-122 | after any changes each credential is as the last change to it left it, and unknown fields and the format are as they were |
| `VaultStore.NoLostUpdate` | packages/control-plane/src/vault-store.ts:165-211 | however replicas interleave, with lost requests and answers, the document is the accepted changes in version order, from the outset or the last deletion, if no write is accepted whose document was deleted since it was read |
| `VaultStore.NoSoftDeleteNoStale` | packages/control-plane/src/vault-store.ts:165-182 | where nobody deletes out of band that condition holds and the changes run from the outset |
| `VaultStore.AckedExactlyOnce` | packages/control-plane/src/vault-store.ts:191-211 | an acknowledged update was written exactly once, one that gave up or had nothing to do never, any other once at most |
| `VaultStore.AcknowledgedPutStays` | packages/control-plane/src/vault-store.ts:213-222 | an accepted put is what a read finds until a later write names it, and unknown fields are kept |
| `VaultStore.OutRacedMeansProgress` | packages/control-plane/src/vault-store.ts:191-211 | an update gives up only if five other writes were accepted since it began |
| `VaultStore.SoftDeleteIsUndone` | packages/control-plane/src/vault-store.ts:165-182 | an update that had read before an out-of-band deletion brings the document back |
| `VaultStore.StaleWriteBreaksIff` | packages/control-plane/src/vault-store.ts:165-211 | after any run without a stale write, accepting one breaks the law if and only if what it writes is not its change made to no document at all |
| `VaultStore.Secret.UpdateOnce` | packages/control-plane/src/vault-store.ts:191-211 | whatever others write before each attempt, every attempt but the last read a good document and lost a race; the last ends the update done exactly on an answered write that nobody preceded, failed on a bad read, another format, an unsent request or a lost answer, and with nothing to do only after a good read; its change is then on top of theirs, or theirs stand alone; undisturbed, a put is done at once and a lookup finds its entry |
| `VaultStore.UndisturbedUpdate` | packages/control-plane/src/vault-store.ts:191-234 | an update that nobody disturbs is acknowledged at the first attempt, or finds nothing to delete; a lookup then finds its effect, and every other credential as it was |
| `VaultStore.UnavailableIff` | packages/control-plane/src/vault-store.ts:132-182 | an update turns unavailable exactly when its read fails or finds another format, or its write is not sent or not answered |
| `VaultStore.AnsweredWrite` | packages/control-plane/src/vault-store.ts:195-210 | an answered write is accepted exactly at the version it read; a refused one is tried again, and the fifth refusal ends the update |
| `Ownership.PageSize` | packages/control-plane/src/ownership.ts:147-151 | the size is the request rounded down from one to 200, 200 above, 50 for none or one that is not positive, and zero exactly between zero and one |
| `Ownership.ListByOwner` | packages/control-plane/src/ownership.ts:143-186 | the page holds the surviving members of its range and the cursor of its last member; a size of zero is an error |
| `Ownership.PageGoesDown` | packages/control-plane/src/ownership.ts:179-185 | a page's cursor is a score under the one it was asked with and no higher than any session on it |
| `Ownership.PageLosesNone` | packages/control-plane/src/ownership.ts:143-186 | a session alone with its score is on the page or left for the next, whatever members are ghosts |
| `Ownership.AllSessions` | packages/mocactl/src/headless.ts:216-231 | while the index changes, the walk ends and is its pages in order up to the first without a cursor; no cursor repeats, no session comes twice, the order is descending, and every session that stays and is alone with its score is listed, unless the last page was cut short, and then exactly those under its cursor are missing |
| `Ownership.WalkListsAll` | packages/control-plane/src/ownership.ts:143-186 | with no score shared across a page boundary the pages hold exactly the sessions that exist, in order |
| `Ownership.CompleteIff` | packages/control-plane/src/ownership.ts:143-186 | the pages hold exactly the sessions that exist if and only if none of them is skipped at a page boundary for a shared score, whatever members are ghosts |
| `Ownership.CompleteWithoutGhostsIff` | packages/control-plane/src/ownership.ts:143-186 | when every session exists, that is if and only if no page boundary splits a shared score |
| `Ownership.NoCursorIff` | packages/control-plane/src/ownership.ts:179-185 | a full page carries no cursor if and only if its last member left and none of its members survives |
| `Ownership.GhostPageCutsShort` | packages/control-plane/src/ownership.ts:179-185 | a page of ghosts whose last member leaves before its score is read ends the listing early |

## Left out

- Networks, Redis, Vault, Kubernetes, gRPC and HTTP clients: only the operations the protocols use are modelled, each as one atomic step.
- Timers, processes and sockets: they are steps that may happen at any time; wall-clock bounds appear only in the lease model, on one clock shared by all holders.
- Cryptography: a digest is an arbitrary function of the archive's bytes, and a credential's sealed entry is a value that does not change when an update is tried again.
- Agent sessions, models, prompts, telemetry, authentication, credential exchange and the terminal interface: branch-by-branch logic that would add only easy members.
- ConfigCache.Sandbox.CachePopulate: a script that runs on after its exec timed out is not modelled, and neither are the checks of digest and session id.
- LeaseTimings.TwoRenewalsFit: a knob is an optional number; turning the environment's text into it is left out.
- SandboxPool.SelectPoolSandbox: a lease is given back at once when its transport cannot be built, and a release that fails then is left out.
- Ustar.HeaderRoundTrip: a number field that does not start with an octal digit is an error in the model, where the source would go on with a value that is not a number.
- ConfigBundle.BundleStore.PutBundle: compression, the text encoding of the stored value and its expiry are left out.
- WorkQueue.ReachableInv: any stale row may be reclaimed in a run, where one call of the source looks at the ten oldest; a record is kept per entry, where entries of one leaf session share it; the stream itself is never trimmed.
- QueueRuns.BoundedAttempts: needs claim and count as one step, because the source reads the count in a second one; StartsAre gives the number of starts without it.
- Framing.StreamRoundTrip: the shell's own behaviour in running the wrapped command is not modelled, only the stream it prints; exit codes are unbounded integers.
- Relay.Bridge.HandleHello: token validation is a yes or no, and the labels and capacity in the presence record are left out.
- VaultStore.Secret.UpdateOnce: the per-process queue that serialises updates of one subject is left out, since the proof does not need it; documents of a malformed shape, other than of another format version, are left out.
- Ownership.ListByOwner: a page sees one state of the index, but for its last member leaving before the score is read; ownership checks and the fields of a record are left out.
- Session id extraction from a request head, the near-miss hint around the one-edit matcher, and drain on shutdown: easy members.
