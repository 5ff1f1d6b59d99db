# Verification of the Solana token listener

A Dafny model of the parts of the listener where correctness is hard to see: the
hydration admission and permit protocols, finality reconciliation with its
diagnostics and readiness, catch-up and pool coverage, the snapshot size
prediction, the block classifier, and the evidence the canary scripts aggregate.
`dafny verify dfyconfig.toml` checks everything.

How the code is modelled:

- An object that updates its fields is a class, a loop is a method, and each is
  proved against a specification function on values; the theorems are about that
  function.  `HydrationGroupAdmission`, `FinalityReconciler`, `DeepSnapshot`,
  `CatchUpScan`, `TrackedPoolPoller`, `RecurringReconciler` and
  `ProviderAffineHydration` hold the classes.
- A protocol is a step function over its state and every await is a step
  boundary, so a run is any interleaving: several reconcilers, scanners, sweeps
  or passes, signals, timeouts, crashes and writes by others.
- Clocks, provider answers, database outcomes, signals and timers are inputs:
  parameters of a call or of an event, arbitrary unless a theorem says
  otherwise.  A clock reading is a real number or a failed reading.
- Some state records what happened, for the theorems only (evidence logs, lists
  of grants, the first checkpoint).  No operation reads it.
- Numbers that JavaScript keeps safe are compared with 2^53 - 1, and evidence
  versions with the largest PostgreSQL BIGINT.  JavaScript strings are sequences
  of UTF-16 code units where encoding matters, elsewhere sequences of
  characters compared by code point.  The source compares UTF-16 units; the two
  orders agree on the texts compared, which are ASCII (base58 signatures, program
  and provider identifiers, joined numeric keys).

Where a natural claim turned out false, the code is kept, a lemma shows the
failing case and another says when the claim holds:

- A request the admission accepted is not always answered: if its grant in a later
  dispatch overflows the group's reference count, it has left the queue and is
  neither granted nor rejected.  `AnswerCanBeLost` gives the run, `LostIffFull` the
  exact condition, `WorkerRequestFate` and `ClassifierRequestFate` the other fates,
  and no run of at most 2^53 - 1 operations under a steady clock fails at all
  (`NeverFailsWithoutCause`).
- The incident tracker accepts one family of states no run reaches
  (`AcceptedButUnreachable`); `AcceptedIffReached` is exact.
- The canary cannot pair an incident of twelve failures, nor one that opens
  earlier than a time observed in an incident before it; `ReportsPairIff` is
  exact.  A clock that steps back within an incident does no harm (`ClockSteps`).
- Fingerprint preimages collide on lone surrogates and on a hint spelled `NONE`,
  and nowhere else (`PreimageIff`).
- A pool sweep that exhausts its pages and stores its checkpoint, but times out,
  crashes or loses the answer before it returns, skips a range that is never
  reported as a gap (`GapGoesUnreported`); if every such sweep returns in time,
  the reports are complete (`PoolCoveredByReports`).
- Two catch-up scans that both find no checkpoint can leave a hole
  (`OverlappingStartsLeaveHole`).  It takes a store by a scan that read no
  checkpoint over one its page does not reach down to (`CheckpointsCovered`), and
  `HoleIsExactly` says which rows such a store leaves missing.
- Withdrawing a queued permit request does not drain the queue, so it can leave a
  worker waiting that could share the permit (`WithdrawalCanStrand`);
  `WithdrawalStrandsIff` says exactly when.

## Model

| member | source | states |
|---|---|---|
| AdmissionTheorems.RunKeepsInvariant | src/application/hydration-group-admission.ts:108-375 | after every interleaving of registrations, requests, binds, releases, aborts, worker closes, close and clock failures: one admission at a time, bound tickets are the group's references, one outstanding item per worker, queues with nothing left to join or admit, requests accounted for, and nothing pending after a failure |
| AdmissionTheorems.InitialInvariant | src/application/hydration-group-admission.ts:87-106 | a new allocator satisfies that invariant |
| AdmissionTheorems.WorkerGrantedWithin | src/application/hydration-group-admission.ts:215-237 | a worker at queue position p that still waits after a run has seen fewer than 2(p + 1) fresh admissions |
| AdmissionTheorems.ClassifierBypassedAtMostOnce | src/application/hydration-group-admission.ts:215-237 | while classifiers wait, at most one fresh worker admission happens and no fresh classifier admission |
| AdmissionTheorems.OneAdmission | src/application/hydration-group-admission.ts:239-295 | in every reachable state there is never both an unbound ticket and a group, a ticket is bound exactly when the group holds it, and every ticket the group holds was asked for or bound to the group's key |
| AdmissionTheorems.RequestsConserved | src/application/hydration-group-admission.ts:185-213 | until failure, per role, requests = grants + cancellations + pending |
| AdmissionTheorems.IdleMeansEmpty | src/application/hydration-group-admission.ts:215-237 | while open and idle both queues are empty |
| AdmissionTheorems.PendingKeys | src/application/hydration-group-admission.ts:136-146 | pending classifiers share one key and no pending request asks for the active group's key |
| AdmissionTheorems.OneItemPerWorker | src/application/hydration-group-admission.ts:108-134 | a worker never has two outstanding items, be they requests or permits |
| AdmissionTheorems.FailedStays | src/application/hydration-group-admission.ts:352-375 | after failing closed nothing waits, no permit or worker is added, no worker opens, a permit changes only by being released, and the first failure code stays |
| AdmissionFates.WorkerRequestFate | src/application/hydration-group-admission.ts:115-131 | an accepted worker request, after any run that follows: waits unchanged in its queue, or has a permit for its worker and for the key it named, or was cancelled or refused, or was dropped when its own grant overflowed the reference count; a permit or refusal is final |
| AdmissionFates.ClassifierRequestFate | src/application/hydration-group-admission.ts:136-146 | the same for an accepted classifier request |
| AdmissionLoss.LostIffFull | src/application/hydration-group-admission.ts:239-257 | the grant of a waiter leaves it without an answer exactly when the clock and the grant counter are in order and the group already holds 2^53 - 1 references |
| AdmissionLoss.AnswerCanBeLost | src/application/hydration-group-admission.ts:185-282 | a run from the new allocator that does: one reservation, 2^53 - 1 accepted classifier requests for one group, and the bind to that group; the last classifier is neither granted, cancelled nor refused |
| AdmissionHealth.NeverFailsWithoutCause | src/application/hydration-group-admission.ts:333-362 | the allocator never fails closed in a run of at most 2^53 - 1 operations under a clock that does not step back nor move more than 2^53 - 1 milliseconds |
| AdmissionOutcomes.BindDone | src/application/hydration-group-admission.ts:272-282 | a bind answered without error leaves a group with exactly the caller's key that holds the ticket, the ticket bound to that key, and no queued request for that key |
| AdmissionOutcomes.BindAccepted | src/application/hydration-group-admission.ts:272-278 | a bind is refused as an invalid permit exactly when the ticket is not the current reservation, and as an invalid key exactly when the key is empty |
| AdmissionOutcomes.ReleaseDone | src/application/hydration-group-admission.ts:284-295 | after a release the ticket is released and neither the reservation nor in the group |
| AdmissionOutcomes.AbortDone | src/application/hydration-group-admission.ts:194-200 | an aborted queued request leaves its queue cancelled, without a permit |
| AdmissionOutcomes.CloseWorkerDone | src/application/hydration-group-admission.ts:297-304 | a closed worker is not open and its queued request is cancelled |
| AdmissionOutcomes.CloseDone | src/application/hydration-group-admission.ts:174-184 | close leaves no waiter, turns every one of them away and keeps what is admitted |
| AdmissionOutcomes.RegisterDone | src/application/hydration-group-admission.ts:108-113 | registration hands out a new, open, idle, registered worker exactly when not closed or failed |
| AdmissionOutcomes.WorkerAccepted | src/application/hydration-group-admission.ts:115-131 | a worker request is accepted exactly when the worker is open and idle and names a proper group or none; a refusal changes nothing but the clock reading |
| AdmissionOutcomes.ClassifierAccepted | src/application/hydration-group-admission.ts:136-146 | a classifier request is accepted exactly when its group is active or no classifier waits for another |
| AdmissionOutcomes.JoinsAtOnce | src/application/hydration-group-admission.ts:201-207 | whoever asks for the active group's key is in it at once |
| AdmissionStatistics.FiguresTrue | src/application/hydration-group-admission.ts:148-172 | after every run the pending peaks are the longest worker queue of any state of the run and whether a classifier ever waited, and each role's longest wait is at least its last, both known once it was served |
| AdmissionStatistics.WaitRecorded | src/application/hydration-group-admission.ts:326-331 | a grant or cancellation records the whole milliseconds waited and the longest so far; an aborted request records zero |
| AdmissionStatistics.TurnPassesIffContested | src/application/hydration-group-admission.ts:215-237 | a dispatch passes the turn to the other role exactly when the allocator is open and idle and both roles wait |
| HydrationGroupAdmission.Admission.Dispatch | src/application/hydration-group-admission.ts:215-237 | the loops and turn-taking of dispatch produce exactly the state the run theorems are about |
| HydrationGroupAdmission.Admission.Grant | src/application/hydration-group-admission.ts:239-257 | a grant records the wait, installs the ticket and owner, and fails closed on a bad clock or a full counter, as in the run model |
| HydrationGroupAdmission.Admission.Cancel | src/application/hydration-group-admission.ts:306-313 | cancelling dismisses a still queued waiter and dispatches; a settled one is left alone |
| HydrationGroupAdmission.Admission.Request | src/application/hydration-group-admission.ts:185-213 | an aborted request is only counted; any other is queued, then joined, or dispatched, and the peaks raised |
| HydrationGroupAdmission.Admission.RegisterWorker | src/application/hydration-group-admission.ts:108-113 | the new worker, or the refusal, of the run model |
| HydrationGroupAdmission.Admission.AcquireWorker | src/application/hydration-group-admission.ts:115-131 | both acquire forms reply and change the state as in the run model |
| HydrationGroupAdmission.Admission.AcquireClassifier | src/application/hydration-group-admission.ts:136-146 | a second pending key is refused; otherwise the request of the run model |
| HydrationGroupAdmission.Admission.BindGroup | src/application/hydration-group-admission.ts:272-282 | the reply and state of the run model's bind, which leaves a group of the caller's key (BindDone) |
| HydrationGroupAdmission.Admission.Release | src/application/hydration-group-admission.ts:284-295 | releasing is idempotent, frees the admission when it was the last reference and works after close and failure |
| HydrationGroupAdmission.Admission.Abort | src/application/hydration-group-admission.ts:194-200 | an abort cancels at a fresh clock reading, and a bad reading fails closed |
| HydrationGroupAdmission.Admission.CloseWorker | src/application/hydration-group-admission.ts:297-304 | closing a worker cancels its queued request and keeps its permit |
| HydrationGroupAdmission.Admission.Close | src/application/hydration-group-admission.ts:174-184 | close cancels every queued waiter, workers first |
| HydrationGroupAdmission.Admission.Fail | src/application/hydration-group-admission.ts:363-374 | failing closes every worker and rejects every waiter without dispatching |
| FinalityTheorems.OrphanOnlyOnProof | src/application/finality-reconciler.ts:108-179 | for any number of interleaved reconcilers, arbitrary provider answers and other writers: every committed orphan revision rests on the threshold of consecutive missing polls at the pass's own provider, the last of them made by that pass and still the newest write to the row, on a finalized root above the slot and on the block of its own slot, without the signature; no signature is orphaned twice |
| FinalityTheorems.FinalizedOnlyOnAnswer | src/application/finality-reconciler.ts:108-131 | likewise every committed finalizing revision rests on a finalized answer with the row's own slot, at or below the finalized root of the pass that wrote it; no row is finalized twice |
| FinalityTheorems.CounterIsTrailingRun | src/application/finality-reconciler.ts:225-257 | in every reachable state the stored counter and provider are the maximal run of same-provider missing polls that ends the row's history, and an open row's version is the length of that history |
| FinalityTheorems.TerminalStays | src/storage/transaction-inbox.repository.ts:2269-2364 | a finalized row is never orphaned and an orphaned row never revived, whatever follows |
| FinalityTheorems.CommittedPollAccepted | src/application/finality-reconciler.ts:416-450 | a poll that passes the compare-and-set always satisfies the transition check made afterwards |
| FinalityTheorems.PollCommitsIffUntouched | src/storage/transaction-inbox.repository.ts:2196-2267 | a poll commits exactly when nobody wrote the row since the candidate was read and neither counter nor version is exhausted |
| FinalityTheorems.RevisionCommitsIffUntouched | src/storage/transaction-inbox.repository.ts:2308-2341 | an orphan revision commits exactly when nobody wrote the row since the pass's poll |
| FinalityTheorems.RunKeeps | src/application/finality-reconciler.ts:108-299 | the invariant behind these results holds after every run |
| FinalityPass.DueIsGrouped | src/application/finality-reconciler.ts:136-151 | in every reachable state of any interleaving: an untouched candidate whose answer is missing is among the slots to prove after its poll exactly when its history then ends in at least threshold missing polls at the pass's provider and its slot is below the root |
| FinalityPass.PassOutcome | src/application/finality-reconciler.ts:121-178 | what polls and proofs add up to for every row, stated over the evidence logs |
| FinalityPass.ConfirmedForCause | src/storage/transaction-inbox.repository.ts:2196-2267 | a row no other writer touched and that is still open after any run is confirmed exactly when it was confirmed before or a poll since saw it confirmed |
| FinalityTheorems.TerminalRepeats | src/storage/transaction-inbox.repository.ts:2269-2341 | a terminal row takes its own revision again, unchanged, unless it is being processed, and never the opposite one |
| FinalityReconciler.Reconciler.RunPass | src/application/finality-reconciler.ts:121-178 | a pass polls every candidate, then proves slots, and ends idle as a run of the protocol.  When it returns Ok, every candidate whose history with this missing answer ends in threshold misses at the provider, below the root, in the first sixteen such slots is orphaned, every other candidate is as its poll left it, finalized or open, and no other row changed.  It returns Ok if no candidate was touched and the due blocks are readable and lack them, and reports an unreadable block exactly when one of those read was |
| FinalityReconciler.Reconciler.ProveSlots | src/application/finality-reconciler.ts:153-178 | the slot loop is a run of block reads and revisions that orphans every member of the slots it read; it stops early only on a contradiction or a failed revision |
| FinalityReconciler.Reconciler.PollAll | src/application/finality-reconciler.ts:123-151 | polling all candidates is that many poll steps; polls plus finalized revisions count them, each row is as its answer calls for, and the groups hold exactly the due candidates by slot |
| FinalityReconciler.Reconciler.PollCandidate | src/application/finality-reconciler.ts:125-151 | one candidate is polled, finalized or refused as one protocol step, and joins the slots to prove exactly when it is due |
| FinalityReconciler.Reconciler.ReviseCandidate | src/application/finality-reconciler.ts:278-299 | one eligible candidate is orphaned or refused as one protocol step, and no other row changes |
| FinalityDiagnostics.CoherentIffReachable | src/application/finality-reconciler-diagnostic-tracker.ts:242-263 | the counter check holds of exactly the (failures, suppressed, cadence) triples that some incident of n >= 1 failures reaches, on either side of saturation |
| FinalityDiagnostics.FailureContinues | src/application/finality-reconciler-diagnostic-tracker.ts:88-126 | a further failure of an n-failure incident is never refused, leads to the n + 1 counters, and is reported exactly when n + 1 is a multiple of twelve, with the incident's start, the later of both times, the duration and both counters |
| FinalityDiagnostics.FailureOpens | src/application/finality-reconciler-diagnostic-tracker.ts:88-108 | a first failure opens an incident and is reported; a recovery of no incident is not |
| FinalityDiagnostics.RecoveryCloses | src/application/finality-reconciler-diagnostic-tracker.ts:128-149 | a recovery always reports the incident's start, duration, failures and suppressed count in a valid diagnostic, and leaves the tracker idle |
| FinalityDiagnostics.RunNeverFails | src/application/finality-reconciler-diagnostic-tracker.ts:41-149 | over every run no reached state is refused and every reported diagnostic passes its own validator |
| FinalityDiagnostics.IncidentAccounts | src/application/finality-reconciler-diagnostic-tracker.ts:110-126 | of n failures in a row 1 + n/12 are reported, and below saturation reported + suppressed = n |
| FinalityDiagnostics.CountersReportable | src/domain/finality-reconciler-diagnostic.ts:140-150 | reached counters satisfy the diagnostic's suppression check, saturated or not |
| FinalityDiagnostics.AcceptedIffReached | src/application/finality-reconciler-diagnostic-tracker.ts:41-86 | over all runs of failures and recoveries: a state is reached exactly when the state check accepts it and it is not a single failure observed later than it opened |
| FinalityDiagnostics.AcceptedButUnreachable | src/application/finality-reconciler-diagnostic-tracker.ts:66-76 | such a state: accepted, and reached by no run of failures and recoveries |
| FinalityPairing.EvaluateFinality | scripts/lib/mainnet-observe-canary-verdict.ts:748-785 | healthy exactly when the other checks pass and the log is degradations and recoveries in turn, in order and before the stop; each other check is reported exactly when it is the first to fail |
| FinalityPairing.PairMeans | scripts/lib/mainnet-observe-canary-verdict.ts:758-784 | for any log at all, each verdict exactly: healthy, an open incident, or entries after the stop, by how many entries are well placed, and otherwise unpairable |
| FinalityPairing.ReportsPairIff | scripts/lib/mainnet-observe-canary-verdict.ts:758-784 | whatever the clock does before the stop, the tracker's reports are unpairable exactly when some twelve consecutive failures occur or an incident opens earlier than a time observed in an incident before it, otherwise an open incident exactly when the run ends failing, otherwise healthy |
| FinalityPairing.TrackerReportsPair | scripts/lib/mainnet-observe-canary-verdict.ts:758-784 | so under a nondecreasing clock only twelve consecutive failures spoil the pairing |
| FinalityPairing.ClockSteps | scripts/lib/mainnet-observe-canary-verdict.ts:760-764 | two runs: a step back between incidents spoils the pairing, a step back within an incident does not |
| SnapshotBytes.SnapshotSizeExact | src/application/observed-transaction-pipeline.ts:313-408 | for every value: the traversal accepts it exactly when every other limit holds and the UTF-8 size of its JSON text is within the limit, it then accounted exactly that size, and it reports the size limit only when the true size exceeds it |
| SnapshotBytes.SnapExact | src/application/observed-transaction-pipeline.ts:313-394 | from any counters, acceptance is equivalent to the per-part limits and the three totals, and the counters grow by exactly those totals |
| SnapshotBytes.BytesExact | src/application/observed-transaction-pipeline.ts:321-387 | the accounted size of strings, numbers, bigints, arrays and objects is the UTF-8 size of their JSON text |
| SnapshotBytes.QuoteBytes | src/application/observed-transaction-pipeline.ts:410-443 | a quoted string takes two bytes more than its accounted characters, for all UTF-16 strings, paired and lone surrogates included |
| SnapshotBytes.JsonStringBytes | src/application/observed-transaction-pipeline.ts:410-443 | the loop returns the UTF-8 size of the quoted string |
| SnapshotBytes.SizeErrorTruthful | src/application/observed-transaction-pipeline.ts:403-408 | a size error implies that the accounted total exceeds the limit |
| SnapshotBytes.BoundNeverMismatches | src/application/observed-transaction-pipeline.ts:396-401 | after an accepted snapshot the size check never fails: writing it either yields exactly the accounted bytes or is refused, exactly for a value holding the reserved marker object |
| SnapshotBytes.ShapedBigIntsFit | src/utils/json.ts:13-28 | an accepted snapshot holds no bigint the writer refuses |
| SnapshotFaults.RefusalIsReal | src/application/observed-transaction-pipeline.ts:313-408 | a refused snapshot names a limit that the value breaks, in one of its parts or in its nodes, its text or the true size of its JSON |
| SnapshotRead.RoundTrip | src/utils/json.ts:13-36 | every value that can be written is read back from its text, bigints and lone surrogates included |
| SnapshotRead.TextsDiffer | src/utils/json.ts:13-28 | no two such values have the same text |
| SnapshotRead.MarkerWouldCollide | src/utils/json.ts:14-17 | why the one-entry marker object is refused: with a decimal it has the text of a bigint |
| DeepSnapshot.SnapshotState.Snapshot | src/application/observed-transaction-pipeline.ts:313-394 | the recursive traversal over the mutable counters returns an equal copy or the first limit broken |
| DeepSnapshot.BoundedSnapshot | src/application/observed-transaction-pipeline.ts:228-232 | snapshot and check together succeed exactly on values within all limits and without the reserved marker, never report a mismatch, and a limit they report is one the value breaks |
| CatchUpDiscovery.MergeCatchUpDiscoveries | src/application/catch-up-discovery.ts:23-45 | the merge loop fails exactly when two rows of a signature disagree, and otherwise returns one described row per signature in order |
| CatchUpDiscovery.MergeMeans | src/application/catch-up-discovery.ts:23-84 | disagreement on slot, known block time or failure flag is the only failure; otherwise one row per signature, sorted, with the strongest status, the known block time and all program ids |
| CatchUpDiscovery.MergeAscends | src/application/catch-up-discovery.ts:74-84 | the merged rows ascend by slot, and by signature within a slot |
| CatchUpDiscovery.ConflictBlamed | src/application/catch-up-discovery.ts:47-60 | a conflict names the program of the first row that disagrees with one before it |
| CatchUpDiscovery.MergeIgnoresOrder | src/application/catch-up-discovery.ts:23-84 | any order of scans and rows gives the same merge |
| CatchUpDiscovery.ReconcileIff | src/application/catch-up-discovery.ts:47-60 | a row reconciles exactly when it agrees with every earlier row of its signature |
| CatchUpScanner.ScanProgram | src/application/catch-up-scanner.ts:174-266 | the paging loop with its cursor, duplicate and order checks computes the paging function |
| CatchUpScanner.ReadPage | src/application/catch-up-scanner.ts:204-218 | one page is taken row by row: refused, stopped at the checkpoint, or appended |
| CatchUpScanner.ScanIsFull | src/application/catch-up-scanner.ts:174-266 | against any honest source, however its head moves between pages, the scan returns exactly the rows newer than the checkpoint if it lies within the window, and otherwise the window error or the live-edge gap |
| CatchUpScanner.StrictScan | src/application/catch-up-scanner.ts:187-252 | from any page on, a strict scan finds the checkpoint exactly when it lies within the remaining window |
| CatchUpCoverage.StrictCoverage | src/application/catch-up-scanner.ts:117-172 | over every run of strict scans one at a time, with failures and crashes at any step and a growing history, every row after a program's first checkpoint up to its current one is in the inbox |
| CatchUpCoverage.LiveEdgeCoverage | src/application/catch-up-scanner.ts:117-172 | with live-edge scans too, such a row is in the inbox or inside a recorded gap |
| CatchUpCoverage.CheckpointsCovered | src/application/catch-up-scanner.ts:117-172 | the same for overlapping scanners, unless in the run a scan that read no checkpoint stores one over an existing checkpoint that its page does not reach down to |
| CatchUpCoverage.HoleIsExactly | src/application/catch-up-scanner.ts:145-164 | what such a store leaves missing: exactly the rows between the old checkpoint and its page that were missing before |
| CatchUpOverlap.OverlappingStartsLeaveHole | src/application/catch-up-scanner.ts:117-172 | that exception is real: a run of two scanners from the empty system ends with the checkpoint at the third row and the second row neither enqueued nor in a gap |
| CatchUpScan.Scanner.Scan | src/application/catch-up-scanner.ts:117-172 | against honest sources a whole scan ends idle having made the writes of a run of the coverage protocol.  If it returns Ok, each program with a row newer than its old checkpoint has the newest row at the head it read as checkpoint and every other program keeps its own, exactly the rows in the window were added to the inbox, and exactly the gaps past the window were recorded.  It returns Ok if the checkpoints are readable, the newest rows storable and the programs agree |
| CatchUpScan.Scanner.ScanOne | src/application/catch-up-scanner.ts:120-123 | reading a checkpoint and paging back to it is two protocol steps |
| CatchUpScan.Scanner.Discover | src/application/catch-up-scanner.ts:119-125 | both programs are paged and merged before anything is written, which succeeds if both are readable and agree |
| CatchUpScan.Scanner.EnqueueAll | src/application/catch-up-scanner.ts:126-142 | exactly the merged signatures are added to the inbox, in order, before any checkpoint moves |
| CatchUpScan.Scanner.StoreScan | src/application/catch-up-scanner.ts:145-164 | one program stores its checkpoint, records its gap, keeps both or fails, as one protocol step that leaves the inbox alone; StoreOneMeans says which |
| CatchUpAdvance.FullScanMeans | src/application/catch-up-scanner.ts:174-266 | what a scan of any history at any head finds: it succeeds exactly when it is a first scan, the checkpoint is in the window, or a live edge is not behind it; its rows, newest row and gap are stated over the history |
| CatchUpAdvance.StoreOneMeans | src/application/catch-up-scanner.ts:145-164 | storing it makes the newest visible row the checkpoint if anything is new and else changes nothing, and records the gap exactly when the window does not reach the old checkpoint |
| CatchUpStores.CheckpointsNeverGoBack | src/storage/transaction-inbox.repository.ts:2721-2839 | over every run, once a program has a checkpoint it keeps one, and its slot never falls |
| CatchUpStores.StoreGoesOn | src/storage/transaction-inbox.repository.ts:2721-2758 | a store over a checkpoint is refused exactly if it goes back in slot, or sideways without a later time, and keeps the later of both times |
| CatchUpStores.GapGoesOn | src/storage/transaction-inbox.repository.ts:2760-2839 | a gap is taken exactly at its lower end, which it moves to the upper, or at its upper end, which it leaves |
| CatchUpCoverage.StoreCheckpointKeeps | src/storage/transaction-inbox.repository.ts:2721-2758 | a stored checkpoint is covered by its scan's base and rows |
| CatchUpCoverage.RecordGapKeeps | src/storage/transaction-inbox.repository.ts:2760-2839 | a recorded gap covers the rows the live-edge scan passed over |
| BlockClassifier.ClassifyPipelined | src/application/pumpfun-catch-up-block-classifier.ts:268-294 | the pipelined loop makes the same record calls in the same order with the same receipts or first error as the plain loop; in its calls, every recorded slot was hydrated before and no slot is hydrated more than one ahead of a later record |
| BlockClassifier.Classify | src/application/pumpfun-catch-up-block-classifier.ts:189-197 | the plain loop, which hydrates each slot before recording it and no slot ahead |
| BlockClassifier.TracesRecord | src/application/pumpfun-catch-up-block-classifier.ts:268-294 | both loops make one record call for every recorded classification, at that classification's slot, in slot order |
| BlockClassifier.ClassifySlot | src/application/pumpfun-catch-up-block-classifier.ts:296-326 | whatever the grouping by commitment, a slot settles as its rows hydrated in order (SettleMeans) |
| BlockClassifier.SettleMeans | src/application/pumpfun-catch-up-block-classifier.ts:308-326 | a slot settles exactly when all its rows do, with the i-th value of the i-th row; otherwise with the failure of the first failing row |
| BlockClassifier.ReceiptsAnswer | src/application/pumpfun-catch-up-block-classifier.ts:189-197 | receipt m is the answer to record call m given the calls before it; a failure is the answer to the last call made or a slot's failed hydration |
| BlockClassifier.GroupRows | src/application/pumpfun-catch-up-block-classifier.ts:302-307 | every row index lands in a group, each group holds rows of one commitment, and no commitment has two groups |
| BlockClassifier.RecordsInSlotOrder | src/application/pumpfun-catch-up-block-classifier.ts:189-197 | the records made are a prefix of the classifications in slot order, all of them with one receipt each on success |
| EvidenceFingerprint.PreimageIff | src/application/pumpfun-catch-up-block-classifier.ts:657-684 | two classifications hash the same bytes exactly when they agree after lone surrogates become U+FFFD and a hint spelled NONE becomes no hint |
| EvidenceFingerprint.PreimageInjective | src/application/pumpfun-catch-up-block-classifier.ts:657-684 | on well-formed Unicode without such a hint the preimage is injective |
| EvidenceFingerprint.LoneSurrogateCollides | src/application/pumpfun-catch-up-block-classifier.ts:677-682 | outside it is not: a lone surrogate collides with U+FFFD |
| EvidenceFingerprint.NoneCollides | src/application/pumpfun-catch-up-block-classifier.ts:668 | and a hint mint spelled NONE with none, which no base58 mint spells |
| EvidenceFingerprint.FramesInjective | src/application/pumpfun-catch-up-block-classifier.ts:677-682 | the length-prefixed segment stream decodes uniquely |
| EvidenceFingerprint.Digest | src/application/pumpfun-catch-up-block-classifier.ts:676-683 | the update loop feeds exactly the preimage |
| UtfCodes.SameBytesIff | src/application/pumpfun-catch-up-block-classifier.ts:678 | two texts have the same UTF-8 bytes exactly when they agree once lone surrogates are replaced |
| Readiness.ReadyMeansProven | src/application/production-listener-factory.ts:995-1077 | in every reachable state of promotions, clears, starts, timers, passes and close: ready for a selection implies it is current and names a provider, the reconciler is open, and a pass succeeded that started, opened its provider and ended at that revision |
| Readiness.PassMakesReady | src/application/production-listener-factory.ts:1044-1065 | a pass that ends at the selection it started from makes an open reconciler ready for it |
| Readiness.ChangeWithdraws | src/application/promoted-provider-selector.ts:53-66 | two promotions withdraw readiness even when they return to the same provider |
| Readiness.RunKeeps | src/application/production-listener-factory.ts:947-1077 | the invariant behind these results holds after every run |
| Readiness.ReadyAfterPass | src/application/production-listener-factory.ts:947-1065 | from any state of an open, watched reconciler with a provider selected: the next start or timer, if its pass succeeds undisturbed, makes it ready for that selection and schedules another |
| Readiness.PassBegins | src/application/production-listener-factory.ts:1044-1056 | a start or a due timer withdraws readiness and begins a pass at the current selection, failed at once without a provider |
| Readiness.OpenUses | src/application/production-listener-factory.ts:1044-1056 | a pass uses the provider selected when it opens one, fails without one, and opens only once |
| Readiness.HandledSchedules | src/application/production-listener-factory.ts:953-1027 | every handled pass sets running or degraded and schedules the next, except a failed start that is to fail |
| Readiness.AskRevokes | src/application/production-listener-factory.ts:1067-1077 | asking keeps readiness for the current selection and revokes any other |
| Readiness.SelectorMoves | src/application/promoted-provider-selector.ts:53-65 | a known provider is selected at the next revision, and only the selected one is cleared, which withdraws readiness |
| Readiness.ClosedForGood | src/application/production-listener-factory.ts:977-985 | a closed reconciler stays closed, begins no pass and is never ready again |
| Readiness.CloseStops | src/application/production-listener-factory.ts:977-1042 | closing stops at once without a pass in flight, and otherwise when that pass or its deadline ends |
| RecurringReconciler.PromotedProviderSelector.Promote | src/application/promoted-provider-selector.ts:53-59 | an unknown provider is refused; a known one becomes active at the next revision |
| RecurringReconciler.PromotedProviderSelector.Clear | src/application/promoted-provider-selector.ts:61-65 | clearing the active provider leaves none at the next revision; clearing another changes nothing |
| RecurringReconciler.RecurringFinalityReconciler.Start | src/application/production-listener-factory.ts:947-952 | starting withdraws readiness and begins a pass, unless closed |
| RecurringReconciler.RecurringFinalityReconciler.RunCurrentPass | src/application/production-listener-factory.ts:1044-1056 | a pass withdraws readiness and reads the selection, failing without a provider |
| RecurringReconciler.RecurringFinalityReconciler.SettlePass | src/application/production-listener-factory.ts:1057-1065 | readiness is granted only at an unchanged selection of an open reconciler |
| RecurringReconciler.RecurringFinalityReconciler.HandlePass | src/application/production-listener-factory.ts:953-1027 | the handlers of a settled pass set the state, keep or withdraw readiness and schedule the next |
| RecurringReconciler.RecurringFinalityReconciler.Fire | src/application/production-listener-factory.ts:1003-1010 | a timer withdraws readiness and begins a pass, unless closed |
| RecurringReconciler.RecurringFinalityReconciler.CloseReconciler | src/application/production-listener-factory.ts:977-985 | closing withdraws readiness for good |
| RecurringReconciler.RecurringFinalityReconciler.IsReadyFor | src/application/production-listener-factory.ts:995-1001 | the answer is the readiness of the model, and a stale readiness is revoked |
| PermitLock.ScansExclusive | src/application/provider-affine-catch-up-hydration.ts:420-488 | in every reachable state two holders are both workers and share one provider/token context |
| PermitLock.GrantsInOrder | src/application/provider-affine-catch-up-hydration.ts:456-488 | grants follow the order of requests, and nothing queued was requested before anything granted |
| PermitLock.NeverFreeWithWaiter | src/application/provider-affine-catch-up-hydration.ts:420-488 | queue length + max(0, references - 1) stays within 1024, and an open permit is never free with a waiter |
| PermitLock.RequestsAccounted | src/application/provider-affine-catch-up-hydration.ts:420-454 | every request is queued, granted or rejected, and only one of these |
| PermitLock.RunKeeps | src/application/provider-affine-catch-up-hydration.ts:420-488 | the invariant behind these results holds after every run, with signals that fire before their listeners run |
| PermitLock.DrainKeeps | src/application/provider-affine-catch-up-hydration.ts:456-488 | draining settles the permit from any state with sound holders, order and accounts |
| PermitLock.OthersSettle | src/application/provider-affine-catch-up-hydration.ts:420-488 | every event other than a withdrawal keeps the permit settled: no waiter is left that could be granted or could share |
| PermitLock.WithdrawalStrandsIff | src/application/provider-affine-catch-up-hydration.ts:428-434 | in reachable settled states, a withdrawal leaves such a waiter exactly when a worker context is held and the queue without the withdrawn request is non-empty, holds no scan and starts with a worker of that context |
| PermitLock.StrandedBy | src/application/provider-affine-catch-up-hydration.ts:428-434 | what was withdrawn then is a scan, or the first in the queue |
| PermitLock.SettledUnlessStranded | src/application/provider-affine-catch-up-hydration.ts:420-488 | over whole runs the permit stays settled unless some withdrawal strands a waiter |
| PermitLock.WithdrawalCanStrand | src/application/provider-affine-catch-up-hydration.ts:428-434 | two runs from the start that do: a scan, or a worker of another context, withdraws from before a worker that could share |
| PermitOutcomes.EpochCountsRoutes | src/application/provider-affine-catch-up-hydration.ts:472-486 | in every reachable state the cache is bound to the context of the workers that hold the permit, or to none if the route was cleared, and the epoch counts the changes of route, wrapping at 2^53 - 1 |
| PermitOutcomes.RouteEvents | src/application/provider-affine-catch-up-hydration.ts:538-571 | binding, clearing and invalidating a route each move to the next epoch; binding the bound route does nothing |
| PermitOutcomes.AcquireDone | src/application/provider-affine-catch-up-hydration.ts:420-443 | in a settled state a request that is not refused is granted at once exactly if nobody waits and the permit is free or held by workers of its context, and joins the end of the queue otherwise |
| PermitOutcomes.LastRelease | src/application/provider-affine-catch-up-hydration.ts:445-488 | releasing the last holder hands the permit to the first waiter that has not been aborted |
| PermitOutcomes.LastReleaseFrees | src/application/provider-affine-catch-up-hydration.ts:445-488 | and frees it if there is none |
| PermitOutcomes.SharedRelease | src/application/provider-affine-catch-up-hydration.ts:451-454 | releasing one of several workers only gives its reference back |
| PermitOutcomes.HoldsUntilReleased | src/application/provider-affine-catch-up-hydration.ts:445-454 | a holder keeps the permit through every event but its own release |
| PermitOutcomes.RejectedForCause | src/application/provider-affine-catch-up-hydration.ts:420-443 | a request is rejected only when aborted, refused on arrival or at close |
| PermitOutcomes.CloseDone | src/application/provider-affine-catch-up-hydration.ts:228-238 | close rejects whoever waits, takes nothing from the holders, and every later request is refused |
| PermitOutcomes.DequeueDone | src/application/provider-affine-catch-up-hydration.ts:428-434 | a withdrawal removes the aborted waiter and nothing else |
| ProviderAffineHydration.Permit.Drain | src/application/provider-affine-catch-up-hydration.ts:456-488 | the recursive drain reaches exactly the state the theorems are about |
| ProviderAffineHydration.Permit.Acquire | src/application/provider-affine-catch-up-hydration.ts:420-443 | a request is refused exactly when closed, when its signal has fired or when the envelope is full, otherwise queued and drained |
| ProviderAffineHydration.Permit.OnAbort | src/application/provider-affine-catch-up-hydration.ts:428-434 | a queued waiter is removed and rejected, nothing else changes |
| ProviderAffineHydration.Permit.ReleaseWorkerRoute | src/application/provider-affine-catch-up-hydration.ts:451-454 | the last reference frees the permit and drains |
| ProviderAffineHydration.Permit.ReleaseScan | src/application/provider-affine-catch-up-hydration.ts:445-449 | a scan's release frees the permit and drains |
| ProviderAffineHydration.Permit.CloseHydration | src/application/provider-affine-catch-up-hydration.ts:228-238 | close rejects every queued waiter |
| ProviderAffineHydration.Permit.BindScanRoute | src/application/provider-affine-catch-up-hydration.ts:178-183 | a scan that holds the permit binds its own route |
| ProviderAffineHydration.Permit.BindWorkerRoute | src/application/provider-affine-catch-up-hydration.ts:302-305 | so does a worker, with the context it asked with, if any |
| ProviderAffineHydration.Permit.ClearRoute | src/application/provider-affine-catch-up-hydration.ts:538-545 | a moved selection or an aborted scan leaves no route, at the next epoch |
| ProviderAffineHydration.Permit.InvalidateActiveCacheEpoch | src/application/provider-affine-catch-up-hydration.ts:562-565 | revoked sharing keeps the route and moves the epoch |
| TrackedPoolSweep.SweepIs | src/application/tracked-pool-poller.ts:219-265 | against an honest history, while the head moves: a checkpoint within the budget gives exactly the contiguous newer rows, confirmed; beyond it the newest 5000, unconfirmed; with nothing new, success exactly when nothing arrived before the probe |
| TrackedPoolSweep.SweepExactly | src/application/tracked-pool-poller.ts:219-265 | against an honest history of acceptable rows: a sweep awaits the boundary exactly when it was not seen although the pages ended, and otherwise plans exactly the rows down to the checkpoint or the budget, confirmed exactly when the boundary was seen |
| TrackedPoolSweep.BoundaryIff | src/application/tracked-pool-poller.ts:246-265 | a visible checkpoint within the budget is always seen below newer rows, never beyond the budget, and with nothing new exactly when nothing arrived before the probe |
| TrackedPoolSweep.ReadSweep | src/application/tracked-pool-poller.ts:220-265 | the paging loop computes the sweep and counts pages and signatures |
| TrackedPoolSweep.AppendPage | src/application/tracked-pool-poller.ts:236-245 | a page is appended row by row or refused as inconsistent |
| TrackedPoolCoverage.PoolCovered | src/application/tracked-pool-poller.ts:168-292 | over all cycles, timeouts, crashes and late writes, every row from the activation to the stored checkpoint is failed, enqueued or in a range a budget-exhausted sweep passed over |
| TrackedPoolCoverage.PoolCoveredByReports | src/application/tracked-pool-poller.ts:168-292 | if in the run every such sweep whose write lands also returns, neither expired nor failed, that range was reported GAP_SKIPPED |
| TrackedPoolCoverage.GapGoesUnreported | src/application/tracked-pool-poller.ts:168-192 | without that condition it fails: runs from the empty pool whose write lands after the timeout, before it, or before a lost answer or crash leave a row missing, below the checkpoint and in no reported gap |
| TrackedPoolCoverage.HonestSweepReads | src/application/tracked-pool-poller.ts:219-265 | every plan an honest sweep makes is one the runs allow |
| TrackedPoolPoller.Poller.Sweep | src/application/tracked-pool-poller.ts:205-292 | an unhindered sweep of an honest, acceptable history is SUCCEEDED exactly when the boundary was seen, else AWAITING_BOUNDARY if the pages ended and GAP_SKIPPED otherwise; and whatever happens, a reported outcome has added exactly the non-failed rows it stands for to the inbox and stored the newest of them, or changed nothing |
| TrackedPoolPoller.Poller.FinishSweep | src/application/tracked-pool-poller.ts:266-291 | the write half is a run of the pool; it succeeds if nothing expires and the newest row is no step back, an outcome is reported only when every non-failed row read is in the inbox and the newest is the checkpoint, SUCCEEDED exactly when the boundary was confirmed, and a reported gap is among the reported ranges |
| TrackedPoolPoller.Poller.EnqueueRow | src/application/tracked-pool-poller.ts:266-280 | a row is enqueued unless its transaction failed |
| TrackedPoolPoller.Poller.StoreNewest | src/storage/tracked-pool.repository.ts:71-85 | the checkpoint moves exactly when one is stored at no later slot |
| TerminalAttribution.SectionConserves | scripts/lib/mainnet-terminal-attribution.ts:109-155 | a section is built exactly when its rows' counts sum to a safe integer, and then total = sum of input counts = retained + overflow and, for valid rows, unavailable = sum of the counts of the unavailable input rows |
| TerminalAttribution.SectionBuilt | scripts/lib/mainnet-terminal-attribution.ts:109-155 | a section of valid rows retains, in key order, the groups of the min(128, d) least of its d distinct keys, each with its rows' fields, summed count and least representative; the overflow is the other d minus 128 groups and their rows |
| TerminalAttribution.ArtifactBuilt | scripts/lib/mainnet-terminal-attribution.ts:109-155 | an artifact is built exactly from valid rows and a consistent incomplete count whose sums are safe and whose text fits, and each section is its rows' own |
| TerminalAttribution.ParsedRebuilds | scripts/lib/mainnet-terminal-attribution.ts:170-247 | a section without overflow is parsed exactly when building its own groups gives it back, save the unavailable count, which the parser holds only between what the groups show and the total |
| TerminalAttribution.SectionIgnoresOrder | scripts/lib/mainnet-terminal-attribution.ts:534-610 | any order of the same rows builds the same section, minimum representatives included |
| TerminalAttribution.ArtifactIgnoresOrder | scripts/lib/mainnet-terminal-attribution.ts:109-155 | any order of both inputs builds the same artifact, or the same refusal |
| TerminalAttribution.BuiltArtifactParses | scripts/lib/mainnet-terminal-attribution.ts:170-268 | every built artifact is accepted unchanged by its own parser |
| TerminalAttribution.SectionParses | scripts/lib/mainnet-terminal-attribution.ts:170-247 | every built section meets all the parser's demands: counts, bounds, overflow, order and row validity |
| TerminalAttribution.CoalesceRows | scripts/lib/mainnet-terminal-attribution.ts:534-570 | the coalescing loop computes the groups, failing when a count leaves the safe integers |
| TerminalAttribution.CoalesceOk | scripts/lib/mainnet-terminal-attribution.ts:534-570 | each group has the common fields, the summed count and the least representative of exactly the rows of its key |
| AttributionRows.KeysTellFields | scripts/lib/mainnet-terminal-attribution.ts:572-593 | rows of a section have equal sort keys exactly when all their fields are equal |
| AttributionRows.KeysTellRepresentatives | scripts/lib/mainnet-terminal-attribution.ts:595-601 | representatives have equal keys exactly when they are equal |
| SortKeys.SortableOrder | scripts/lib/mainnet-terminal-attribution.ts:760-762 | padded keys order safe integers numerically and tell them apart |
| SortKeys.JoinInjective | scripts/lib/mainnet-terminal-attribution.ts:756-758 | a NUL-joined key determines its NUL-free components |
| MigrationMatcher.InnerChildren | src/application/pumpswap-migration-matcher.ts:155-183 | on the listing of any CPI forest with recorded stack heights, the check holds between inner instructions exactly of tree children |
| MigrationMatcher.OuterChildren | src/application/pumpswap-migration-matcher.ts:155-171 | and below an outer instruction exactly of its direct children |
| MigrationMatcher.MatchMigrations | src/application/pumpswap-migration-matcher.ts:30-87 | the loop over migrations with its consumed set computes the matching |
| MigrationMatcher.ActivatedOnce | src/application/pumpswap-migration-matcher.ts:36-85 | each creation is activated at most once, by a migration whose fields it shares and whose direct child it is |
| MigrationMatcher.MatchOneMeans | src/application/pumpswap-migration-matcher.ts:36-85 | one migration: a missing instruction is reported exactly when none is at its place, ambiguity exactly when two unconsumed creations of its pool and mints are its direct children; a sole one is activated if its pool was validated and agrees, a mismatch if it does not, and ignored if its pool was not validated |
| MigrationMatcher.FindMeans | src/application/pumpswap-migration-matcher.ts:137-153 | the instruction is missing exactly when none of the program has that index |
| MigrationMatcher.ConsumptionRedundant | src/application/pumpswap-migration-matcher.ts:36-52 | on the listing of a CPI forest, migrations at distinct instructions have the outcome, errors included, of matching each as if nothing had been consumed |
| CapacityGate.FailureIsFinal | scripts/lib/mainnet-observe-canary-v2.ts:110-134 | if partial samples fail the gate, every way of filling their missing cells still fails it |
| CapacityGate.PassIff | scripts/lib/mainnet-observe-canary-v2.ts:110-134 | a pass means exactly: every cell present and valid, one provider membership, no rejection, no oversized response, every counter climbing over the whole run, the right worker count while running and nothing left at the stop |
| CapacityGate.RegressesIffNotChain | scripts/lib/mainnet-observe-canary-v2.ts:89-99 | for sequences of any length with nullable counters, the neighbour check finds a regression exactly when some later value is below an earlier one |
| CapacityGate.RegressionKept | scripts/lib/mainnet-observe-canary-v2.ts:86-99 | filling in missing samples never hides a regression |

## Left out

- JavaScript object hygiene (proxies, prototypes, property descriptors, freezing, error identity): values arrive already typed; cyclic values do not exist here.
- PostgreSQL, RPC transport, WebSockets, files, loggers, process signals and the wiring in the application entry points: only the calls the modelled code makes.
- The admission's `metrics()` view and its oldest-wait figure: a read of the modelled fields.
- `sharedScanPermit` and the block cache around the permit: the permit is modelled, with its route as scans, workers and selections change it at any time; when they do, and what the epoch invalidates in the cache, are not.
- White space, fractions and exponents in JSON texts: the reader reads what the writer writes.
- The diagnostics the recurring reconciler emits: the tracker is modelled by itself; emission cannot affect readiness.
- The inbox rewrite that starts a never admitted row again at evidence version zero, and the purge of terminal rows: rows under finality only move forward in the model.
- Limits on candidate lists (256) and the validation of provider answers by type: answers are typed, lists of any length.
- The classifier's coverage path, its grouping of discoveries into slots, and cancellation: the pipeline and the plain loop are compared without abort.
- SHA-256, base58 and the program decoders: claims are about preimages and structure.
- `assertValidatedPool`: a parameter of the matcher; a conjunction of equalities.
- The pool poller's cycle report and scheduling: sweeps are begun by any event.
- The other canary gates and the field-by-field parsing of canary inputs.
- ValidRepresentative: accepts any short base58 text as a signature and does not decode it to 64 bytes, so the attribution theorems cover more rows than the code admits.
- HonestSweepReads: an answer older than a cursor is taken to be the same at any later head, as an append-only history gives it.
- PoolCoveredByReports: one direction only; a range that goes unreported may still be enqueued by another sweep, so the converse does not hold.
- CheckpointsCovered: one direction only over whole runs; after such a store another scan may still enqueue the rows between, so a later state can be complete again.
- Sweep: no other sweep runs in between; interleavings are the subject of `PoolCovered`.
