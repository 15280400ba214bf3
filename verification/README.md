# A model of the print agent

The agent accepts print jobs over HTTP, queues them in SQLite and prints them on Bluetooth ticket
printers that never acknowledge paper. Its promise is that it never silently duplicates a ticket.
This project models the parts of the agent that keep the promise and proves what they rest on. It
checks with `dafny verify dfyconfig.toml`.

## How it is built

* `Domain`, `Tables`, `Schema`, `Transactions`: the rows of the queue database, the constraints of
  its first migration, and what each repository transaction does, as functions on a database value.
* `History`, `Invariant`, `Preservation`, `AcceptPurge`: the invariant `Invariant.Valid` - the shape
  of every target's history of runs, and the agreement of the deduplication rows with the runs - and
  its preservation by every transaction, hence by every sequence of transactions.
* `Effects`, `Requests`: one closed form for what any transaction does to rows.
* `Answers`, `Insertions`: what each transaction answers and what it leaves, told by rows and their
  columns, the error that comes first included.
* `Chains`, `Refusals`, `Progress`, `Order`, `Stability`, `Fulfilment`, `Retention`,
  `ReprintRequests`: theorems about every reachable database.
* `Scenario`, `AgentScenario`, `BrokerScenario`: concrete runs that reach the exceptional cases.
* `Repository`: the repository as an object around a private database, one method per transaction
  with the loops of the source, each proved equal to its function in `Transactions`.
* `Gates`, `Worker`, `Agent` and the files beginning with `Agent`, `AtMostOnce`: the two gates, the
  loops of a worker, and N workers interleaved with requests, crashes and restarts. A ghost tape
  records each run of which a byte has left (`AgentLedger`: it misses none), and workers can always
  finish (`AgentProgress`).
* `Printers`, `Acceptance`, `Lifecycle`: concurrent acceptances, and retiring printers.
* `Transport`: the three chunked writers. `Broker`, `BrokerRuns`: the RFCOMM profile broker.
* `Wrap`, `Money`, `Builder`: line wrapping, prices, and the ESC/POS stream.

A step that the source takes under one lock or in one SQLite transaction is one atomic step here.
`Io` says what the database does to one attempt: it commits, it fails before the commit, or it
commits and loses the acknowledgement.

## Assumptions

* One agent process uses a database, and SQLite transactions are atomic and durable.
* A `ClaimNextQueued` that reports an error changed nothing (`Repository.ClaimNextQueued` requires
  it, `Agent.Claiming` builds it in). Unlike the other transitions a claim is not repeatable: a
  claim that commits and loses its acknowledgement would leave its run processing until a restart.
* `port.Write` and `socket.Write` report their byte counts truthfully. A GATT write error that is
  neither a timeout nor a cancellation accepted no byte of its chunk.
* Hashes are injective, so a digest is kept as the value it was computed from. Random job and run
  ids never repeat; `Agent.FreshIds` says where that is used, and without it an insertion can also
  fail on the id itself.
* Instants are whole numbers of seconds and are compared as numbers.
* A code page puts no printable rune on a control byte (`Builder.PageOk`).

## Where the code and its documentation differ

* The documentation says that unresolved failed or uncertain work is never purged. The retention
  query excuses results whose target is cancelled. `Retention.UnresolvedWorkPurgedExactly` says when
  such work goes: exactly when the job has expired and all its open runs are of cancelled targets.
  `Scenario.UnresolvedTicketGoes` is a smallest case. Live work never goes
  (`Chains.PurgeSparesLiveWork`).
* It also says that finished jobs are kept for 48 hours. A failed run that a later retry made good
  keeps its unresolved state, so its job is not purged until it is reprinted, however late
  (`Scenario.PrintedTicketStays`).
  `Retention.PurgedExactly` says which jobs go, by the latest run of each target, and
  `Retention.CompletedJobPurgedExactly` that for jobs with good latest results automatic retries
  alone decide.
* For the same reason the dashboard's `AttentionCount` and the attention filter of the job list
  differ: `Retention.CountedExactly` gives the runs that only the former counts, those of cancelled
  targets and the failures that a retry made good.
* The documentation says a confirmed zero-byte failure is the only one retried. The serial and
  RFCOMM writers also report a first chunk ended by a context deadline as not sent, although part of
  it may have left; `Transport.SendMeetsContract` gives the exact condition and
  `Transport.DeadlineBreaksContract` the smallest case. Contexts of the running agent end by
  cancellation, which is reported as ambiguous.
* `wrap` is described as breaking on spaces where possible. A paragraph that starts with a space may
  have a short word split; `Wrap.WordsKeptExactly` gives the exact condition.
* `ConnectionState` answers from the broker's `states`, which need not agree with its sockets.
  `BrokerRuns.StateAgreesExactly` gives the condition. An old socket or call that is finished with
  late marks a connected device as disconnected (`BrokerScenario.LateCloseMisreports`), and a
  replaced bus leaves a device without a socket marked as connected until its old socket is closed
  (`BrokerScenario.ReplacedBusMisreports`).

## Model

| member | source | states |
|---|---|---|
| AcceptPurge.ReplayKeepsValid | internal/jobs/repository.go:140-790 | the database invariant holds after every sequence of transactions, failed ones included |
| AcceptPurge.CommitKeepsValid | internal/jobs/repository.go:140-790 | each single transaction, committed or rolled back, keeps the invariant |
| AcceptPurge.EmptyIsValid | internal/storage/migrations/0001_init.sql:30-146 | the freshly migrated database satisfies it |
| AcceptPurge.AcceptKeepsValid | internal/jobs/repository.go:140-182 | accepting a job gives each target a one-run history and disturbs no other |
| AcceptPurge.PurgeKeepsValid | internal/jobs/repository.go:772-790 | retention with its cascades leaves every remaining history and deduplication row consistent |
| Preservation.ClaimKeepsValid | internal/jobs/repository.go:344-357 | a claim keeps the invariant |
| Preservation.MarkKeepsValid | internal/jobs/repository.go:359-403 | recording any outcome keeps it |
| Preservation.CancelRunKeepsValid | internal/jobs/repository.go:405-408 | cancelling a queued run keeps it |
| Preservation.ConfirmKeepsValid | internal/jobs/repository.go:410-433 | confirming an uncertain run keeps it |
| Preservation.CancelEachKeepsValid | internal/jobs/repository.go:442-476 | cancelling any list of targets keeps it |
| Preservation.ReprintKeepsValid | internal/jobs/repository.go:502-583 | a manual reprint of any list of printers keeps it, the deduplication row and its runs arriving together |
| Preservation.RetryKeepsValid | internal/jobs/repository.go:606-700 | creating or giving up an automatic retry keeps it |
| Preservation.RecoverKeepsValid | internal/jobs/repository.go:753-770 | crash recovery keeps it |
| Effects.Effect | internal/jobs/repository.go:140-770 | every transaction but retention maps the rows it finds and appends fresh ones behind them |
| Requests.UpdatesPassTheSchema | internal/storage/migrations/0001_init.sql:107-137 | no update of any transaction runs into the identity trigger, the status-transition trigger or the row checks |
| Answers.ClaimExactly | internal/jobs/repository.go:344-357 | not found exactly when nothing is queued for the printer, else the run queued first starts and no other row changes |
| Answers.MarkExactly | internal/jobs/repository.go:359-403 | for each outcome the columns that the processing run gets, what a repeated mark does, and when it is refused; the job stays 48 hours more |
| Answers.CancelRunExactly | internal/jobs/repository.go:405-408 | a queued run is cancelled, a cancelled one left, any other refused |
| Answers.ConfirmExactly | internal/jobs/repository.go:410-433 | exactly an unresolved uncertain run is confirmed |
| Answers.CancelTargetsExactly | internal/jobs/repository.go:435-481 | done exactly when each named printer has a target without a transmitted or confirmed run and without a processing one; else the error of the first printer that fails, fulfilled before processing before unknown; exactly the named targets are cancelled, their queued runs with them and their pending retries given up |
| Answers.RetryExactly | internal/jobs/repository.go:606-700 | a pending failure gets a run numbered one more, queued or failed for changed content, unless the three runs before it in its history were automatic retries, when it is given up; any other run is refused |
| Answers.RoundNeverFails | internal/jobs/repository.go:585-604 | while the database works a round over any pending runs answers each of them and reports exactly the runs it added, in order |
| Answers.RoundInOrder | internal/jobs/repository.go:585-604 | the round takes exactly the pending runs of the printer, those queued earlier first |
| Answers.RecoverExactly | internal/jobs/repository.go:753-770 | exactly the processing runs become uncertain, with the code for a restart |
| Answers.PurgeExactly | internal/jobs/repository.go:772-790 | jobs that go take their targets, runs and deduplication rows along, and nothing else goes or changes |
| Insertions.AcceptExactly | internal/jobs/repository.go:140-182 | refused exactly for a known id or identity; otherwise the job, its targets in order and a queued first run for each |
| Insertions.ReprintExactly | internal/jobs/repository.go:502-583 | the answer to every request, the first printer that fails deciding it; on success one marked run per printer, earlier failures answered, targets reopened |
| Chains.RunNumbersExact | internal/jobs/repository.go:547-550 | the run numbers of a target are 1..n, each used once |
| Chains.OneLiveRun | internal/storage/migrations/0001_init.sql:110-113 | a target has at most one queued, processing or retry-pending run; it is the highest-numbered, and every other uncertain run is resolved |
| Chains.RetryContinues | internal/jobs/repository.go:622-631 | an automatic retry points to the run numbered one less, of the same content mode, which failed and is not retryable any more |
| Chains.ReprintNeverRevertsToNormal | internal/jobs/repository.go:559-562 | once a target prints marked content it never prints unmarked content again |
| Chains.TargetBounds | internal/jobs/repository.go:632-637 | a target has at most 4(1+r) runs for r reprints, four being the first of a block and three retries, of which at most 1+r may have printed and at most one unmarked |
| Chains.CancelledHasNoLiveRun | internal/jobs/repository.go:459-475 | a cancelled target has no live run |
| Chains.PurgeSparesLiveWork | internal/jobs/repository.go:778-783 | retention never removes a job with a live run although its query ignores cancelled targets |
| Retention.UnresolvedWorkPurgedExactly | internal/jobs/repository.go:778-783 | the job of an unresolved failed or uncertain run is purged exactly when it has expired and every queued, processing, pending or unanswered run of it belongs to a cancelled target |
| Retention.PurgedExactly | internal/jobs/repository.go:778-783 | a job is purged exactly when it has expired and each of its targets is cancelled or has a latest run that is neither open nor an automatic retry |
| Retention.CompletedJobPurgedExactly | internal/jobs/repository.go:778-783 | when the latest run of every target produced its ticket, an expired job stays exactly when one of these runs, on a target not cancelled, is an automatic retry |
| Retention.CountedExactly | internal/jobs/repository.go:730-733 | a counted run is one the attention filter finds, unless it is unmarked and its target is cancelled or an automatic retry made it good |
| Retention.AttentionCountExact | internal/jobs/repository.go:730-733 | so a printer's count is the number of its runs that need attention plus the number of these exceptions |
| Retention.AttentionCountMeans | internal/jobs/repository.go:730-733 | the count of a printer is the size of the set of its runs with an uncertain or unretried failed result and no resolution |
| Schema.RefusedExactly | internal/storage/migrations/0001_init.sql:71-113 | a row is refused exactly when the table with it would break a check, a unique index or a foreign key of the migration |
| Refusals.RetryNeverRefused | internal/storage/migrations/0001_init.sql:95-113 | creating a retry is never rejected by an index, a check or a foreign key, only by a repeated random id |
| Refusals.ReprintNeverRefused | internal/storage/migrations/0001_init.sql:95-113 | nor is a manual reprint, for any list of printers |
| Progress.StepLowersPotential | internal/jobs/repository.go:606-700 | without new requests every claim, mark or retry that changes a target lowers a measure that nothing raises |
| Progress.QueueComesToRest | internal/jobs/repository.go:606-700 | so the queue makes a bounded number of moves for a target however the steps are interleaved |
| Order.ClaimsAreFifo | internal/jobs/repository.go:344-351 | over the life of the database successive claims for one printer have strictly increasing queue_sequence |
| Order.EarlierStartsFirst | internal/jobs/repository.go:344-351 | in every reachable database nothing has started for a printer while earlier work for it still waits |
| Order.NothingOvertakes | internal/jobs/repository.go:344-351 | from the empty database on, nothing is printed for a printer while a run queued for it earlier still waits |
| Order.SequenceNeverFalls | internal/storage/migrations/0001_init.sql:72 | row numbers only grow, also across retention |
| Stability.FulfilmentStable | internal/jobs/models.go:174-193 | over any run of transactions that keeps the job, a fulfilled target stays fulfilled with the same FulfilledAt |
| Stability.TargetsFixed | internal/storage/migrations/0001_init.sql:65-69 | over any such run the printers of the job and their order never change |
| Stability.OrdersDistinct | internal/storage/migrations/0001_init.sql:61 | the targets of a job have different places in every reachable database, so their order names one listing |
| Stability.CompletedIsAbsorbing | internal/jobs/models.go:236-246 | over any run of transactions that keeps the job, a completed job stays completed with the same CompletedAt |
| Stability.ClaimedRunOwned | internal/jobs/repository.go:435-583 | no transaction but its own mark and recovery touches a claimed run's row or removes its job or target |
| Stability.MarkAgain | internal/jobs/repository.go:359-384 | repeating a mark succeeds and leaves every run row as the first one did |
| Stability.ActivityDelaysRetention | internal/jobs/repository.go:379-382 | a transaction that records, cancels, confirms or reprints keeps its job on file through every later run of transactions whose retentions come within 48 hours |
| Stability.ReprintRequestExact | internal/jobs/repository.go:510-575 | the deduplication row exists exactly when each named printer has one run carrying the request; retries never carry it |
| ReprintRequests.Reprint | internal/jobs/service.go:355-427 | the service call, with any other work between its lookup and its insertion: new, repeated, conflicting and unknown requests |
| ReprintRequests.RepeatedAnswer | internal/jobs/service.go:410-427 | the same request gives back the runs that carry it, another one under the same id conflicts |
| ReprintRequests.GrantedOnce | internal/jobs/service.go:381-405 | however much happens after a reprint was granted, the same request gives back its runs, one per named printer, a different one conflicts, and neither creates anything |
| ReprintRequests.RefusedRequestCanBeRepeated | internal/jobs/repository.go:504-508 | after a refusal, however much happens later, the same id is a duplicate exactly if it has been granted meanwhile, and until then no run carries it |
| ReprintRequests.DedupKept | internal/storage/migrations/0001_init.sql:139-146 | a deduplication row is never altered and goes only with its job |
| Repository.Repository.constructor | internal/jobs/repository.go:140-145 | an empty database that satisfies the invariant |
| Repository.Repository.InsertJob | internal/jobs/repository.go:140-182 | job, targets and runs in one transaction, in order, all or nothing |
| Repository.Repository.ClaimNextQueued | internal/jobs/repository.go:344-357 | the queued run of least queue_sequence, or not found, and the claimed row |
| Repository.Repository.Transition | internal/jobs/repository.go:359-384 | the shared tail: zero affected rows are accepted exactly when the run already has the wanted status, and the job is kept 48 hours more |
| Repository.Repository.MarkRun | internal/jobs/repository.go:386-403 | the table and the answer after one attempt to record an outcome |
| Repository.Repository.MarkTransmitted | internal/jobs/repository.go:386-391 | the transmitted outcome |
| Repository.Repository.MarkFailed | internal/jobs/repository.go:393-397 | the failed outcome, retryable or not |
| Repository.Repository.MarkUncertain | internal/jobs/repository.go:399-403 | the uncertain outcome |
| Repository.Repository.CancelRun | internal/jobs/repository.go:405-408 | a queued run is cancelled, a cancelled one accepted again, any other refused |
| Repository.Repository.ResolveUncertain | internal/jobs/repository.go:410-433 | only an unresolved uncertain run can be resolved, once; the invariant stays exactly unless reprint_requested is stored without a reprint |
| Repository.Repository.CancelTargets | internal/jobs/repository.go:435-481 | the two loops in one transaction: the answer and the database are those that Answers.CancelTargetsExactly tells |
| Repository.Repository.InsertManualReprints | internal/jobs/repository.go:502-583 | all printers or none, after the deduplication row, with the errors in the order of the source |
| Repository.Repository.ChainDepth | internal/jobs/repository.go:620-631 | the walk along previous_run_uid terminates and counts exactly the retries of the block |
| Repository.Repository.MaterializeRetry | internal/jobs/repository.go:606-700 | under any limit: a retry, a run already failed for changed content, or a retry given up |
| Repository.Repository.MaterializeRetries | internal/jobs/repository.go:585-604 | the loop over candidates, each answered as Answers.RetryExactly tells at the limit of three; when it reports no error the printer has no retry-pending run left |
| Repository.Repository.RecoverAbandoned | internal/jobs/repository.go:753-770 | every processing run becomes uncertain and is reported |
| Repository.Repository.PurgeExpired | internal/jobs/repository.go:772-790 | expired jobs without live or unanswered work go, with all that belongs to them |
| Repository.Repository.HasActiveRuns | internal/jobs/repository.go:713-718 | true exactly when the printer has a live run |
| Repository.Repository.AttentionCount | internal/jobs/repository.go:730-751 | for each printer the number of its unresolved uncertain and unretried failed runs, with no entry for none |
| Fulfilment.DeriveJob | internal/jobs/models.go:151-262 | the fold over targets and runs yields the declared state, counts, flags, completion instant and last update |
| Fulfilment.StateMeans | internal/jobs/models.go:236-260 | each state by the statuses and resolutions of the runs: completed when every target has a transmitted or confirmed run, else printing, queued, attention required in this order, then partially completed or cancelled |
| Fulfilment.FulfilledAtMeans | internal/jobs/models.go:181-193 | the instant of the first fulfilling run that has one: transmission, confirmation, or else the end of the run |
| Fulfilment.CompletedAtMeans | internal/jobs/models.go:239-246 | the latest of the targets' fulfilment instants |
| Fulfilment.MomentsAre | internal/jobs/models.go:157-180 | the last update is taken over exactly the creation of the job, the cancellations and the four instants of every run |
| Fulfilment.FlagsMean | internal/jobs/models.go:194-206 | uncertain results, manual reprints and unanswered marked runs by the columns of the runs |
| Fulfilment.CountMeans | internal/jobs/models.go:207-212 | the number of targets with a transmitted or confirmed run |
| Fulfilment.AttentionAgrees | internal/jobs/repository.go:286-302 | for every reachable job the SQL filter holds exactly when an open target has an unanswered result or a marked run has one |
| Fulfilment.GetDetail | internal/jobs/repository.go:250-264 | so the derived RequiresAttention holds exactly when the filter holds or DeriveJob took its default branch |
| Fulfilment.StuckMeansRunsCancelled | internal/jobs/models.go:257-259 | the default branch is taken only when some open, uncancelled target's latest run was cancelled on its own |
| Gates.PairedCallKeepsGate | internal/printers/persistence.go:46-75 | paired begin and end calls never close a channel twice, and a waiter's channel stays one that is closed or will be closed by this pause |
| Gates.WaitersAreWoken | internal/printers/persistence.go:29-75 | whatever paired calls follow, a channel taken during a pause is closed by the time nothing is failing any more |
| Gates.PauseReports | internal/printers/persistence.go:46-81 | from the call that shuts the gate to the one that opens it, whatever calls come between: the failures under way, the instant of the first, the error reported last, and one channel of its own, closed at the end and no other |
| Gates.PersistenceGate.Poll | internal/printers/persistence.go:29-44 | a waiter passes exactly when nothing is failing |
| Gates.PersistenceGate.Begin | internal/printers/persistence.go:46-56 | the first failure makes a new channel and notes the instant |
| Gates.PersistenceGate.Update | internal/printers/persistence.go:58-62 | only the reason changes |
| Gates.PersistenceGate.End | internal/printers/persistence.go:64-75 | the new state, and exactly when closing would panic |
| Gates.PersistenceGate.Status | internal/printers/persistence.go:77-81 | paused, reason and instant agree |
| Gates.TransmissionGate.TryAcquire | internal/printers/transmission_gate.go:18-25 | one caller gets the permit |
| Gates.TransmissionGate.Release | internal/printers/transmission_gate.go:27 | the permit is back, without blocking |
| Worker.Worker.Persist | internal/printers/worker.go:428-468 | after any script of failures and lost acknowledgements the run rows are those of the first attempt that reached the database, and the queue is paused exactly until an acknowledged attempt with an answered ping |
| Worker.StoredAtMeans | internal/printers/worker.go:428-468 | the instant stored is that of the first attempt the database did not refuse |
| Worker.FinishesMeans | internal/printers/worker.go:428-468 | done means an acknowledged attempt, followed by an answered ping unless it was the first |
| Worker.Worker.ClaimNext | internal/printers/worker.go:270-304 | the claim of the first attempt the database takes, every earlier one having changed nothing |
| Worker.Worker.Process | internal/printers/worker.go:329-426 | each failure before the write with its code; then sent exactly when every chunk came back whole under a confirmed link, not printed and retryable exactly when the first failing chunk leaves no doubt, unknown otherwise, with the bytes counted; and which bytes left |
| Transport.VerdictExactly | internal/printers/worker.go:373-425 | the outcome recorded for each report and link state, in terms of the bytes, the cause and the flag of the error |
| AgentGates.PermitKept | internal/printers/worker.go:242-268 | every step keeps the permit with exactly the worker inside its critical section |
| AgentGates.PauseKept | internal/printers/worker.go:270-304 | every step keeps the pause counter at one exactly while the holder is between begin and end |
| AtMostOnce.AtMostOnce | internal/printers/worker.go:240-468 | over every run of the system a target's unmarked content is on the wire at most once, and all its content at most once more per granted reprint |
| AtMostOnce.InvKept | internal/printers/worker.go:240-468 | every step of every worker, request, crash and restart keeps the system invariant |
| AtMostOnce.RunsKeepInv | internal/printers/worker.go:240-468 | so every run does |
| AtMostOnce.RunIsReplay | internal/jobs/repository.go:140-790 | the interleaved system does to the database what a sequence of transactions does |
| AtMostOnce.OneProcessingRun | internal/printers/transmission_gate.go:5-12 | while the agent is up at most one run in the whole database is processing, and its printer's worker holds the permit |
| AtMostOnce.PauseStopsQueue | internal/printers/worker.go:242-283 | during a pause no other worker claims and nobody writes, although the gate is looked at before the permit is taken |
| AtMostOnce.NoWaiterStranded | internal/printers/persistence.go:29-44 | a blocked worker can wake, or waits for the channel that the paused worker will close without panic |
| AtMostOnce.PersistNeverStuck | internal/printers/worker.go:428-468 | recording an outcome is refused exactly when an earlier attempt has stored it and retention has since taken the job |
| AtMostOnce.StoredOutcomeStaysMarkable | internal/printers/worker.go:428-468 | a repeated attempt succeeds in every execution whose retentions come within 48 hours of the attempt that stored the outcome |
| AgentLedger.CountedBytesAreOnTape | internal/printers/worker.go:373-425 | the tape misses nothing: over every execution each run on file with a byte counted, so each transmitted document that is not empty, is on it |
| AgentProgress.DecisionExactly | internal/printers/worker.go:329-425 | what a worker decides to record for each refusal before the write and each report, nothing else in the system moving |
| AgentProgress.WorkerFinishes | internal/printers/worker.go:240-468 | a worker with the permit can return it within eight steps of its own, its run transmitted or its outcome stored, the one exception of AtMostOnce.PersistNeverStuck aside |
| AgentProgress.PermitComesBack | internal/printers/worker.go:240-468 | in particular after any execution from the first start |
| AgentProgress.PauseLasts | internal/printers/worker.go:428-468 | over every execution a pause for an outcome that could not be stored lasts, whatever the rest of the system does, until an attempt of its worker is acknowledged and the database answers after it, or the agent crashes |
| Scenario.TicketIsRetried | internal/jobs/repository.go:140-700 | a concrete sequence of transactions reaches a valid database with a failed run and its live retry |
| Scenario.FourRunsAtMostAndLeast | internal/jobs/repository.go:632-637 | a ticket that never gets out is tried four times and then given up: a concrete sequence of transactions that attains Chains.TargetBounds |
| Scenario.PrintedTicketStays | internal/jobs/repository.go:693-697 | continued until the retry has printed: the job is completed and needs no attention, yet it is counted and no retention removes it |
| Scenario.UnresolvedTicketGoes | internal/jobs/repository.go:778-783 | a ticket of unknown fate whose target was cancelled is purged 48 hours later with its unresolved run |
| AgentScenario.StoredOutcomeCanVanish | internal/printers/worker.go:428-468 | a concrete execution reaches the exception of AtMostOnce.PersistNeverStuck: outcome stored, acknowledgement lost, job retired during the pause |
| Printers.CanonicalPrinterIds | internal/jobs/service.go:109-124 | accepted exactly for 1 to 20 ids, none blank, none twice; the result is the sorted list; each error is exact |
| Printers.OrderIsIrrelevant | internal/jobs/service.go:113-114 | two accepted lists have the same canonical list exactly when they name the same printers |
| Acceptance.OneJobPerIdentity | internal/jobs/service.go:223-303 | for every interleaving of calls without retention, calls for one identity get one job, accepted once; a call gets it exactly when its request is equal and its owner may see it, and conflicts otherwise; a call that arrives later and meets none of the moves of Acceptance.UnservedExactly has one of these two answers |
| Acceptance.OneJobFromTheStart | internal/jobs/service.go:223-303 | in particular in every interleaving from the empty database |
| Acceptance.LookupAnswer | internal/jobs/service.go:223-227 | a call whose lookup, first or repeated, finds a job is told the job exactly when its owner may see it and the digests are equal, and a conflict otherwise |
| Acceptance.InsertAnswer | internal/jobs/service.go:273-281 | the insertion is answered with the new job, with another lookup exactly after a unique violation, or with a failure when the database failed or lost the acknowledgement |
| Acceptance.UnservedExactly | internal/jobs/service.go:228-281 | over every interleaving a call fails exactly when a lookup or its insertion met trouble with the database, its insertion an error that is no collision, or its second lookup nothing, and is rejected exactly when its data was |
| Acceptance.FreshCallIsAccepted | internal/jobs/service.go:223-288 | a call for an unused identity can go through, its job stored as it was sent to stay 48 hours, and the same call again is told the same job |
| Acceptance.MoveKeepsDesk | internal/jobs/service.go:191-303 | every step of every call keeps all given answers justified |
| Acceptance.DigestMeansRequest | internal/jobs/service.go:126-138 | equal digests mean the same identity, the same canonical data and the same printers in any order |
| Acceptance.JobKept | internal/storage/migrations/0001_init.sql:45-49 | no transaction but retention alters or removes an accepted job |
| Acceptance.OneInitialRunEach | internal/jobs/service.go:250-272 | an accepted job has a target for each named printer and no other, each with exactly one queued, initial, unmarked run |
| Lifecycle.RetiredPrintersAreIdle | internal/printers/manager.go:240-263 | in every interleaving with acceptances, reprints, retry creation and printing, a retired printer has no live run |
| Lifecycle.RetiredFromTheStart | internal/printers/manager.go:240-263 | in particular in every interleaving from the empty database |
| Lifecycle.RemovalExactly | internal/printers/manager.go:243-262 | a removal that gets past its check retires an existing printer without live runs, exactly when the retirement is stored, whatever happens meanwhile |
| Lifecycle.RemovalRefused | internal/printers/manager.go:243-253 | the check passes exactly for an existing printer without queued, processing or retry-pending runs |
| Lifecycle.WorkGetsIn | internal/printers/manager.go:114-119 | work for an existing printer gets in and is committed whenever no removal is under way, and a removal begins whenever nobody is inside |
| Lifecycle.ActKeepsHouse | internal/printers/manager.go:114-119 | every step under or outside the lifecycle lock keeps that |
| Transport.SendMeetsContract | internal/transport/serial.go:107-166 | the serial and RFCOMM writers meet the contract exactly when a deadline does not end the first chunk after some of it was accepted |
| Transport.SendExactly | internal/transport/serial.go:107-166 | success exactly when every 512-byte chunk came back whole, else the bytes up to the first that did not, ambiguous exactly when any was counted, it timed out or the context was cancelled |
| Transport.DeadlineBreaksContract | internal/platform/linux/rfcomm.go:89-92 | one byte delivered, then a deadline, is reported as not sent and retryable |
| Transport.WriteChunk | internal/transport/serial.go:136-166 | the count and the error for every way a chunk can end |
| Transport.StreamTransport.Write | internal/platform/linux/rfcomm.go:74-129 | success means the device got exactly the document, failure a prefix no shorter than reported; the endpoint closes on failure |
| Transport.GattContract | internal/platform/linux/gatt.go:84-132 | the GATT writer meets the contract unconditionally, and reports not sent exactly when the first chunk was refused |
| Transport.GattSucceeds | internal/platform/linux/gatt.go:106-131 | success exactly when every chunk was accepted and no pause between chunks was the end |
| Transport.GattFailsAt | internal/platform/linux/gatt.go:106-131 | the bytes, the cause and the flag reported when a given chunk is the first that does not go through |
| Transport.GattTransport.Write | internal/platform/linux/gatt.go:84-132 | the same of the loop, and every chunk offered has between 1 byte and the characteristic's limit |
| Transport.GattChunk | internal/platform/linux/gatt.go:91-97 | 20 to 512 bytes, and MTU-3 between |
| Broker.ProfileBroker.Install | internal/platform/linux/profile.go:117-133 | refused for an active, awaited or still outstanding device, else waiter and token set |
| Broker.ProfileBroker.ForgetCall | internal/platform/linux/profile.go:138-142 | only the call's own token is cleared |
| Broker.ProfileBroker.TakeWaiter | internal/platform/linux/profile.go:294-312 | the descriptor goes to the waiter, or is rejected with nothing changed |
| Broker.ProfileBroker.RemoveWaiter | internal/platform/linux/profile.go:189-195 | only the caller's own waiter is removed |
| Broker.ProfileBroker.CancelPending | internal/platform/linux/profile.go:178-187 | the caller's own waiter is gone and its device marked disconnected |
| Broker.ProfileBroker.CloseSocket | internal/platform/linux/profile.go:242-248 | the socket leaves the active map if it is still the one there |
| Broker.ProfileBroker.Register | internal/platform/linux/profile.go:80-91 | a replaced bus gives up its sockets and call tokens |
| Broker.ProfileBroker.Release | internal/platform/linux/profile.go:327-336 | every active socket is given up and marked disconnected |
| BrokerRuns.EventsKeepNet | internal/platform/linux/profile.go:68-341 | every interleaving of calls, callbacks, timeouts, closes and re-registrations keeps the broker's invariant |
| BrokerRuns.NeverBoth | internal/platform/linux/profile.go:290-312 | a device path never has both a waiter and an active socket |
| BrokerRuns.SendNeverBlocks | internal/platform/linux/profile.go:313 | the channel is empty when NewConnection sends; a pending connection gets one socket at most |
| BrokerRuns.DescriptorForItsCaller | internal/platform/linux/profile.go:306-313 | a descriptor goes to one Connect at most, for the device and address it asked for |
| BrokerRuns.StaleCallSparesToken | internal/platform/linux/profile.go:136-143 | at any point of any history a token belongs to an unreturned call for its path, and it stays through any further events until that call returns or the bus is replaced |
| BrokerRuns.OpenSocketIsReachable | internal/platform/linux/profile.go:242-278 | an open socket is the active one of its path or in a list about to be closed |
| BrokerRuns.DrainClosesUnlessLate | internal/platform/linux/profile.go:178-187 | a cancelled caller's descriptor is closed by its drain exactly when the callback is not still about to send it |
| BrokerRuns.LateSendIsUnread | internal/platform/linux/profile.go:312-313 | when it is, the send succeeds into a channel nobody reads and the socket stays open |
| BrokerRuns.StateFollowsConnection | internal/platform/linux/profile.go:197-201 | from a NewConnection on, and until another for the same address, the device counts as connected exactly as long as nothing of its address is closed, abandoned, disconnected or released |
| BrokerRuns.StateAgreesExactly | internal/platform/linux/profile.go:80-91 | over every history, a device's reported state agrees with its socket being the active one exactly when, since the socket came in, such a disconnection and a loss of the socket (its close, a replaced bus, a release) have both happened or neither has |
| BrokerRuns.CallIsServed | internal/platform/linux/profile.go:117-133 | a call that was let in keeps its waiter through any events until it gives up or BlueZ brings a descriptor, which becomes a socket for this call and its address |
| BrokerRuns.AbandonedGetsNothing | internal/platform/linux/profile.go:178-195 | once a caller that gives up has taken its waiter back, no descriptor ever becomes a socket for it |
| BrokerRuns.DeliveryIsReceived | internal/platform/linux/profile.go:144-170 | what a callback is about to send to a waiting caller can be sent and received, and connects that caller |
| BrokerRuns.CallerCanGiveUp | internal/platform/linux/profile.go:178-201 | a waiting caller can always give up by itself: no waiter of its own, its channel empty, what lay in it closed, its device disconnected |
| BrokerScenario.SendComesLate | internal/platform/linux/profile.go:178-187 | a concrete interleaving in which the drain misses the descriptor and the late send leaves its socket open and unread |
| BrokerScenario.LateCloseMisreports | internal/platform/linux/profile.go:242-248 | a concrete interleaving in which the close of a replaced bus's socket marks a newly connected device as disconnected |
| BrokerScenario.ReplacedBusMisreports | internal/platform/linux/profile.go:80-91 | a concrete interleaving after which no socket is active and the device still counts as connected |
| Wrap.WrapText | internal/escpos/builder.go:145-176 | the loops compute the declared lines, at least one |
| Wrap.LinesFit | internal/escpos/builder.go:143-176 | no line is longer than the width, 32 standing for none, and every paragraph has a line |
| Wrap.BreaksAreForced | internal/escpos/builder.go:156-173 | after each line but the last the paragraph goes on, past spaces only, with the next, and the line as cut with one space and the next word would not have fitted |
| Wrap.LastSpaceIsLast | internal/escpos/builder.go:161-167 | the cut is the last space among the positions 1 to the width, or the width when there is none |
| Wrap.ParagraphsJoin | internal/escpos/builder.go:150-155 | the paragraphs are the text between its line breaks, empty ones included |
| Wrap.WrapKeepsInk | internal/escpos/builder.go:143-176 | all characters but spaces and line breaks are kept, in order |
| Wrap.WordsKeptExactly | internal/escpos/builder.go:156-173 | the words printed are the paragraph's words, whole if they fit and else in full-width pieces, exactly when the paragraph does not start with a space and then run on past the width without one |
| Wrap.LeadingSpaceSplitsWord | internal/escpos/builder.go:161-167 | a word of four runes split at width four after a leading space |
| Builder.Encode | internal/escpos/encoding.go:46-64 | one byte for each rune and never a control byte |
| Builder.StreamDecodes | internal/escpos/builder.go:40-142 | the decoder recovers exactly the commands and text lines issued, for every payload |
| Builder.StreamsDiffer | internal/escpos/builder.go:40-142 | different sequences of commands never give the same stream |
| Builder.CallExactly | internal/escpos/builder.go:46-142 | the bytes that one more call appends to a body, text at the width which the last switch of the size left in force |
| Builder.LineItemsExactly | internal/escpos/encoding.go:46-64 | one line for each wrapped one, each rune as its code or a question mark |
| Builder.DocumentExactly | internal/escpos/templates.go:54-79 | the bytes around the body: reset, code page, the marker of a reprint with its run number, four lines of feed, the cut |
| Builder.TwoColumnsExact | internal/escpos/builder.go:86-108 | with room for four characters beside the right column, which has no line break, the wrapped left column ends in one row exactly as wide as the line that ends in the right column |
| Builder.NarrowColumns | internal/escpos/builder.go:92-96 | with less room the two texts go on lines of their own, the second to the right |
| Builder.Builder.constructor | internal/escpos/builder.go:28-37 | an empty document of the given width, 32 standing for none |
| Builder.Builder.Init | internal/escpos/builder.go:40-44 | reset and code page |
| Builder.Builder.DoubleSize | internal/escpos/builder.go:59-66 | the size command, and the width later text is wrapped to |
| Builder.Builder.Text | internal/escpos/builder.go:69-75 | the wrapped lines at the current width |
| Builder.Builder.TextDouble | internal/escpos/builder.go:78-84 | the wrapped lines at half the width |
| Builder.Builder.TwoColumns | internal/escpos/builder.go:89-108 | both layouts |
| Builder.Builder.Bytes | internal/escpos/builder.go:141 | the finished document decodes to what was issued |
| Builder.Render | internal/escpos/templates.go:54-79 | the document of a template body, with or without the reprint marker, and its decoding |
| Builder.ReprintIsMarkedNormal | internal/escpos/templates.go:66-73 | a reprint is the normal document with the marker inserted and no byte changed elsewhere |
| Money.GuardIsExact | internal/escpos/templates.go:156-161 | a price is refused exactly when its product with the quantity leaves 64 bits |
| Money.ValidateText | internal/escpos/templates.go:127-140 | accepted exactly when present if required, short enough and free of control characters |
| Money.ValidateItems | internal/escpos/templates.go:142-165 | accepted exactly for 1 to 100 items with printable texts, quantities 1 to 999 and totals that fit |
| Money.MoneyReadsBack | internal/escpos/templates.go:220-236 | the printed amount of any 64-bit number of cents, the least included, reads back as the same cents and currency |

## Left out

- Transactions: texts of errors and reasons, event rows, the source and data columns, and the
  encoding and width snapshot of a target; they are written and never decided upon.
- Schema: the foreign key of targets to printers, which the lifecycle lock makes redundant, and the
  upper bounds on text lengths.
- Repository.Repository.PurgeExpired: stored instants are text of varying length, so that the order
  of two instants inside one second is not their text order; the model compares numbers.
- Worker.Worker.Persist: the source loops for ever with growing delays; the method runs over a given
  script of attempts and the delays are not modelled.
- Agent.Next: connecting, reconnecting, back-off and wake signals only decide when a worker looks at
  the gate; a worker may look at any time here.
- Acceptance.OneJobPerIdentity: JSON parsing and canonicalization, template and payload validation,
  and the rendering of each printer's content are parameters or one nondeterministic check.
- ReprintRequests.Reprint: reads that fail are not modelled; they end the call with their error and
  change nothing.
- Repository.Repository.MaterializeRetries: a limit above the agent's own three is excluded, because
  the invariant bounds a block of retries by it; MaterializeRetry answers under any limit and keeps the
  invariant up to three.
- Repository.Repository.ClaimNextQueued: a commit whose acknowledgement is lost is excluded, see
  Assumptions.
- Broker: D-Bus, address normalization, the lookup of a device and the closing of file descriptors
  are abstract.
- Builder.Render: a template body is a list of builder calls; the four templates themselves, the
  formatting of times and the unused method for raw bytes are not modelled. What the printer makes of
  the double-size command is not modelled either; widths follow the builder's own flag.
- Everything around the queue: the HTTP server, authentication, the dashboard, logs, diagnostics,
  configuration editing and serial port opening.
