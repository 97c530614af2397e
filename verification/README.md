# Order-management core: a verified model

This project models the durable order-management core of bigqmt-autotrader and the file and database protocols around it, and proves what the finite checkers in the repository's `tools/` only sample. `dafny verify dfyconfig.toml` verifies the whole project.

## What is modelled

| file | what it covers |
|---|---|
| `OrderLifecycle.dfy`, `OrderRows.dfy` | the status machine and every write to one order row, with the status/quantity coupling every reachable row keeps |
| `BrokerEvidence.dfy`, `EvidenceJournal.dfy`, `JournalHistory.dfy` | broker evidence, one ingest transaction as a pure function over orders, keys and observations, and the invariant every history keeps |
| `JournalTheorems.dfy`, `JournalAnswers.dfy`, `JournalWitnesses.dfy`, `EvidenceContract.dfy`, `Convergence.dfy` | provenance, suppression, replay and rollback, what an ingest answers, with reachable examples; agreement with the abstract evidence contract and exactly where it ends; order-independence of coherent evidence |
| `LeaderLease.dfy` | the lease, its coordinator, and fencing over any interleaving of sessions |
| `OmsStore.dfy`, `BrokerDriver.dfy`, `OmsService.dfy`, `Clocks.dfy` | the guarded repository and journal as they update a shared database in place, the simulated broker, a session's recovery, submit and cancel, and the clock they read |
| `RecoveryWitness.dfy` | a history in which a session's second recovery leaves an order undecided |
| `OmsSystem.dfy`, `OmsIsolation.dfy` | any number of sessions over one database, with crashes and lease takeovers between any two steps, and the isolation the lease gives its holder |
| `RecoveryRuns.dfy` | startup recovery as transactions of that many-session system |
| `CommandResults.dfy`, `DurableIdentity.dfy` | the two other writers of order rows: command results and imported submits |
| `CommandPipeline.dfy`, `CommandExpiry.dfy`, `CommandLocate.dfy`, `CommandSpool.dfy`, `CommandEndings.dfy` | the command spool shared by Host and bridge, the same with a clock running between any two steps, the look-up while the bridge moves files, both processes' loops, and what a command's final directory says about its broker call |
| `HostDispatch.dfy`, `OrderExecution.dfy` | the Host's plan-before-publish dispatch, and reservation, plan, spool and bridge together |
| `SpoolArchive.dfy`, `ArchiveRuns.dfy` | the archive commit protocol, as the archiver runs it and over whole runs with arrivals anywhere |
| `DealMapper.dfy`, `DealsSettle.dfy` | the deal accumulator and the order-row table, and their facts taken through the evidence journal into the order table |
| `EventQueue.dfy`, `CanaryFuse.dfy`, `AlertStore.dfy` | the bounded event queue with its gap detection, the live-canary fuse, and the alert journal with its cache |

Objects that the program updates in place are classes here (`OmsRepository`, `OfflineOms`, `QmtCommandSpool`, `HostRuntime`, `DailySpoolArchiver` and so on). Each method is proved against a pure function or states its outcome outright, and the deeper properties are lemmas about those functions. A crash is modelled either as a step of a state machine (`OmsSystem`, `CommandPipeline`, `ArchiveRuns`) or as a `budget` of durable operations that can run out anywhere (`HostDispatch`, `SpoolArchive`).

Assumptions: digests are injective, so a digest is the value it hashes; lease tokens are fresh; all sessions, and Host and bridge, share one monotone clock; a database transaction is atomic; one file rename is atomic, and nothing larger is.

## Where the code and its claims differ

- Broker facts do not follow the command-path edges: a fact revives ABORTED and RISK_REJECTED. Facts are absorbed exactly by FILLED, CANCELLED, REJECTED and MANUAL_REVIEW (`FactsAbsorbedExactlyByBrokerTerminals`).
- A terminal contradiction whose fill exceeds the order rolls the whole transaction back instead of reaching MANUAL_REVIEW (`RollsBackExactlyWhenMarkerRefuses` says exactly when, `OverfillAfterCancelNeverReachesReview` is such a history).
- Suppressing a semantic duplicate equals merging it except for an order in CANCEL_PENDING with a positive fill (`SuppressionLosesNothing`; `SuppressionCanLoseAStatus` reaches one).
- The evidence contract keeps the state on anything that is not a candidate; the code sends most of it to MANUAL_REVIEW. `IngestAgreesExactlyWhen` says where the two agree, and `ContractKeepsWhatIngestReviews` reaches a place where they do not.
- Releasing a lease deletes its row, so epochs restart at 1 and only tokens fence (`EpochRestartsAfterRelease`); an epoch repeats exactly that way (`EpochRepeatsExactlyAfterRelease`).
- A second recovery by the same session re-sends the same event ids. `Recover` then returns and leaves an order in RECONCILING exactly when the broker's answer was already stored as this session's evidence (`QueryDecidesExactlyWhenNew`, `Recover`); `SecondRecoveryLeavesReconciling` is such a history.
- Two hosts that scan before either writes execute one command twice (`RacingHostsExecuteTwice`). Over all runs the spool is safe if and only if every rename finds no copy of its command, or only its own frame still in the inbox (`PipelineIsSafeExactlyWhenRenamesAreHarmless`). The dispatch runtime's writes are fenced by its lease, but the file rename is not: a fenced Host that resumes inside `publish` executes a stored plan again (`FencedHostExecutesTwice`). A broker call is not fenced either (`FencedCallIsReached`).
- `locate` treats a command in two directories as two copies, but a single copy is enough (`OneCopyCanConflict`): it reports a conflict exactly when the bridge moved the command, after it was seen, into a directory still to be checked (`ConflictExactlyWhenMovedAhead`).
- `publish` checks the expiry before it scans and renames, so a command's file can appear after the command expired (`FrameCanAppearLate`). Over all runs it happens exactly when the clock passes the expiry between that check and the rename (`LateExactlyWhenPassedWhilePublishing`). The bridge checks again when it claims the file, so whatever it executes was unexpired at that check and when its file appeared (`ExecutedFramesWereInTime`, `OneExecutionPerReservation`). The broker call itself can still be late, exactly when the clock passes the expiry between the bridge's check and the call (`CallLateExactlyWhenPassedBeforeCall`).
- Archive sources are deleted by name. Some run loses an event exactly when another event has its file name (`LosableExactlyWhenNameIsShared`), for it is then deleted without having been archived.
- A resolution logged before its alert has a row is swallowed when it is replayed later (`EarlyResolutionIsSwallowed`, `ResolutionTakesEffectExactlyWhenNew`).
- A deal event mapped twice yields evidence under one event id, which clashes with itself exactly when the order's total moved in between (`RemapClashesExactlyWhenTotalMoved`); the journal then sends the order to review.
- A canary cancel is counted only after it returns; for one that raised the halt flag alone keeps the bound (`RaisedCancelIsUncounted`).

## Model

| member | source | states |
|---|---|---|
| OrderLifecycle.RequestsOnlyGoOn | src/bigqmt_autotrader/domain/state_machine.py:28-141 | over any run of requests no earlier phase comes back, so no order reaches SUBMITTING twice |
| OrderLifecycle.TerminalExactlyWhenStuck | src/bigqmt_autotrader/domain/state_machine.py:28-110 | a status is terminal exactly when no run of requests ever leaves it |
| OrderLifecycle.EnteredExactlyFrom | src/bigqmt_autotrader/domain/state_machine.py:28-130 | from exactly which statuses a request brings an order into each status |
| OrderLifecycle.StaleMeansPassed | src/bigqmt_autotrader/domain/state_machine.py:66-139 | a request is ignored as stale only if the order could have come through it |
| OrderLifecycle.LateExactlyWhenPassed | src/bigqmt_autotrader/domain/state_machine.py:72-141 | a request that is not applied is a repeat, illegal, or too late, and too late exactly for an ended order or one that has come through the requested stage |
| OrderRows.FactKeepsCoupling | src/bigqmt_autotrader/oms/repository.py:432-618 | a merged fact keeps status and fill coupled, and the fill becomes the maximum |
| OrderRows.StepKeepsCoupling | src/bigqmt_autotrader/oms/repository.py:178-618 | every row write keeps the coupling and takes nothing back |
| OrderRows.RunKeepsCoupling | src/bigqmt_autotrader/oms/repository.py:178-618 | over any run of writes: fill bounds by status, monotone fill, write-once broker id, absorbing MANUAL_REVIEW |
| OrderRows.ReachableRowsAreCoupled | src/bigqmt_autotrader/oms/repository.py:121-138 | both ways a row is created start such a run |
| OrderRows.FactsAbsorbedExactlyByBrokerTerminals | src/bigqmt_autotrader/oms/repository.py:552-588 | facts leave a status alone exactly when it is a broker terminal or MANUAL_REVIEW |
| JournalHistory.IngestKeepsSound | src/bigqmt_autotrader/oms/evidence.py:58-226 | one ingest, whatever its branch, keeps the whole-journal invariant and only grows the tables |
| JournalHistory.RowWriteKeepsSound | src/bigqmt_autotrader/oms/repository.py:256-318 | a command-path row write keeps the journal invariant |
| JournalHistory.CommandStepsReportNothing | src/bigqmt_autotrader/oms/repository.py:399-430 | no command-path write creates a fill, a broker id or a broker status |
| JournalHistory.AdvanceKeepsSound | src/bigqmt_autotrader/oms/evidence.py:58-226 | every kind of transaction keeps the invariant |
| JournalHistory.HistoryKeepsSound | src/bigqmt_autotrader/oms/evidence.py:58-226 | every history of transactions keeps the invariant and only grows the tables |
| JournalHistory.ReachableIsSound | src/bigqmt_autotrader/oms/evidence.py:58-226 | every database reachable from the empty one is sound |
| JournalTheorems.FillIsMaximumCounted | src/bigqmt_autotrader/oms/evidence.py:164-221 | an order's fill is the maximum over its accepted facts and terminal conflicts |
| JournalTheorems.BrokerStatusJustified | src/bigqmt_autotrader/oms/evidence.py:164-221 | each broker status has an accepted observation that entitles the order to it |
| JournalTheorems.Provenance | src/bigqmt_autotrader/oms/evidence.py:164-221 | both, for every order of every history |
| JournalTheorems.SuppressionLosesNothing | src/bigqmt_autotrader/oms/evidence.py:143-162 | a suppressed fact is already in the row; merging would change nothing except exactly in CANCEL_PENDING with a positive fill |
| JournalTheorems.SuppressedMerge | src/bigqmt_autotrader/oms/evidence.py:238-274 | what merging the suppressed fact would have done to the row |
| JournalTheorems.ReplayChangesNoRow | src/bigqmt_autotrader/oms/evidence.py:71-142 | re-ingesting any recorded evidence, conflicts included, changes no order |
| JournalTheorems.ReplaysChangeNoRow | src/bigqmt_autotrader/oms/evidence.py:71-142 | any sequence of replays changes no order |
| JournalTheorems.ReplayAtAnyLaterTime | src/bigqmt_autotrader/oms/evidence.py:71-142 | replays after any later history still change no order |
| JournalTheorems.RollsBackExactlyWhenMarkerRefuses | src/bigqmt_autotrader/oms/evidence.py:164-205 | ingest rolls back exactly when the order is unknown or the conflict marker refuses the fill |
| JournalAnswers.SameEventExactlyWhen | src/bigqmt_autotrader/oms/evidence.py:37-45 | two deliveries have one fingerprint exactly when they differ in arrival time and raw reference alone |
| JournalAnswers.DuplicateExactlyWhen | src/bigqmt_autotrader/oms/evidence.py:122-162 | answered as a duplicate exactly when its event was accepted before, or an accepted observation of the order says the same in the compared columns and its status would neither move the order nor be illegal |
| JournalAnswers.NewsAnswer | src/bigqmt_autotrader/oms/evidence.py:164-183 | new evidence answers the new status; APPLIED exactly when the status moved, DUPLICATE_IGNORED exactly when the order was already where the fact puts it, STALE_IGNORED otherwise |
| JournalAnswers.ConflictSaysWhy | src/bigqmt_autotrader/oms/evidence.py:185-221 | for new evidence, from row and fact alone: each conflict reason, rollback and their order, and that nothing else conflicts |
| JournalAnswers.RepeatIsAnsweredAlike | src/bigqmt_autotrader/oms/evidence.py:71-142 | over every history: evidence delivered again at any later time gets its first answer again, as a duplicate with its first disposition or with its first conflict reason, and moves no order |
| JournalWitnesses.OverfillAfterCancelNeverReachesReview | src/bigqmt_autotrader/oms/repository.py:348-397 | a history from the empty database after which an overfilled terminal contradiction leaves the database as it was |
| JournalWitnesses.SuppressionCanLoseAStatus | src/bigqmt_autotrader/oms/evidence.py:143-162 | a history from the empty database after which the suppressed fact would have changed the status if merged |
| JournalWitnesses.ContractKeepsWhatIngestReviews | tools/verify_broker_evidence_contract.py:99-160 | a history from the empty database after which an overfilling callback sends an ACKNOWLEDGED order to review, where the contract keeps it |
| EvidenceContract.IngestRefinesContract | tools/verify_broker_evidence_contract.py:99-160 | for every quantity, ingesting a candidate, duplicate or semantic conflict gives the contract's status and fill |
| EvidenceContract.IngestAgreesExactlyWhen | tools/verify_broker_evidence_contract.py:99-160 | for all evidence, candidate or not: ingest does what the contract says exactly when it is a candidate, duplicate, conflict or suppressed, or the code keeps the state anyway in the named cases |
| EvidenceContract.NonCandidateMerge | src/bigqmt_autotrader/oms/repository.py:432-618 | for which non-candidates merging or marking leaves the state alone, by status, target and fill |
| EvidenceContract.MergeRefines | tools/verify_broker_evidence_contract.py:117-160 | merging a candidate, or marking it conflicting, reads as the contract says |
| EvidenceContract.RankNeverFalls | tools/verify_broker_evidence_contract.py:63-75 | the contract rank of an order never falls |
| Convergence.CompatibleMerges | src/bigqmt_autotrader/oms/repository.py:432-618 | a compatible fact merges, and the next status is fixed by end, fill and old status |
| Convergence.MergeSettles | src/bigqmt_autotrader/oms/repository.py:432-618 | one more coherent fact leaves the row at the verdict of all facts so far |
| Convergence.IngestSettles | src/bigqmt_autotrader/oms/evidence.py:58-226 | one more delivery leaves the order at the verdict of all facts delivered so far |
| Convergence.DeliverySettles | src/bigqmt_autotrader/oms/evidence.py:58-226 | any delivery of a coherent set ends at the verdict of the set |
| Convergence.DeliveriesConverge | src/bigqmt_autotrader/oms/evidence.py:58-226 | two deliveries of the same coherent facts, in any order and repetition, end in the same status and fill |
| LeaderLease.LeaderCoordinator.Acquire | src/bigqmt_autotrader/oms/leader.py:54-121 | granted exactly when the seconds are positive and no row lives, and the granted lease then passes exactly until now plus the seconds |
| LeaderLease.LeaderCoordinator.AssertHeld | src/bigqmt_autotrader/oms/leader.py:123-140 | why a lease fails the guard, or that it does not |
| LeaderLease.LeaderCoordinator.Heartbeat | src/bigqmt_autotrader/oms/leader.py:142-189 | exactly a held lease is renewed, and it then passes exactly until now plus the seconds |
| LeaderLease.LeaderCoordinator.Release | src/bigqmt_autotrader/oms/leader.py:191-200 | a released lease passes at no time |
| LeaderLease.ActKeepsFenceable | src/bigqmt_autotrader/oms/leader.py:54-200 | every lease operation keeps the fencing invariant |
| LeaderLease.LossIsStable | src/bigqmt_autotrader/oms/leader.py:123-140 | a lease that does not pass now does not pass after any action |
| LeaderLease.LostLeaseNeverReturns | src/bigqmt_autotrader/oms/leader.py:123-200 | a fenced, expired or released lease never passes again |
| LeaderLease.LeaseLastsExactlyItsTerm | src/bigqmt_autotrader/oms/leader.py:54-200 | over every run of any sessions, a granted lease passes exactly until its seconds, or those of its last timely renewal, are over or it is released |
| LeaderLease.GrantedExactlyWhenNonePasses | src/bigqmt_autotrader/oms/leader.py:73-104 | over every run, a new session is granted a lease exactly when no lease passes the guard |
| LeaderLease.Fencing | src/bigqmt_autotrader/oms/repository.py:58-73 | at most one token passes, and guarded writes form one block per lease in acquisition order |
| LeaderLease.EpochRestartsAfterRelease | src/bigqmt_autotrader/oms/leader.py:73-104 | after a release the epoch is 1 again and only the token differs |
| LeaderLease.EpochRepeatsExactlyAfterRelease | src/bigqmt_autotrader/oms/leader.py:73-104 | over every run, two leases share an epoch exactly when one was acquired after a release |
| LeaderLease.OnlyReleaseEmptiesTheRow | src/bigqmt_autotrader/oms/leader.py:191-200 | the lease row disappears only by its own release |
| OmsStore.OmsRepository.CreateIntent | src/bigqmt_autotrader/oms/repository.py:91-144 | inserts a new row, or changes nothing and says why |
| OmsStore.OmsRepository.TransitionOrder | src/bigqmt_autotrader/oms/repository.py:295-318 | a guarded command-path transition, or nothing |
| OmsStore.OmsRepository.TransitionInTx | src/bigqmt_autotrader/oms/repository.py:432-549 | the command path of the shared transition routine |
| OmsStore.OmsRepository.PrepareSubmit | src/bigqmt_autotrader/oms/repository.py:178-215 | reserves one submit, or nothing |
| OmsStore.OmsRepository.PrepareCancel | src/bigqmt_autotrader/oms/repository.py:217-254 | reserves one cancel, or nothing |
| OmsStore.OmsRepository.MergeFactInTx | src/bigqmt_autotrader/oms/repository.py:320-346 | merges a fact into the row, or changes nothing and names the conflict |
| OmsStore.OmsRepository.MarkConflictInTx | src/bigqmt_autotrader/oms/repository.py:348-397 | sends the order to review with the larger fill, or refuses a fill outside the range |
| OmsStore.Journalist.IngestEvidence | src/bigqmt_autotrader/oms/evidence.py:58-226 | the guarded transaction does exactly the pure ingest, or nothing |
| OmsStore.Journalist.IngestInTx | src/bigqmt_autotrader/oms/evidence.py:58-226 | the branches together, rollback included, equal the pure ingest |
| OmsStore.Journalist.RecordReuse | src/bigqmt_autotrader/oms/evidence.py:71-121 | a reused event id sends both orders to review |
| OmsStore.Journalist.MergeAndRecord | src/bigqmt_autotrader/oms/evidence.py:164-221 | a merge or its recorded conflict, with rollback when the marker refuses |
| BrokerDriver.SimulatedDriver.SubmitLimitOrder | src/bigqmt_autotrader/drivers/simulated.py:67-91 | every call is counted; by failure mode, what the caller learns, and that the first call leaves the order acknowledged under a new id exactly when it got through |
| BrokerDriver.SimulatedDriver.CancelOrder | src/bigqmt_autotrader/drivers/simulated.py:93-118 | every call is counted; by failure mode, what the caller learns, and that the first call for a known order ends it with its fill exactly when it got through |
| BrokerDriver.SubmitKeepsOwnIds | src/bigqmt_autotrader/drivers/simulated.py:81-86 | no two orders at the broker ever share a broker id |
| OmsService.FreshIngestResolves | src/bigqmt_autotrader/oms/evidence.py:122-226 | a query answer under a free event id decides its order and touches no other |
| OmsService.FreshIngestRow | src/bigqmt_autotrader/oms/evidence.py:143-226 | an answer that is taken in leaves exactly the merged row, even when it was suppressed as a duplicate |
| OmsService.QueryIngest | src/bigqmt_autotrader/oms/service.py:137-174 | everything one query answer may change, for new and for repeated evidence |
| OmsService.QueryDecidesExactlyWhenNew | src/bigqmt_autotrader/oms/evidence.py:58-226 | whatever ingest answers, a reconciling order is still ambiguous afterwards exactly when the same evidence was already stored |
| OmsService.IngestedRow | src/bigqmt_autotrader/oms/evidence.py:122-226 | an answer that is taken in leaves the row if it is a repeat, and the merged row otherwise |
| OmsService.TakenExactlyWhenTakeable | src/bigqmt_autotrader/oms/evidence.py:58-226 | an answer about a waiting order is taken in exactly when it can be said as evidence, its event id is free or its own, and it is a repeat or fits the row's broker id, quantity and fill |
| OmsService.WaitingTakesAnswer | src/bigqmt_autotrader/oms/service.py:137-174 | the row of a waiting order after the broker's answer, in the broker's own terms: its status, its id, the larger fill, FILLED at the whole quantity; and exactly when the answer is taken in |
| OmsService.NewOrderNeverRepeats | src/bigqmt_autotrader/oms/service.py:393-409 | no stored evidence can be a repeat for an order that does not exist yet |
| OmsService.UnseenSessionDrains | src/bigqmt_autotrader/oms/service.py:161 | a session whose id starts no stored event id leaves nothing ambiguous |
| OmsService.QuestionsAreApart | src/bigqmt_autotrader/oms/service.py:161 | the questions a session asks at startup, after a submit and after a cancel, of whatever orders, never share an event id |
| OmsService.NeedsRecoveryExactlyWhen | src/bigqmt_autotrader/oms/repository.py:638-655 | every status between creation and the broker's word needs recovery, and so does an open cancel |
| OmsService.RecoveryFlagsHold | src/bigqmt_autotrader/oms/service.py:188-210 | the three flag checks of recovery hold on every reachable row |
| OmsService.OfflineOms.AssertLeader | src/bigqmt_autotrader/oms/service.py:107-110 | answers the lease check at the current time |
| OmsService.OfflineOms.Heartbeat | src/bigqmt_autotrader/oms/service.py:112-120 | renews the held lease and adopts the renewed one, or changes nothing |
| OmsService.OfflineOms.ListRecoveryCandidates | src/bigqmt_autotrader/oms/repository.py:638-655 | every row that needs recovery, once, as it reads now |
| OmsService.OfflineOms.SettleLocally | src/bigqmt_autotrader/oms/service.py:188-272 | which rows need no broker, and the row each of them becomes; never fails a flag check |
| OmsService.OfflineOms.BeginReconciling | src/bigqmt_autotrader/oms/service.py:206-272 | every other ambiguous row waits for the broker in RECONCILING, or stays in review |
| OmsService.OfflineOms.SettleByQuery | src/bigqmt_autotrader/oms/service.py:274-297 | asks the working broker once; the row is exactly what the answer, or its repetition, makes of it, or an error is raised |
| OmsService.OfflineOms.TakeAnswer | src/bigqmt_autotrader/oms/service.py:287-297 | the row after an answer, and that it is still ambiguous exactly when it was RECONCILING and the answer a repeat |
| OmsService.OfflineOms.RecoverOne | src/bigqmt_autotrader/oms/service.py:181-297 | one candidate becomes exactly the recovered row, others untouched; the broker is asked exactly when it must be; under a held lease only an unwelcome answer raises |
| OmsService.RecoveredRowSays | src/bigqmt_autotrader/oms/service.py:181-297 | what a processed row reads, case by case: aborted, cancel closed, under review, waiting on after old news, or showing the broker's answer |
| OmsService.OfflineOms.Recover | src/bigqmt_autotrader/oms/service.py:176-302 | for every session, while the broker goes on: if it returns, each row is exactly what the logged answer requires, all others stay, and an order is left ambiguous exactly when it waited for the broker and the same answer was stored before; a fresh session drains everything; no submit, no cancel, no flag check fires |
| RecoveryWitness.SecondRecoveryLeavesReconciling | src/bigqmt_autotrader/oms/service.py:176-302 | a history from the empty database in which a session's second recovery leaves an order in RECONCILING |
| OmsService.OfflineOms.IngestQuery | src/bigqmt_autotrader/oms/service.py:137-174 | it returns exactly for a takeable answer; then the answer is the row's status, reservations stay, and the row is the merged one, or untouched by a repeat |
| OmsService.OfflineOms.AskBroker | src/bigqmt_autotrader/oms/service.py:393-409 | asks once and logs it; when it returns, the row shows the logged answer, the result is the row's status with the broker's own id, no other row moved; and it returns exactly when the answer is takeable or the broker knows nothing |
| OmsService.OfflineOms.SubmitDecidedIntent | src/bigqmt_autotrader/oms/service.py:334-409 | when it returns for an accepted order the broker was called exactly once and, by the call's outcome, the row is UNKNOWN or shows the broker's logged answer with its new id; a rejected one is RISK_REJECTED and calls nothing; no other row moves; and exactly when it returns |
| OmsService.OfflineOms.CancelOrder | src/bigqmt_autotrader/oms/service.py:411-473 | when it returns the cancel was called exactly once where none was reserved; the row shows the broker's logged answer with the cancel resolved, or is UNKNOWN with it open, by the call's outcome; no other row moves; and exactly when it returns |
| OmsService.OfflineOms.AfterCall | src/bigqmt_autotrader/oms/service.py:354-409 | a raised call leaves the order UNKNOWN and asks nothing; after a returned one the broker is asked once and the row shows its answer; and exactly when it returns |
| OmsSystem.TransactionKeepsSafe | src/bigqmt_autotrader/oms/repository.py:69-73 | one guarded transaction by the holder keeps the system invariant |
| OmsSystem.CallKeepsSafe | src/bigqmt_autotrader/oms/service.py:353-356 | a broker call, by a holder or a fenced session, keeps it |
| OmsSystem.ResolveCancelKeepsSafe | src/bigqmt_autotrader/oms/service.py:466-472 | the status captured before the closing write is still the row's |
| OmsSystem.StepKeepsSafe | src/bigqmt_autotrader/oms/service.py:56-473 | every step of any session keeps it |
| OmsSystem.RunKeepsSafe | src/bigqmt_autotrader/oms/service.py:56-473 | every run keeps it |
| OmsSystem.CalledAtMostOnce | src/bigqmt_autotrader/oms/service.py:334-473 | over any number of sessions, crashes and takeovers, submit and cancel are each called at most once per order, with the reservation stored |
| OmsSystem.CallsFollowReservations | src/bigqmt_autotrader/oms/repository.py:178-254 | the reservation is stored before the call and was never used before |
| OmsSystem.HoldersActOnCurrentRows | src/bigqmt_autotrader/oms/service.py:176-302 | while a session holds the lease, what it read is what is stored |
| OmsSystem.RunsAreSoundAndSerial | src/bigqmt_autotrader/oms/repository.py:58-73 | every run leaves a sound journal written in lease blocks |
| OmsSystem.FencedSessionStillCalls | src/bigqmt_autotrader/oms/service.py:353-409 | a session fenced after its last check still calls once, and can then write nothing |
| OmsSystem.FencedCallIsReached | src/bigqmt_autotrader/oms/service.py:353-409 | a run from the empty system in which a session calls the broker after another has taken the lease over, and can then record nothing |
| OmsIsolation.OwnStepSameView | src/bigqmt_autotrader/oms/service.py:56-473 | what a session does depends only on the clock, the lease row, its lease, the database and its own progress |
| OmsIsolation.OtherStepKeepsView | src/bigqmt_autotrader/oms/repository.py:58-73 | another session changes none of these while the lease is held |
| OmsIsolation.HolderIsIsolated | src/bigqmt_autotrader/oms/repository.py:58-73 | over any interleaving, a session that still passes the guard finds database and progress as if every other session had stood still |
| OmsIsolation.RecoveredViewIsRecoveredDatabase | src/bigqmt_autotrader/oms/service.py:176-302 | if the rows a recovering session captured need nothing more and it holds the lease, the database needs nothing more |
| RecoveryRuns.RowIsDone | src/bigqmt_autotrader/oms/service.py:181-297 | the transactions recovery commits for one listed row leave exactly the recovered row, and nothing else changed |
| RecoveryRuns.RecoveryEndsAsRecovered | src/bigqmt_autotrader/oms/service.py:176-302 | the transactions for all listed rows, each answer taken in, leave every row as `Recover` promises |
| RecoveryRuns.SoloRecovery | src/bigqmt_autotrader/oms/repository.py:58-73 | alone and still passing the guard at the end, a recovering session committed exactly the transactions it asked for |
| RecoveryRuns.InterleavedRecoveryEndsAsRecovered | src/bigqmt_autotrader/oms/service.py:176-302 | what `Recover` promises of one session holds in the many-session system, whatever the others do in between, if the session still passes the guard at the end |
| CommandResults.ResultIsExecutionStep | src/bigqmt_autotrader/oms/repository.py:399-430 | a result's row write always succeeds and is the execution step |
| CommandResults.ResultStatesNoFact | src/bigqmt_autotrader/qmt/command_results.py:193-222 | a result creates no fill, broker id or broker status |
| CommandResults.UnsupportedExactlyWhen | src/bigqmt_autotrader/qmt/command_results.py:99-131 | malformed exactly for a side-effect flag that does not suit mode and status, a missing identifier or a foreign token |
| CommandResults.ConflictsExactlyWhen | src/bigqmt_autotrader/qmt/command_results.py:142-166 | a well-formed result conflicts exactly when its command id or its session's sequence number was used for another; otherwise only an unknown order refuses it |
| CommandResults.AcceptedResultMoves | src/bigqmt_autotrader/qmt/command_results.py:193-222 | a stored result changes nothing again; a new one is stored beside the others and moves at most its own order, SUBMITTING or CANCEL_PENDING to UNKNOWN and UNKNOWN to RECONCILING |
| CommandResults.BeginsExactlyWhen | src/bigqmt_autotrader/qmt/command_results.py:196-199 | which results begin reconciliation, mode by mode |
| CommandResults.ResultsConverge | src/bigqmt_autotrader/qmt/command_results.py:142-222 | results in any order and repetition leave each order where its number of distinct beginning results says |
| CommandResults.ResultsLeaveOrder | src/bigqmt_autotrader/qmt/command_results.py:193-222 | after any results: a submitted order is as it was, UNKNOWN or RECONCILING by whether none, one or more of them began reconciliation; other statuses stay |
| CommandResults.SameResultsSameOrders | src/bigqmt_autotrader/qmt/command_results.py:142-222 | two deliveries of the same results end in the same orders |
| CommandResults.QmtCommandResultJournal.Ingest | src/bigqmt_autotrader/qmt/command_results.py:83-222 | one guarded transaction stores the result and its row write, or nothing; a lost lease stores nothing; it never promotes to ACKNOWLEDGED |
| DurableIdentity.LookupChoiceIsHarmless | src/bigqmt_autotrader/qmt/durable_identity.py:45-53 | whichever of several matching rows the lookup returns, the outcome is the same |
| DurableIdentity.RegisterKeepsLinked | src/bigqmt_autotrader/qmt/durable_identity.py:54-155 | identities stay one-to-one with commands, orders and tokens; an import creates exactly the reserved, reconciling row of its quantity; existing rows never change |
| DurableIdentity.LinkedIsOneToOne | src/bigqmt_autotrader/qmt/durable_identity.py:45-53 | two stored commands share no command id, no order and no token of one account |
| DurableIdentity.RegisteredExactlyWhen | src/bigqmt_autotrader/qmt/durable_identity.py:43-155 | registered exactly when stored already, at most waiting to turn out processed, or when id, order and token are free and its order may exist or its quantity is positive; what is stored then |
| DurableIdentity.RegisterIsIdempotent | src/bigqmt_autotrader/qmt/durable_identity.py:54-75 | registering again changes nothing |
| DurableIdentity.IdentityRegistry.RegisterSubmit | src/bigqmt_autotrader/qmt/durable_identity.py:18-155 | the guarded transaction does what every possible lookup prescribes; a lost lease does nothing |
| CommandPipeline.BridgeMoveIsForward | qmt_side/BIGQMT_EXECUTION_BRIDGE_V05.py:518-523 | a bridge rename moves one command forward and keeps every scan ahead |
| CommandPipeline.RenameKeepsOrderly | src/bigqmt_autotrader/qmt/commands.py:273-287 | an exclusive publisher's rename keeps the pipeline invariant |
| CommandPipeline.StepKeepsOrderly | qmt_side/BIGQMT_EXECUTION_BRIDGE_V05.py:992-1195 | every step of host and bridge keeps the invariant and moves commands forward |
| CommandPipeline.RenameIsSafeExactlyWhenHarmless | src/bigqmt_autotrader/qmt/commands.py:273-287 | one rename leaves one copy and every stored frame exactly when no copy exists or only its own frame waits in the inbox |
| CommandPipeline.HarmlessStepKeepsTidy | qmt_side/BIGQMT_EXECUTION_BRIDGE_V05.py:992-1195 | every step but a harmful rename keeps one place, one execution and every frame |
| CommandPipeline.PipelineIsSafeExactlyWhenRenamesAreHarmless | src/bigqmt_autotrader/qmt/commands.py:260-287 | for every run of any number of hosts: one place throughout, frames kept, moves forward and at most one execution, if and only if every rename is harmless |
| CommandPipeline.PipelineIsSafe | qmt_side/BIGQMT_EXECUTION_BRIDGE_V05.py:1091-1195 | the same for runs in which one host at a time publishes an id, from any orderly state |
| CommandPipeline.ScanNeverMisses | src/bigqmt_autotrader/qmt/commands.py:289-294 | a host that scanned all directories without a hit is right |
| CommandPipeline.RacingHostsExecuteTwice | src/bigqmt_autotrader/qmt/commands.py:260-287 | without the exclusion some run executes one command twice |
| CommandExpiry.TimedRunIsPipelineRun | qmt_side/BIGQMT_EXECUTION_BRIDGE_V05.py:1091-1162 | a run with a clock and both expiry checks does to the spool what some run of the pipeline does |
| CommandExpiry.StepKeepsPunctual | src/bigqmt_autotrader/qmt/commands.py:260-287 | every step keeps it that each file in the spool was created by a recorded rename after an unexpired check, and that the bridge holds what it read |
| CommandExpiry.ExecutedFramesWereInTime | qmt_side/BIGQMT_EXECUTION_BRIDGE_V05.py:1098-1103 | over all runs, an executed frame had appeared, after a check of its own, before the bridge's check found it unexpired |
| CommandExpiry.LateFilesAreNotExecuted | qmt_side/BIGQMT_EXECUTION_BRIDGE_V05.py:1098-1103 | a frame that only appeared late is never executed |
| CommandExpiry.LateExactlyWhenPassedWhilePublishing | src/bigqmt_autotrader/qmt/commands.py:260-287 | over all runs, some file appears at or after its expiry exactly when the clock passes that expiry between a publisher's check and its rename |
| CommandExpiry.FrameCanAppearLate | src/bigqmt_autotrader/qmt/commands.py:260-287 | a run from the empty spool whose only file appears when it has expired |
| CommandExpiry.CallLateExactlyWhenPassedBeforeCall | qmt_side/BIGQMT_EXECUTION_BRIDGE_V05.py:1098-1127 | over all runs, some broker call is late exactly when the clock passes the expiry between the bridge's check and the call |
| CommandLocate.ConflictExactlyWhenMovedAhead | src/bigqmt_autotrader/qmt/commands.py:296-311 | for every interleaving without a harmful rename, a look-up reports a conflict exactly when the bridge moved the command, after it was seen, into a directory still to be checked |
| CommandLocate.LookReports | src/bigqmt_autotrader/qmt/commands.py:303-307 | the same from any point of a look-up, by what it has seen and what lies ahead |
| CommandLocate.OneCopyCanConflict | src/bigqmt_autotrader/qmt/commands.py:296-311 | a safe run from the empty pipe in which a single copy is reported in inbox and claimed |
| CommandSpool.QmtCommandSpool.FindExisting | src/bigqmt_autotrader/qmt/commands.py:289-294 | finds nothing exactly when there is nothing, while the bridge moves files |
| CommandSpool.QmtCommandSpool.Publish | src/bigqmt_autotrader/qmt/commands.py:260-287 | publishes a new frame after a check that found it unexpired, or recognises the same one; never replaces a frame, refuses expired ones, and says when it checked and when the file appeared, with the clock running on in between |
| CommandSpool.QmtCommandSpool.Locate | src/bigqmt_autotrader/qmt/commands.py:296-311 | never misses a command; a conflict exactly when more than one check saw it at its own moment |
| CommandSpool.BridgeStepsAreBridgeOnly | qmt_side/BIGQMT_EXECUTION_BRIDGE_V05.py:992-1195 | every bridge step is an interference the Host's scans allow for |
| CommandSpool.ExecutedInTime | qmt_side/BIGQMT_EXECUTION_BRIDGE_V05.py:1091-1162 | the bridge's own check: a readable frame is too late exactly when it has expired then, and executed only before that |
| CommandSpool.HandlingEffect | qmt_side/BIGQMT_EXECUTION_BRIDGE_V05.py:1091-1162 | claim, process and complete, failed renames included, as pipeline steps, and the directory the command ends in, outcome by outcome |
| CommandSpool.CommandBridge.RecoverOrphanedClaims | qmt_side/BIGQMT_EXECUTION_BRIDGE_V05.py:992-1026 | once per process, moves every claim into `unknown`, leaves every other file where it was, and executes nothing |
| CommandSpool.CommandBridge.DrainCommandInbox | qmt_side/BIGQMT_EXECUTION_BRIDGE_V05.py:1165-1195 | up to 16 listed commands: each that is claimed and whose renames work ends in `processed` exactly when its snapshot was taken or its broker call returned in time, in `rejected` exactly when unreadable, expired at the check or refused, in `unknown` exactly when the snapshot failed or the call raised; no other command is touched |
| CommandSpool.CommandBridge.HandleListed | qmt_side/BIGQMT_EXECUTION_BRIDGE_V05.py:1175-1194 | one listed command is skipped, left, or filed by its outcome and its frame's expiry at the moment of the check |
| CommandSpool.CommandBridge.ProcessClaimed | qmt_side/BIGQMT_EXECUTION_BRIDGE_V05.py:1091-1162 | reads the clock and judges the frame itself: at most one execution, none once expired, and the final directory by outcome, the fallback, or the claim it is left in |
| CommandEndings.ObservedStatesTellTheOutcome | src/bigqmt_autotrader/qmt/guojin_sim_oms.py:733-743 | over every run of hosts and bridge without a harmful rename: a plan the Host finds as OBSERVED_REJECTED never had and never will have a broker call that returned, and one found as OBSERVED_PROCESSED was unexpired at the bridge's check, with the frame stored |
| CommandEndings.BridgeFilesAsPermitted | qmt_side/BIGQMT_EXECUTION_BRIDGE_V05.py:1105-1162 | whatever happens to a command, the bridge's loop files it as that state machine permits |
| HostDispatch.RowWriteKeepsDurable | src/bigqmt_autotrader/qmt/guojin_sim_oms.py:745-759 | a row write that keeps reservations keeps plans and reservations matched |
| HostDispatch.ReserveKeepsDurable | src/bigqmt_autotrader/qmt/guojin_sim_oms.py:651-676 | reservation and plan together keep them matched |
| HostDispatch.PlannedMeansReserved | src/bigqmt_autotrader/qmt/guojin_sim_oms.py:603-649 | a stored plan means its reservation was made |
| HostDispatch.HostRuntime.ReserveAndPersistDispatch | src/bigqmt_autotrader/qmt/guojin_sim_oms.py:651-676 | both exist afterwards, or neither |
| HostDispatch.HostRuntime.RecoverDispatch | src/bigqmt_autotrader/qmt/guojin_sim_oms.py:688-743 | what happens by plan state and presence in the spool: published once, expired, adopted as located, or sent to review |
| HostDispatch.HostRuntime.PublishPlanned | src/bigqmt_autotrader/qmt/guojin_sim_oms.py:705-720 | publishes once after its own expiry check, recording the times of check and creation, or fails the plan and its order together |
| HostDispatch.HostRuntime.AdoptLocated | src/bigqmt_autotrader/qmt/guojin_sim_oms.py:733-743 | adopts the located frame under the state its directory stands for and leaves the order waiting, or reports a different one |
| HostDispatch.HostRuntime.FailDispatch | src/bigqmt_autotrader/qmt/guojin_sim_oms.py:508-533 | plan and order go to review in one transaction |
| HostDispatch.HostRuntime.BeginReconciliation | src/bigqmt_autotrader/qmt/guojin_sim_oms.py:745-759 | afterwards the order is no longer in flight |
| HostDispatch.HostRuntime.ValidateDispatchInvariants | src/bigqmt_autotrader/qmt/guojin_sim_oms.py:449-487 | exactly the reservations this session cannot account for go to review; every order still in flight has a live plan of this session |
| HostDispatch.HostRuntime.ValidateOrder | src/bigqmt_autotrader/qmt/guojin_sim_oms.py:459-487 | the row after validation, by status, flags and plans |
| HostDispatch.ReviewedExactlyWhenUnaccounted | src/bigqmt_autotrader/qmt/guojin_sim_oms.py:459-487 | validation reviews exactly a begun submit, or an open cancel of a working order, that has no plan of this session |
| HostDispatch.HostRuntime.RecoverDispatches | src/bigqmt_autotrader/qmt/guojin_sim_oms.py:535-546 | the loop over all plans of the session; every created command was unexpired when publish checked it |
| HostDispatch.HostRuntime.Start | src/bigqmt_autotrader/qmt/guojin_sim_oms.py:95-103 | when the constructor's recovery returns, no plan of this session is unpublished and no order is in flight; each created command came from a never-published plan that was unexpired at the check made for it |
| HostDispatch.HostRuntime.ExecuteIntent | src/bigqmt_autotrader/qmt/guojin_sim_oms.py:364-412 | a first dispatch that returns leaves the reserved row of the intent's quantity, waiting for the broker, with its plan published; or under review, unsent, when the plan expired; a repeated intent completes the dispatch it has; no other row or plan moves; and why it can fail |
| HostDispatch.HostRuntime.CancelIntent | src/bigqmt_autotrader/qmt/guojin_sim_oms.py:414-447 | nothing exactly for an ended order; else one cancel dispatch with its reserved row, waiting for the broker, or under review when the plan expired unsent; and why it can fail |
| OrderExecution.ActKeepsGoverned | src/bigqmt_autotrader/qmt/guojin_sim_oms.py:651-676 | every write of tables, spool and bridge keeps plans, reservations and the spool's contents matched |
| OrderExecution.OneExecutionPerReservation | qmt_side/BIGQMT_EXECUTION_BRIDGE_V05.py:1091-1195 | end to end, without harmful renames: at most one execution per order and command kind, of a stored plan whose reservation was made, and of its own frame, unexpired when it appeared and when the bridge checked it |
| OrderExecution.OneHostExecutesOnce | src/bigqmt_autotrader/qmt/guojin_sim_oms.py:535-546 | one Host at a time is enough for the same, over any number of restarts of Host and bridge |
| OrderExecution.FencedHostExecutesTwice | src/bigqmt_autotrader/qmt/commands.py:260-287 | a run in which a second Host publishes a stored plan, and a first one resumes its own publish of it after its scan: the plan is executed twice |
| DealMapper.DealFactReportsTotal | src/bigqmt_autotrader/qmt/guojin_evidence.py:294-347 | a deal fact carries exactly its own order's total, within the order, FULL_FILL exactly at equality |
| DealMapper.OrderFactStatesItsRow | src/bigqmt_autotrader/qmt/guojin_evidence.py:224-292 | an order row is accepted exactly when it is about a registered order, has one of the four calibrated shapes and fits the broker id; code 50, 54, 56 or 57 then decides kind and fill, with the row's broker id, and only the broker id can change |
| DealMapper.RowKeepsConsistent | src/bigqmt_autotrader/qmt/guojin_evidence.py:160-347 | a rejected row changes nothing, an order row no trade, identities are write-once |
| DealMapper.RepeatAddsNothing | src/bigqmt_autotrader/qmt/guojin_evidence.py:308-324 | a repeated deal reports the same total and changes nothing |
| DealMapper.StreamKeepsConsistent | src/bigqmt_autotrader/qmt/guojin_evidence.py:160-347 | every interleaved stream keeps totals within their orders |
| DealMapper.TradesAreAcceptedDeals | src/bigqmt_autotrader/qmt/guojin_evidence.py:308-324 | recorded trades are exactly the accepted deals, each with its quantity |
| DealMapper.DealAcceptedExactlyWhen | src/bigqmt_autotrader/qmt/guojin_evidence.py:294-347 | a deal is accepted exactly when it is complete, its trade new or the same, and total and broker id fit its order |
| DealMapper.RejectionSaysWhy | src/bigqmt_autotrader/qmt/guojin_evidence.py:179-347 | what each logged rejection reason says about the row |
| DealMapper.FittingDealsConverge | src/bigqmt_autotrader/qmt/guojin_evidence.py:294-347 | deals that fit together give the same trades for every order and repetition, whatever order rows and hopeless deals come between |
| DealMapper.HopelessStaysRejected | src/bigqmt_autotrader/qmt/guojin_evidence.py:294-347 | which deals no later state accepts |
| DealsSettle.StreamIsReported | src/bigqmt_autotrader/qmt/guojin_evidence.py:294-412 | the evidence of a deal stream is one order's running totals, each within the order, full exactly at its quantity, the last one its total now |
| DealsSettle.DealsSettleOrder | src/bigqmt_autotrader/qmt/guojin_evidence.py:294-412 | deals that fit together, each event mapped once, in any order and among hopeless ones, and their evidence then delivered in any order and repetition, leave the order with exactly the sum of its distinct trades, FILLED exactly at its quantity and PARTIALLY_FILLED otherwise |
| DealsSettle.OrderRowSettles | src/bigqmt_autotrader/qmt/guojin_evidence.py:243-258 | an accepted order row through the journal: a working order without a fill ends CANCELLED at fill 0 after 54, FILLED at its quantity after 56, REJECTED after 57, and otherwise works |
| DealsSettle.RemapClashesExactlyWhenTotalMoved | src/bigqmt_autotrader/qmt/guojin_evidence.py:364-412 | one event mapped twice gives clashing evidence exactly when the order's total moved in between |
| DealMapper.GuojinEvidenceMapper.RegisterOrder | src/bigqmt_autotrader/qmt/guojin_evidence.py:94-112 | registers once, refuses a conflicting identity |
| DealMapper.GuojinEvidenceMapper.MapDeal | src/bigqmt_autotrader/qmt/guojin_evidence.py:294-347 | equals the specified deal step and logs each rejection |
| DealMapper.GuojinEvidenceMapper.MapOrder | src/bigqmt_autotrader/qmt/guojin_evidence.py:224-292 | does the order step that `OrderFactStatesItsRow` speaks about and logs each rejection |
| DealMapper.GuojinEvidenceMapper.MapSnapshot | src/bigqmt_autotrader/qmt/guojin_evidence.py:129-158 | emits the facts of its row stream in order; emitted plus rejected is every row |
| SpoolArchive.SequenceGaps | src/bigqmt_autotrader/qmt/archive.py:579-590 | no gap exactly when every session's sequences form one interval |
| SpoolArchive.FindFinalSnapshot | src/bigqmt_autotrader/qmt/archive.py:353-372 | final exactly when a clean snapshot is followed only by restatements, and a query error exactly when the last snapshot has one |
| SpoolArchive.RestatesExactlyWhen | src/bigqmt_autotrader/qmt/archive.py:300-350 | an event restates a snapshot exactly when it is an update of its session and account that leaves its book as it was, but for such an open price |
| SpoolArchive.FinalSnapshotStands | src/bigqmt_autotrader/qmt/archive.py:353-372 | replaying everything after a final snapshot leaves the account row, the symbols and every position as the snapshot has them, but for positive open prices reported as zero |
| SpoolArchive.DaysStartAtShanghaiMidnight | src/bigqmt_autotrader/qmt/archive.py:76-79 | a trading day is the 24 hours between two midnights in UTC+08:00 |
| SpoolArchive.SortedIsOrdered | src/bigqmt_autotrader/qmt/archive.py:153 | the sort orders records by time, session and sequence and loses none |
| SpoolArchive.DailySpoolArchiver.ArchiveDay | src/bigqmt_autotrader/qmt/archive.py:98-263 | however it ends: nothing seen under a name of its own is lost, committed days stay, only files with an archived name go; a committed day was ready and complete; a refused day is refused for exactly the reasons that hold of it, pending, quarantined and corrupt files included |
| SpoolArchive.DailySpoolArchiver.Readiness | src/bigqmt_autotrader/qmt/archive.py:153-190 | exactly the objections that hold of the records, and none exactly when the day is ready |
| SpoolArchive.DailySpoolArchiver.RecoverCommittedDay | src/bigqmt_autotrader/qmt/archive.py:410-452 | late exactly when an event of the day is there under a name the archive does not have, and then nothing is removed; else every archived source goes |
| SpoolArchive.DailySpoolArchiver.DeleteSources | src/bigqmt_autotrader/qmt/archive.py:628-635 | all sources go that did not arrive meanwhile, and only files with an archived name |
| SpoolArchive.DailySpoolArchiver.CollectDay | src/bigqmt_autotrader/qmt/archive.py:132-142 | exactly the day's readable events, and whether one is corrupt |
| SpoolArchive.DailySpoolArchiver.CommitDay | src/bigqmt_autotrader/qmt/archive.py:192-263 | the day is committed before any source goes |
| ArchiveRuns.LosableExactlyWhenNameIsShared | src/bigqmt_autotrader/qmt/archive.py:437-442 | some run of arrivals, collection, commit, deletion, recovery and stops loses an event exactly when another event that may be written has its name |
| ArchiveRuns.NothingIsLostExactlyWhenNamesDecide | src/bigqmt_autotrader/qmt/archive.py:628-635 | no run loses anything exactly when names tell the events apart |
| ArchiveRuns.LosingRunLoses | src/bigqmt_autotrader/qmt/archive.py:410-452 | the run that loses it: archive one, let the other arrive under its name, recover the day |
| ArchiveRuns.NothingListedIsMissed | src/bigqmt_autotrader/qmt/archive.py:132-142 | whatever arrives while a day is read file by file, everything listed at the start is collected |
| ArchiveRuns.StepKeeps | src/bigqmt_autotrader/qmt/archive.py:98-263 | every step of the protocol keeps each event that has a name of its own, in the spool or its archive |
| EventQueue.BridgeQueue.Enqueue | qmt_side/BIGQMT_EXECUTION_BRIDGE_V05.py:481-487 | a full queue of 512 drops its oldest, otherwise nothing is dropped |
| EventQueue.BridgeQueue.DrainEvents | qmt_side/BIGQMT_EXECUTION_BRIDGE_V05.py:490-499 | hands over the front of the queue, and no more than it has |
| EventQueue.BridgeQueue.FlushTransport | qmt_side/BIGQMT_EXECUTION_BRIDGE_V05.py:555-573 | what was written leaves the queue; a failed write loses nothing |
| EventQueue.BridgeQueue.Conserved | qmt_side/BIGQMT_EXECUTION_BRIDGE_V05.py:481-573 | emitted equals persisted, drained, dropped and queued together |
| EventQueue.Oracle.Ingest | tools/verify_bridge_protocol_exhaustive.py:73-93 | equals the specified ingress step |
| EventQueue.SyncedExactlyWhenContiguous | tools/verify_bridge_protocol_exhaustive.py:73-93 | for every stream: in sync exactly when nothing was missed since a clean snapshot of the session |
| EventQueue.DispositionSays | tools/verify_bridge_protocol_exhaustive.py:73-93 | for every stream: when an event is an identity error, a duplicate, a gap or accepted, and that exactly the last two take it in |
| EventQueue.InSyncMeansNothingDropped | tools/verify_bridge_protocol_exhaustive.py:73-93 | queue and ingress together: in sync means every event since the snapshot was delivered |
| EventQueue.DropIsNoticedNext | tools/verify_bridge_protocol_exhaustive.py:86-92 | the next delivery is a gap exactly when an event before it was lost |
| CanaryFuse.ProcessKeepsFuse | qmt_side/BIGQMT_EXECUTION_BRIDGE_V05_GUOJIN.py:1532-1618 | one command keeps the fuse, and a halted session crosses nothing |
| CanaryFuse.CrossesExactlyWhen | qmt_side/BIGQMT_EXECUTION_BRIDGE_V05_GUOJIN.py:1532-1606 | a submit is entered exactly for the authorized case, admitted, in its window, with instrument and account checked and none counted before; a cancel exactly for a matching cancellable order with none counted before |
| CanaryFuse.ResultTellsWhatCrossed | qmt_side/BIGQMT_EXECUTION_BRIDGE_V05_GUOJIN.py:1532-1739 | each result by what crossed, what came back and which check failed; nothing changes unless something crossed or a mutation is unknown |
| CanaryFuse.RunKeepsFuse | qmt_side/BIGQMT_EXECUTION_BRIDGE_V05_GUOJIN.py:1668-1739 | any command sequence keeps it |
| CanaryFuse.FuseHolds | qmt_side/BIGQMT_EXECUTION_BRIDGE_V05_GUOJIN.py:1532-1739 | at most one submit and one cancel are entered, raising calls included, and nothing after an unknown mutation |
| CanaryFuse.RaisedCancelIsUncounted | qmt_side/BIGQMT_EXECUTION_BRIDGE_V05_GUOJIN.py:1612-1613 | after a raised cancel its counter still reads zero and the halt alone holds |
| CanaryFuse.LiveCanaryBridge.ExecuteOrderCommand | qmt_side/BIGQMT_EXECUTION_BRIDGE_V05_GUOJIN.py:1532-1618 | equals the specified execution |
| CanaryFuse.LiveCanaryBridge.ProcessClaimed | qmt_side/BIGQMT_EXECUTION_BRIDGE_V05_GUOJIN.py:1668-1739 | equals the specified step, keeps the fuse, one directory per command |
| AlertStore.LogKeepsSound | src/bigqmt_autotrader/operations/alert_store.py:143-251 | rows match logged events, never step back, and a replayed activation always has a row |
| AlertStore.LoggedExactlyWhen | src/bigqmt_autotrader/operations/alert_store.py:276-348 | a fact is refused exactly when its id was used for another, or another fact is logged for the alert and time; one logged already is not logged again |
| AlertStore.ActivationShows | src/bigqmt_autotrader/operations/alert_store.py:143-196 | a committed activation leaves the alert active unless the row is later |
| AlertStore.RaisedShows | src/bigqmt_autotrader/operations/alert_store.py:143-196 | a committed activation is its alert's row, severity and text included, unless the row is later |
| AlertStore.EpisodesAreCounted | src/bigqmt_autotrader/operations/alert_store.py:160-196 | first sighting and count of an episode, and when a new one starts |
| AlertStore.RowAfterResolution | src/bigqmt_autotrader/operations/alert_store.py:221-251 | a late fact leaves the row alone, and a resolution that ends an episode keeps its severity, text, first sighting and count |
| AlertStore.ResolutionTakesEffectExactlyWhenNew | src/bigqmt_autotrader/operations/alert_store.py:221-251 | a newer resolution takes effect exactly when it was not logged before |
| AlertStore.ResolutionShows | src/bigqmt_autotrader/operations/alert_store.py:221-251 | after a committed resolution the alert is active exactly when its row was later or the resolution a replay |
| AlertStore.EarlyResolutionIsSwallowed | src/bigqmt_autotrader/operations/alert_store.py:233-236 | a concrete log whose later replay resolves nothing |
| AlertStore.OperationsAlertJournal.InsertEvent | src/bigqmt_autotrader/operations/alert_store.py:276-348 | a replay, a reused id, a contradiction, or a new row in the log |
| AlertStore.OperationsAlertJournal.RecordActive | src/bigqmt_autotrader/operations/alert_store.py:116-196 | equals the specified transaction, or refuses and changes nothing |
| AlertStore.OperationsAlertJournal.RecordResolved | src/bigqmt_autotrader/operations/alert_store.py:198-251 | equals the specified transaction, or refuses and changes nothing |
| AlertStore.OperationsTelemetry.constructor | src/bigqmt_autotrader/operations/telemetry.py:63-77 | a rebuilt cache is exactly the stored active alerts |
| AlertStore.OperationsTelemetry.Upsert | src/bigqmt_autotrader/operations/telemetry.py:98-148 | the alert shows with its severity and text unless something later is known; without a journal the exact alert; cache and rows agree also when the journal refuses; other alerts untouched |
| AlertStore.OperationsTelemetry.Resolve | src/bigqmt_autotrader/operations/telemetry.py:150-167 | the alert is gone exactly unless its resolution is late or a replay; cache and rows agree also when the journal refuses; other alerts untouched |
| AlertStore.OperationsTelemetry.ResolvePrefix | src/bigqmt_autotrader/operations/telemetry.py:169-179 | clears every unkept alert of the prefix and touches no other |
| AlertStore.OperationsTelemetry.SyncHealth | src/bigqmt_autotrader/operations/telemetry.py:181-208 | cache equals the active rows even after a partial sync; a completed sync shows every reported component as an error with its reason and clears every other |
| AlertStore.OperationsTelemetry.SyncMode | src/bigqmt_autotrader/operations/telemetry.py:210-231 | the HALTED alert shows or is cleared as the mode says, with its text; a stale sync changes nothing and any other is remembered |
| AlertStore.OperationsTelemetry.SyncExecutionAmbiguity | src/bigqmt_autotrader/operations/telemetry.py:233-277 | both alerts show with their counts or are cleared at zero; a stale sync changes nothing and any other is remembered |

## Left out

- Audit rows: order events, risk decisions and session rows are written beside the order rows and read by nothing modelled here.
- Text limits, character sets, JSON, hashing, compression and fsync: digests stand for what they hash, frames for their bytes.
- How a number is written out in an alert's text is a parameter.
- Row order by rowid: recovery and listing loops visit rows in any order.
- The unused broker id and fill parameters of `transition_order`: no caller passes them.
- The closed flag of a session: closing releases the lease, so the guard already refuses.
- Other sessions inside one session's method: `OmsService` runs one session over the database; `OmsIsolation` shows that while it holds the lease the others might as well stand still.
- The reconciled flag across sessions: `OmsSystem` lets a session submit before it recovered, which only adds runs.
- `HostDispatch`: one Host process at a time with stops anywhere; what two racing Hosts do to one command id is in `CommandPipeline`. Identity refresh from the spool and the mapper's identities are not part of it.
- Operating-system scheduling of the bridge timer, and files other programs put into the spool.
- Market data, instrument, cash and window checks of the canary are outcomes the terminal may give.
- The receiver, the wire protocol, the read model and the risk engine: their source is not part of this model.
- The V03, V04 and Galaxy bridges, read-only probes, Host command line, status summaries and deployment tools.
- DealMapper.FittingDealsConverge: order-independence is for deals that can all be accepted together, among order rows and deals that are never accepted; of contradictory or overfilling deals the first to arrive wins.
- Order registrations between the rows of one deal stream.
- DealsSettle.DealsSettleOrder: is for streams of deals; an order row between them may end the order at another fill, which is a contradiction for the journal to review.
- CommandLocate.ConflictExactlyWhenMovedAhead: is for runs without a harmful rename; after one there can be two real copies, which is the conflict `locate` is meant to report.
- CommandResults.ResultsConverge: is for results with one content per command id and per sequence number; contradictory ones are refused in arrival order.
