# Crash-safe publication: a verified model

The Technology Library publishes one sealed transaction of CREATE, UPDATE and UNCHANGED record
items at a time.  A publication takes a lease, makes a recovery journal and snapshots durable,
crosses a write boundary, writes records and then the generated indexes, verifies, commits a
receipt and a terminal journal, and releases the lease.  It may die between any two remote
writes, any acknowledgement may be lost, and any number of recovery commands and reconcilers may
run afterwards.  This project models that protocol, its engines and two smaller lifecycles
(candidate settlement and the controlled split), and proves what the protocol is for: a released
lease means exactly the old library or exactly the library that a request's plan aims at, and
only a plan whose preconditions held is ever committed.  It also shows the one way in which
the code falls short of that, a failed read while the before-image is captured, with the exact
condition under which no such read can cost a file.

## How it is built

Three layers.

1. **Engines** (`RecordMutation`, `IndexEngine`, `TransactionEngine`, `RecoveryEngine`,
   `Coordinator`, `Receipts`, `Preparation`, `Stage13`): methods over the class `Remote`, whose
   writes are acknowledged, refused or lost and whose reads may come back empty.  A contract says
   which effects landed (a ghost log), and on a reliable remote exactly when the method succeeds.
2. **Protocol** (`Protocol`, `ProtocolSafety`, `LeaseHistory`, `Router`, `Rollback`): a transition
   system over durable effects with one inductive invariant.  A run is any sequence of legal
   effects, whoever performs them; an acquisition names what its transaction aims at, which is
   one of the intents of the run.
3. **Sessions** (`PrewriteArm`, `Publisher`, `RecoverCommand`, `Reconciliation`, `Operations`):
   the programs themselves, imperative and with their exception routing.  Each is proved to
   perform only legal effects from every state the invariant allows, so the run theorems apply to
   every interleaving of crashed and completed programs.  `Operations` makes the requests'
   plans the intents of the run.

`Model` holds the data, `Ordering` and `Paths` Python's ordering and the file names,
`IndexRebuild` and `Inventory` the generated indexes as a function of the records, `Sealing` the
proof that the journal covers what will change, `Journals` the terminal journals.
`SettlementPlan`, `SettlementFixture`, `Newlines`, `SplitRuns` and `SplitControlled` are the two
lifecycles.  `WorkedExample` is one concrete publication that meets the publisher's success
hypotheses, and `MissedCapture` the same publication with one failed read, up to the loss of the
record.

## Assumptions

- At most one worker is live past the write boundary, and the programs of one run follow each
  other; the code leaves this to the Actions concurrency group
  (src/candidate_production_coordinator.py:34-38).  `LeaseHistory` treats contending owners and
  shows what the drive backend loses without this.
- A single-path write is all or nothing, and an unconfirmed write has landed or not by the time
  the program goes on; it never lands later.
- The digest is injective and JSON documents are their values: a digest is a free constructor.
- Any read may fail, and then looks like absence; what a read does return is what is stored.
- Targets are normalised paths of record files (`Sealing.SafeTargets`), and the run directory,
  which contains a random owner, is new (`PrewriteArm.Fresh`).
- A plan's count of CREATE items is what the planner writes, their number
  (src/candidate_transaction_plan.py:236-241).
- Header parsing and index rendering are arbitrary functions (`IndexRebuild.Renderer`).  Every
  result holds for all of them; only Stage 13 needs that a master index states its record count.

## What the proofs found

- A read that fails while the before-image is captured turns an existing file into one that the
  journal says did not exist, and nothing later notices: a rollback then deletes it.  A release by
  recovery leaves the old library without the files captured as absent.  It is the old library if
  and only if every item that does not create was captured as existing, and so was every other
  journalled file that exists: a condition on the prepared journal that could be checked before
  the boundary (`ProtocolSafety.GuardIff`, `ProtocolSafety.GuardByAction`).
  `MissedCapture.RecoverAfterMissedRead` is the failing run: an UPDATE target whose capture read
  failed, a death after the boundary, and a recovery command that succeeds, verifies and releases
  with the record gone.  On a reliable remote no capture misses a file (`Sealing.ExactCapture`).
- Before the boundary such a journal cannot be aborted by a recovery command whose reads succeed:
  the missed file looks like a created one that is still there
  (`RecoverCommand.UnchangedIsRestored`).  If the file is the master index, neither recovery nor
  the reconciler of a committed transaction ever finishes (`RecoverCommand.RecoverableIsReady`,
  `Reconciliation.CommittedIsProved`).
- On a remote whose reads fail, a CREATE can pass every check over a file that exists, and
  overwrite it.  What keeps such a transaction from committing is the count guard: records after
  equal records before plus CREATE items if and only if no CREATE target was there
  (`Inventory.PostCount`, `Publisher.CountedIsMet`).  So no committed CREATE ever overwrote a file,
  and Stage 13 accepts every committed library (`Operations.CommittedIsAccepted`).
- The same remote can hide a foreign file at a path the journal has as absent from the strict
  rollback check, and the rollback then deletes it.  The check can pass exactly when all files
  that existed before roll back, and its answer is right exactly when there is no such foreign
  file (`RecoveryEngine.StrictCheckIff`, `RecoveryEngine.ForeignIsDeleted`).  In a reachable state
  the only such files are missed ones (`RecoverCommand.ForeignIsMissed`).
- With the production delete, which stops on an absent file, a recovery of a transaction that
  died before it had created all its files cannot complete, and neither can one that was
  interrupted after it removed a created file (`Rollback.RemovalBlocksStrictDelete`).  In a
  recoverable state the recovery command succeeds on a reliable remote if and only if every file
  captured as absent is there and the master index was captured (`RecoverCommand.RunRecovery`).
- The delete of the restart fixture tolerates absence, but takes a file that it cannot read for a
  deleted one.  An outage of the delete and of the reads after it leaves a created file behind a
  RECOVERED journal; a rollback with it is complete if and only if every created file is gone
  (`RecoveryEngine.UndoneIffGone`, `RecoveryEngine.TolerantDeleteLeaves`).
- A lost acknowledgement of the write boundary leaves an armed lease beside an ABORTED_PREWRITE
  journal: the library is untouched, and no program can go on (`ProtocolSafety.LostBoundaryBlocks`).
- The strict router and the recovery command agree wherever both act.  They differ exactly on an
  unarmed journal past PREPARED, on transactions without items, and on some missed files, all of
  which the strict router blocks (`Router.RoutesDiffer`); a committed transaction without items is
  never released by the reconciler (`Reconciliation.CommittedIsProved`).
- Stage 13 accepts a library without records if its master index counts none, where the index
  planner refuses it (`Stage13.VerifyStage13`).
- The runs of a split, however often cut short and whichever reads fail, can lose the parent.
  `SplitRuns.ParentKeptIff` says exactly when they cannot.  The losing runs are: a parent that
  already lies at its archive path and is removed as its own second copy, even on a healthy remote
  (`SplitRuns.SelfArchiveLoses`); an archive with other content that the preflight failed to read
  (`SplitRuns.ForeignArchiveLoses`); a parent at the path of a child with another text, which a
  failed read showed as free and the child overwrites (`SplitRuns.ChildOverParentLoses`), together
  with the archived copy if there is one (`SplitRuns.ChildOverArchiveLoses`).
- If the parent lies at the path of a child with the same hash, no read fails: the split moves that
  child away as the parent and reports success with the child missing
  (`SplitRuns.ChildrenSurviveIff`, `SplitControlled.ApplyPrivateSplit`).  The next run writes the
  child again, and the one after that moves it away again.
- A child of a split is verified after writing if and only if its text has no carriage return;
  once written, such a child blocks every later run (`SplitRuns.UnfixedChildBlocks`).  Runs can
  always be repeated exactly when there is no such child, the parent's place is not the archive's,
  and a child at the parent's place has the parent's hash (`SplitRuns.RerunIff`).
- The drive backend's comparison alone does not exclude two holders
  (`LeaseHistory.DriveNeedsSoleWriter`).
- The opening comment of src/candidate_production_coordinator.py:9-11 speaks of the pre-write
  abort as the only transition; the code has five, and the model follows the code.

## Model
| member | source | states |
|---|---|---|
| Operations.Operate | src/candidate_controlled_publish.py:533-753 | Any sequence of publishers, recovery commands and reconcilers, on a remote that may lose any write or fail any read, performs only legal effects; every acquisition in it is for a request and aims at that request's plan; every release settles its transaction all-or-nothing; every durable commit and every committed release, by whichever program, leaves exactly the post-image of a request's plan over the library found at its acquisition, all preconditions of the plan having held there. |
| Operations.CommittedIsAccepted | src/candidate_stage_13_verification.py:99-168 | Stage 13 accepts the library of every commit in every run of requests, with the record count before plus the CREATE items. |
| ProtocolSafety.AllOrNothing | src/candidate_production_coordinator.py:414-650 | In every legal run a lease is released by abort only with the library exactly as at its acquisition; by commit only with exactly the library that the acquisition named as its purpose, one of the intents of the run, with preconditions met, a durable COMMITTED journal and its receipt; and by recovery only with the old library minus the files its durable RECOVERED journal has as absent, which is the old library if and only if the capture guard holds. |
| ProtocolSafety.CommitSettles | src/candidate_controlled_publish.py:669-680 | A COMMITTED journal becomes durable only for the transaction that acquired the lease, over exactly the library it aimed at, with its preconditions met. |
| ProtocolSafety.AcquiredByIntent | src/candidate_production_coordinator.py:359-411 | Every acquisition of a run is by one of the intents of that run, for the library it finds. |
| ProtocolSafety.GuardIff | src/candidate_transaction_prewrite_arm.py:178-214 | Rolling back by a sealed journal restores the old library if and only if the capture guard holds, which compares the journal's flags with actions and existing files. |
| ProtocolSafety.GuardByAction | src/candidate_transaction_prewrite_arm.py:178-214 | When no CREATE target existed, rollback is exact if and only if each item's existed-before flag agrees with its action and every affected index that exists was captured as existing. |
| ProtocolSafety.RunKeepsInv | src/candidate_controlled_publish.py:533-709 | The protocol invariant is inductive over all legal runs. |
| ProtocolSafety.LegalKeepsInv | src/candidate_controlled_publish.py:578-709 | Each durable effect of the publisher, the recovery command and the reconciler keeps the invariant. |
| ProtocolSafety.WriteAhead | src/candidate_controlled_publish.py:578-639 | Wherever the library differs from the one the lease holder found, the lease is armed and the durable journal, recoverable, COMMITTED or RECOVERED, names that path; its old bytes are in a durable snapshot unless the capture missed the file, and under the capture guard a RECOVERED journal leaves no difference. |
| ProtocolSafety.CommittedIsFinal | src/candidate_controlled_publish.py:711-720 | After a durable COMMITTED journal the only effect that can follow is the release that certifies it. |
| ProtocolSafety.RecoveredIsFinal | src/candidate_production_recover.py:254-292 | After a durable RECOVERED journal the only effect that can follow is the release that certifies it. |
| ProtocolSafety.LostBoundaryBlocks | src/candidate_controlled_publish.py:604-618 | An armed lease beside an aborted journal allows no further effect, and the library is the old one. |
| ProtocolSafety.ReleasedAtMostOnce | src/candidate_committed_reconciliation.py:148-186 | No two committed releases of one run are for the same transaction holder. |
| ProtocolSafety.ActiveWasAcquired | src/candidate_production_coordinator.py:359-411 | From a state in which nobody held it, an active lease was acquired under its identity, and by nobody else since. |
| ProtocolSafety.EpochSettles | src/candidate_production_coordinator.py:414-650 | The release of an epoch settles exactly the transaction that acquired it, as named at that acquisition. |
| Rollback.RollbackExactIff | src/candidate_production_recovery_engine.py:175-213 | From any library that differs only at journalled paths, a full rollback restores the old library if and only if the captured before-image is the true one there. |
| Rollback.RollbackExact | src/candidate_production_recovery_engine.py:175-213 | With a truthful journal, rollback from any partial write returns exactly the old library. |
| Rollback.RollbackRestores | src/candidate_production_recovery_engine.py:175-213 | With what a capture may have seen, a full rollback from any partial write returns the old library without the missed files, and so the old library if and only if none was missed. |
| Rollback.RecoveryConverges | src/candidate_production_recovery_engine.py:153-225 | After any chain of interrupted rollbacks every path holds its old or its starting bytes, nothing else is touched, and a full run restores the old library. |
| Rollback.RemovalBlocksStrictDelete | src/candidate_controlled_publish.py:291-299 | Once a rollback has removed a created file, the condition under which the production delete can finish is gone for good. |
| RecoveryEngine.ValidateRecoveryJournal | src/candidate_production_recovery_engine.py:52-119 | Accepts exactly the journals past the boundary, in a recoverable state, with identity, canonical paths without `..` segments, the fields each entry's flag requires, and no path twice; the format of digests is not modelled. |
| RecoveryEngine.VerifyRollbackPreconditions | src/candidate_production_recovery_engine.py:122-150 | Passes only if it can on what failing reads may show; then every file that existed before is at its before or after bytes with its snapshot intact; on a reliable remote passes exactly when that and the same for created paths holds. |
| RecoveryEngine.StrictCheckIff | src/candidate_production_recovery_engine.py:122-150 | Over everything a remote with failing reads may answer: the check can pass if and only if every existed-before entry rolls back and all expected digests are there, and the rollback preconditions hold if and only if it can pass and no foreign file is at a path the journal has as absent. |
| RecoveryEngine.ForeignIsDeleted | src/candidate_production_recovery_engine.py:175-196 | A foreign file at a created path whose read fails: the strict check can pass and the rollback deletes the file. |
| RecoveryEngine.PreconditionsSurvive | src/candidate_production_recovery_engine.py:128-150 | The rollback preconditions hold again after any prefix of the rollback's own writes. |
| RecoveryEngine.RestoreAll | src/candidate_production_recovery_engine.py:175-207 | Every write undoes an entry, in journal order with the production delete; afterwards each path is undone or is a created file that stayed, and the latter only with the tolerant delete on a failing remote; completes on a reliable remote if and only if every entry can be undone. |
| RecoveryEngine.UndoneIffGone | src/candidate_production_restart_recovery_fixture.py:129-137 | After a rollback with tolerant deletes the library is the rolled-back one if and only if every created file is gone. |
| RecoveryEngine.TolerantDeleteLeaves | src/candidate_production_restart_recovery_fixture.py:129-137 | A failed delete whose readbacks fail too is taken for a deletion: the created file stays, and the master index check does not show it. |
| RecoveryEngine.ExecuteRecovery | src/candidate_production_recovery_engine.py:153-225 | Strict recovery writes only if its check can pass, so over no conflict at a path that existed before, and over none at all if no foreign file is at a created path or the remote is reliable; it reports RECOVERED only with the old master index and every entry undone, with the tolerant delete up to created files that stayed; on a reliable remote exactly when that is possible. |
| RecordMutation.ValidateTransaction | src/candidate_canonical_record_mutation.py:54-129 | Accepts exactly the unwritten, bounded plans with distinct targets whose paths have the required prefixes and no `..` segment and whose precondition fits the action; paths are in normal form and the format of digests is not modelled. |
| RecordMutation.Preflight | src/candidate_canonical_record_mutation.py:132-165 | No errors means valid plan, bound contents, the expected map exactly target to content, and met preconditions, for a CREATE as far as its target could be read; on a reliable remote met without exception, and that is also sufficient. |
| RecordMutation.MutateItem | src/candidate_canonical_record_mutation.py:182-247 | One item writes its target at most once, an UPDATE only over its precondition, a CREATE over a file only on a remote whose reads fail; on a reliable remote it is verified exactly when the precondition holds. |
| RecordMutation.MutateAll | src/candidate_canonical_record_mutation.py:168-262 | PREWRITE_ABORT means no write, failure a prefix of the CREATE and UPDATE writes in plan order, success all of them, counted, with the library overlaid by the targets. |
| RecordMutation.ExecuteRecordMutations | src/candidate_canonical_record_mutation.py:168-262 | The whole mutation engine with its preflight; complete on a ready plan over a reliable remote. |
| RecordMutation.TargetsTurn | src/candidate_canonical_record_mutation.py:77-129 | With distinct targets an earlier item's write never disturbs a later item's recheck. |
| IndexRebuild.PlanCanonical | src/candidate_canonical_index_rebuild.py:24-71 | The index plan depends only on the set of record paths and the bytes at them. |
| IndexRebuild.ListingOrderIrrelevant | src/candidate_canonical_index_rebuild.py:24-60 | Unique type-and-title keys make the record order total: any listing of the same paths loads to the same sorted records. |
| IndexRebuild.PlanStable | src/candidate_canonical_index_rebuild.py:62-109 | Writing the planned indexes leaves the plan as it was. |
| IndexRebuild.PlannedAreSafe | src/library_index_build.py:253-260 | The plan is the master index and one index for every domain with a record, each path once, all generated files. |
| IndexRebuild.PlanCounts | src/candidate_canonical_index_rebuild.py:62-71 | The plan has one record for every distinct record path. |
| IndexRebuild.RecordAtNamed | src/library_index_build.py:91-131 | A valid record lies in the library under a record file name and is never a generated index. |
| IndexEngine.LoadRecords | src/candidate_canonical_index_rebuild.py:24-60 | Returns the sorted valid record set of the overlaid library, and on a reliable remote whenever there is one. |
| IndexEngine.BuildIndexPlan | src/candidate_canonical_index_rebuild.py:62-71 | Returns the plan of the overlaid library and nothing else. |
| IndexEngine.WriteIndex | src/candidate_controlled_publish.py:621-629 | The journal enters REBUILDING_INDEXES before the first index byte changes. |
| IndexEngine.ApplyIndexPlan | src/candidate_canonical_index_rebuild.py:73-109 | Only planned files are written, none that already has its bytes; success means the library is overlaid with all of them. |
| IndexEngine.ReapplyWritesNothing | src/candidate_canonical_index_rebuild.py:73-109 | Applying indexes that are in place writes nothing and updates none. |
| IndexEngine.VerifyIndexState | src/candidate_canonical_index_rebuild.py:111-121 | No errors exactly when every planned file has its bytes. |
| TransactionEngine.VerifyTransactionTargets | src/candidate_canonical_transaction_engine.py:49-70 | No errors exactly when every target holds its content file's bytes. |
| TransactionEngine.PostHolds | src/candidate_canonical_transaction_engine.py:99-147 | The post-image holds every published record and every planned index. |
| TransactionEngine.RebuildAndVerify | src/candidate_canonical_transaction_engine.py:99-147 | The second half of the engine: index writes of the current records only, and verification. |
| TransactionEngine.ExecuteCanonicalTransaction | src/candidate_canonical_transaction_engine.py:73-147 | CANONICAL_STATE_VERIFIED means the old library overlaid with the items and then with the indexes of the result; index writes follow all record writes; always reached for a ready plan on a reliable remote. |
| Inventory.PostPathsAreListed | src/candidate_canonical_transaction_engine.py:34-46 | The computed record paths are the listing of the library the transaction produces. |
| Inventory.PostCount | src/candidate_controlled_publish.py:645-648 | Records after are records before plus CREATE items if and only if no CREATE target was there before: the count guard fires exactly when a CREATE overwrites a record. |
| Inventory.RecordDomain | src/candidate_transaction_prewrite_arm.py:69-82 | The domain taken from a target's path is the domain in its record's header. |
| Inventory.AffectedAre | src/candidate_transaction_prewrite_arm.py:69-82 | The affected indexes are the master index and the index of each touched domain, each once. |
| Inventory.ScopeSuffices | src/candidate_controlled_publish.py:201-205 | For met preconditions on a library whose indexes match its records only affected indexes change: the scope error does not fire. |
| Inventory.PostIsConsistent | src/candidate_canonical_transaction_engine.py:99-147 | The post-image's indexes match its records again. |
| Inventory.ListRecords | src/candidate_stage_13_verification.py:36-66 | Returns the sorted record files of the library, or nothing. |
| Stage13.LoadValidatedRecords | src/candidate_stage_13_verification.py:69-96 | No errors exactly when the listed files are one valid record set, which is returned sorted. |
| Stage13.VerifyStage13 | src/candidate_stage_13_verification.py:99-168 | On a reliable remote passes exactly when report and receipt are of one committed publication, the counts agree and the generated indexes match the records. |
| Stage13.PostIsAccepted | src/candidate_stage_13_verification.py:99-168 | The post-image of a transaction whose preconditions were met passes; `Operations.CommittedIsAccepted` discharges that for every commit. |
| Preparation.PlannedIndexChanges | src/candidate_controlled_publish.py:173-205 | A result names every index that will change, all within the affected scope; exact on a reliable remote. |
| Preparation.StrictRecordPaths | src/candidate_controlled_publish.py:131-170 | Returns the listing only if the master index counts as many records, and then always on a reliable remote. |
| Preparation.Revalidate | src/candidate_controlled_publish.py:547-576 | Passes only if master digest, listing and contents are as planned and the scope holds; on a reliable remote exactly when everything the caller planned with still holds. |
| Preparation.CaptureCanonicalState | src/candidate_transaction_prewrite_arm.py:158-165 | Every target and every affected index is captured as it is or, where the read failed, as absent; as it is on a reliable remote. |
| Preparation.BindEntries | src/candidate_controlled_publish.py:224-230 | Binds every entry to its predicted digest, or fails if one has no prediction. |
| Preparation.BindExpectedPostHashes | src/candidate_controlled_publish.py:208-231 | Binds exactly the bytes the transaction will produce at every journalled path. |
| Sealing.AffectedArePlanned | src/candidate_controlled_publish.py:224-230 | Every affected index is in the plan, so the binding never lacks content. |
| Sealing.OutsideUnchanged | src/candidate_controlled_publish.py:201-205 | Rollback coverage: a path outside the journal has the same bytes before and after. |
| Sealing.EntriesDistinct | src/candidate_transaction_prewrite_arm.py:168-234 | No path is journalled twice, as item or as index. |
| Sealing.PreparedIsSealed | src/candidate_transaction_prewrite_arm.py:168-234 | Whatever the capture saw, the prepared journal names every path that changes, with what was seen there before, a durable copy of that, and its bytes after. |
| Sealing.ExactCapture | src/candidate_transaction_prewrite_arm.py:158-214 | A capture whose reads all succeeded yields a journal that missed no file. |
| Sealing.SealedItems | src/candidate_transaction_prewrite_arm.py:178-197 | The journal's items are the plan's, bound to the plan's content digests. |
| PrewriteArm.TakeLease | src/candidate_controlled_publish.py:534-543 | The lease is held unarmed under this identity for this purpose over the current library, or the transaction is none of the caller's; success means the former; on a reliable remote whenever nobody holds it. |
| PrewriteArm.SaveSnapshots | src/candidate_transaction_prewrite_arm.py:249-274 | No errors means the old bytes of every existing path are durable; only run files are written. |
| PrewriteArm.PersistAndVerifyRecovery | src/candidate_transaction_prewrite_arm.py:249-288 | The PREPARED journal becomes durable only over verified snapshots, and then seals the plan. |
| Publisher.Foretell | src/candidate_controlled_publish.py:547-593 | Without writing: a bound journal foretells the post-image at every path it names, and on a reliable remote its capture missed nothing. |
| Publisher.Prepare | src/candidate_controlled_publish.py:547-601 | Leaves library and lease alone; success means a durable sealed PREPARED journal. |
| Publisher.CrossBoundary | src/candidate_controlled_publish.py:604-619 | The journal crosses the boundary before the lease does; success means both have. |
| Publisher.AbandonPrewrite | src/candidate_controlled_publish.py:736-753 | Before the boundary a failure leaves the library unchanged, closes the journal and only then releases. |
| Publisher.TransactionLegal | src/candidate_controlled_publish.py:621-639 | Every write of a whole or interrupted transaction is legal in the protocol. |
| Publisher.RunTransaction | src/candidate_controlled_publish.py:631-639 | The engine under the armed lease: success means exactly the post-image, failure a recoverable state with the same journal. |
| Publisher.PredictionHolds | src/candidate_controlled_publish.py:208-231 | Once the post-image is reached, the digest at every journalled path is the one bound before the boundary. |
| Publisher.CountedIsMet | src/candidate_controlled_publish.py:645-648 | Of a sealed publication the count guard passes if and only if all preconditions of the plan held in the library found at the acquisition. |
| Publisher.CertifyPost | src/candidate_controlled_publish.py:645-663 | A receipt is built only after the count guard, over targets that hold their contents and the new master index. |
| Publisher.ReceiptCertifies | src/candidate_transaction_receipt.py:44-157 | The receipt matches the journal's items one to one, and both master digests. |
| Publisher.VerifyAndCertify | src/candidate_controlled_publish.py:641-667 | VERIFYING, then a durable certifying receipt, and that only for a transaction whose preconditions were met; or a recoverable state. |
| Publisher.Commit | src/candidate_controlled_publish.py:669-680 | COMMITTED becomes durable only over the receipt it names and for met preconditions; always on a reliable remote. |
| Publisher.ReleaseAndConfirm | src/candidate_controlled_publish.py:682-702 | After COMMITTED a failed release changes nothing and is reported as uncertain. |
| Publisher.RecoverAndRelease | src/candidate_controlled_publish.py:302-349 | A release leaves the rollback's target; on a reliable remote it succeeds exactly when every file captured as absent is there, the master index was captured and every missed file has been overwritten by the transaction. |
| Publisher.FinishPublication | src/candidate_controlled_publish.py:631-735 | Exception routing: never rolled back after COMMITTED; before it a release means a verified rollback to the journal's target. |
| Publisher.Publish | src/candidate_controlled_publish.py:492-753 | Every run performs only legal effects and begins at most its own transaction; whenever that is durably committed, whatever the outcome reported, all preconditions held in the library it started from and the library is its plan's post-image; a failed run that released gives the old library back, on a failing remote up to the files its own capture missed; a publishable plan is published whenever the remote is reliable and the lease free. |
| WorkedExample.PublicationPossible | src/candidate_controlled_publish.py:492-753 | A concrete library and transaction meet all conditions of the success theorem at once. |
| MissedCapture.CrossedReached | src/candidate_controlled_publish.py:533-619 | A concrete legal run: the capture read of an UPDATE target fails, the journal is sealed and both boundary writes land. |
| MissedCapture.RecoverAfterMissedRead | src/candidate_production_recover.py:186-314 | From there the recovery command on a reliable remote succeeds, releases as recovered, and the library is the old one without that record. |
| Receipts.BuildReceipt | src/candidate_transaction_receipt.py:44-157 | Succeeds only for certified targets with provenance, and exactly then on a reliable remote. |
| Receipts.ReceiptRowsMatch | src/candidate_transaction_receipt.py:128-157 | The sorted rows match the journal's items one to one, whatever their order in the plan. |
| Publisher.CommitLegal | src/candidate_transaction_commit_engine.py:25-83 | The gate opens for every pending journal with its certifying receipt, and COMMITTED is then legal. |
| RecoverCommand.RecoverableIsReady | src/candidate_production_recovery_engine.py:122-150 | In every reachable recoverable state the journal is valid and a rollback ends in the old library without the missed files; strict recovery may start exactly when every missed file has been overwritten, the final check passes exactly when the master index was captured, and deletes succeed exactly when the files captured as absent are there or absence is tolerated. |
| RecoverCommand.ForeignIsMissed | src/candidate_production_recovery_engine.py:122-150 | In every reachable recoverable state the strict check can pass, and the foreign files it can overlook are exactly the missed files that still hold their old bytes. |
| RecoverCommand.UnchangedIsRestored | src/candidate_production_recover.py:129-159 | An untouched library passes the command's final check if and only if the capture missed nothing. |
| RecoverCommand.VerifyRecoveredState | src/candidate_production_recover.py:129-159 | No errors exactly when every journalled path is back at its before state and the master index too. |
| RecoverCommand.AbortPrewrite | src/candidate_production_recover.py:232-252 | Aborts with the library unchanged; on a reliable remote exactly when the lease only has to be released or the capture missed nothing. |
| RecoverCommand.RollBack | src/candidate_production_recover.py:254-272 | The engine inside a session: RECOVERED becomes durable only over the old library without the missed files; exact condition of success. |
| RecoverCommand.FinishRecovery | src/candidate_production_recover.py:253-292 | Releases as recovered only over the rollback's target; on a reliable remote exactly when a pending rollback can finish. |
| RecoverCommand.RunRecovery | src/candidate_production_recover.py:186-314 | Success releases with the reason of its action, an abort over the old library, a rollback over its target, which is the old library if and only if the capture guard holds; on a reliable remote exactly when the journal is durable and classified and that action's condition holds. |
| RecoverCommand.RecoverTolerantly | src/candidate_production_restart_recovery_fixture.py:129-137 | With the tolerant delete a recovery from any reachable state completes on a reliable remote whenever the master index was captured; on any remote it reached its target if and only if every file captured as absent is gone. |
| Reconciliation.CheckEntries | src/candidate_committed_reconciliation.py:93-133 | Every entry proved, none repeated, every item bound to its receipt row. |
| Reconciliation.ProofErrors | src/candidate_committed_reconciliation.py:41-136 | No errors means every durable byte is proved, on any remote; exact on a reliable one. |
| Reconciliation.CommittedIsProved | src/candidate_committed_reconciliation.py:41-136 | In every reachable committed state the proof holds if and only if there is at least one item and the master index was captured. |
| Reconciliation.ReconcileCommittedRelease | src/candidate_committed_reconciliation.py:148-186 | Never writes but for at most one release of its own lease; RELEASED and ALREADY_RELEASED only on the observed identity and receipt digest; exact on a reliable remote. |
| Reconciliation.ReconcileLive | src/candidate_committed_reconciliation.py:290-316 | Tests the journal path's shape, loads journal and receipt; releases a committed transaction on a reliable remote exactly when it has items and its master index was captured. |
| Router.CheckCanonicalEqualsBefore | src/candidate_committed_reconciliation.py:256-287 | Exact on a reliable remote: all entries at their before state, those of existing files with snapshots intact, and the old master index. |
| Router.ClassifyRestart | src/candidate_committed_reconciliation.py:189-253 | Answers the strict route on a reliable remote; COMMITTED is never routed to abort or rollback, even on failing reads. |
| Router.RouteIs | src/candidate_committed_reconciliation.py:189-253 | In every reachable state the route is given by a table of journal state, write flag, emptiness and what the capture missed. |
| Router.RoutesAgree | src/candidate_production_recover.py:76-126 | Each abort, recover or release route is also the command's action, and the store is as the route needs it. |
| Router.RoutesDiffer | src/candidate_production_recover.py:76-126 | Exactly where the command acts and the strict router blocks: an unarmed journal past PREPARED, no items, or a missed file still in the way. |
| Coordinator.EnsureInitialized | src/candidate_production_coordinator.py:259-300 | At most seeds a missing lease, and returns only what was read back. |
| Coordinator.Transition | src/candidate_production_coordinator.py:303-356 | At most the one prepared effect lands, only over the expected lease; success means it landed. |
| Coordinator.Acquire | src/candidate_production_coordinator.py:359-411 | A free lease becomes the caller's, one generation up and unarmed; no other lease is touched; fails on a reliable remote exactly when someone else holds it. |
| Coordinator.MarkCanonicalWriteStarted | src/candidate_production_coordinator.py:470-518 | Arms only the caller's own lease, one generation up, and never disarms. |
| Coordinator.ReleasePrewriteAbort | src/candidate_production_coordinator.py:414-467 | Frees only the caller's unarmed lease. |
| Coordinator.ReleaseCommitted | src/candidate_production_coordinator.py:521-584 | Frees only the caller's armed lease, recording the receipt digest. |
| Coordinator.ReleaseRecovered | src/candidate_production_coordinator.py:587-650 | Frees only the caller's armed lease, recording the recovered journal's digest. |
| LeaseHistory.LegalRunIsHistory | src/candidate_production_coordinator.py:359-650 | The lease contents of every legal run form a history of coordinator transitions. |
| LeaseHistory.GenerationCounts | src/candidate_production_coordinator.py:359-650 | Every applied transition raises the generation by exactly one. |
| LeaseHistory.NeverRepeats | src/candidate_production_coordinator.py:82-84 | No content of the state cell ever comes back. |
| LeaseHistory.EpochKeeps | src/candidate_production_coordinator.py:470-518 | Within an epoch identity is constant and the write flag rises at most once. |
| LeaseHistory.EpochEnds | src/candidate_production_coordinator.py:414-650 | An epoch ends by prewrite abort if and only if the flag was never set, always under its own identity. |
| LeaseHistory.ContentIsVersion | src/candidate_production_coordinator.py:82-107 | Comparing state digests is as strong as comparing versions. |
| LeaseHistory.StaleNeverLands | src/candidate_production_coordinator.py:344-356 | With any number of owners, a transition prepared over an older state never takes effect. |
| LeaseHistory.DriveRefinesGit | src/candidate_production_coordinator.py:130-148 | With a sole writer each drive move is a Git compare-and-swap or invisible. |
| LeaseHistory.DriveRunRefinesGit | src/candidate_production_coordinator.py:130-148 | Every scheduled run of the drive backend is a run of the Git backend on the same cell. |
| LeaseHistory.DriveNeedsSoleWriter | src/candidate_production_coordinator.py:143-148 | Two interleaved drive writers both acquire, in a concrete run. |
| SettlementPlan.ValidateReceiptBinding | src/candidate_settlement_plan.py:52-133 | Accepts exactly the receipts that certify this transaction's items. |
| SettlementPlan.BuiltReceiptBinds | src/candidate_settlement_plan.py:52-133 | The receipt the publisher builds always binds to its own plan. |
| SettlementPlan.SettleItem | src/candidate_settlement_plan.py:181-246 | The settlement row of an item is unique and found whenever it exists. |
| SettlementPlan.BuildSettlementPlan | src/candidate_settlement_plan.py:136-262 | A plan is built if and only if the receipt binds, all curation packages are well-formed and every item has exactly one candidate. |
| SettlementPlan.SettlementOneToOne | src/candidate_settlement_plan.py:177-246 | Items and candidates correspond one to one, and destinations coincide exactly when sources do. |
| SettlementFixture.ValidatePlan | src/candidate_settlement_fixture.py:60-109 | Accepts exactly the unwritten plans with distinct candidates and destinations whose paths have the required prefixes and no `..` segment; paths are in normal form and the format of digests is not modelled. |
| SettlementFixture.BuiltPlanAccepted | src/candidate_settlement_fixture.py:60-109 | A built plan is accepted if and only if its candidates are different files. |
| SettlementFixture.SettleOne | src/candidate_settlement_fixture.py:134-165 | One item moves or removes only over verified bytes; on a healthy folder succeeds exactly when the item can be settled. |
| SettlementFixture.TurnConserves | src/candidate_settlement_fixture.py:134-165 | One item's turn keeps every candidate's bytes and every item's settleability. |
| SettlementFixture.ApplySettlement | src/candidate_settlement_fixture.py:119-195 | At every moment each candidate's bytes are at source or destination; moves plus recovered is the item count; settles on a healthy folder exactly when every item can be settled. |
| SettlementFixture.SettleEventually | src/candidate_settlement_fixture.py:119-195 | Any number of failed runs followed by one healthy run settles everything and counts each item once. |
| Newlines.FixedPoint | src/candidate_semantic_batch.py:61-63 | A text is a fixed point of the normalisation if and only if it has no carriage return. |
| Newlines.NormalizeTwice | src/candidate_semantic_batch.py:61-63 | Normalising is idempotent. |
| SplitControlled.ValidateEnvelope | src/candidate_split_controlled.py:146-211 | Accepts exactly the envelopes with two to eight distinct, hash-bound children of this parent. |
| SplitControlled.PreflightApply | src/candidate_split_controlled.py:283-335 | On a healthy remote passes exactly when the parent is unchanged and no child's place is taken. |
| SplitRuns.WrittenChild | src/candidate_split_controlled.py:348-356 | A written child passes its hash check if and only if it has no carriage return. |
| SplitRuns.ChildrenFirst | src/candidate_split_controlled.py:338-389 | In every run the parent is moved or removed only when all children are present with their hashes, and only if the run found the parent at its place with its own. |
| SplitRuns.ParentKeptIff | src/candidate_split_controlled.py:338-389 | From any folder that has the parent, no sequence of interrupted runs loses it if and only if the split is safe: source and archive differ and, while the source holds the parent, the archive holds nothing else and no child that runs reach writes another text to the source; with a child that fails its own check only the last matters. |
| SplitRuns.SelfArchiveLoses | src/candidate_split_controlled.py:368-386 | A run loses a parent whose place is its archive's. |
| SplitRuns.ForeignArchiveLoses | src/candidate_split_controlled.py:368-386 | A run loses the parent beside a foreign archive: the removal does not look at the archive's hash. |
| SplitRuns.ChildOverParentLoses | src/candidate_split_controlled.py:319-356 | A run writes a child over the only copy of a parent at that child's path. |
| SplitRuns.ChildOverArchiveLoses | src/candidate_split_controlled.py:358-377 | If the archive has a copy too, the move then replaces it by that child. |
| SplitRuns.ChildrenSurviveIff | src/candidate_split_controlled.py:368-386 | Moving or removing the parent leaves all children in place if and only if none has the parent's path. |
| SplitRuns.RerunIff | src/candidate_split_controlled.py:283-335 | From a folder that passes the preflight, all runs leave one that passes it again if and only if no child has a carriage return, source and archive differ, and a child at the source has the parent's hash. |
| SplitRuns.UnfixedChildBlocks | src/candidate_split_controlled.py:319-356 | A run writes the first child with a carriage return, and the preflight fails from then on. |
| SplitControlled.ApplyPrivateSplit | src/candidate_split_controlled.py:338-421 | On a healthy remote applied exactly when the preflight holds, every child still to be written is a fixed point and the parent is not at its archive path, where it is lost; an applied split has all children if and only if the parent had been archived before or no child has the parent's path; every effect on any remote is a step of a run. |
| SplitControlled.ApplyEventually | src/candidate_split_controlled.py:338-421 | Any number of failed runs followed by one healthy run: the parent is in the archive and was never missing, and the children are in place unless one has the parent's path. |

## Left out

- ProtocolSafety.AllOrNothing: a release by recovery promises the old library only under the capture guard, because the code does not compare what the capture saw with the items' actions; without the guard it promises the old library minus the files captured as absent.
- RecoveryEngine.ValidateRecoveryJournal: the code also rejects digests that are not 64 hexadecimal digits; a digest is a value here.
- RecordMutation.ValidateTransaction: the code also rewrites paths to normal form and rejects digests of another length; paths are normal and digests values here.
- SettlementFixture.ValidatePlan: the code also rewrites paths to normal form and rejects digests of another length; paths are normal and digests values here.
- SettlementFixture.ApplySettlement: promises conservation only for candidates that are different files; `SettlementFixture.BuiltPlanAccepted` shows that accepted built plans are of that kind.
- SplitRuns.ParentKeptIff: holds up to newline normalisation, which is what the program compares.
- Two live workers past the write boundary, and writes that land late: left to the external concurrency group.
- The `stage/` copy of the atomic writer before its move, and the `moveto` and `mkdir` calls: one canonical write is one effect.
- Readiness, authorisation, the Stage 12A preflight, source fingerprints and the scan for earlier recovery journals: flat gates, taken as passed; the batch inspection behind the live context is reduced to the master digest.
- Schema and version fields of the durable documents, the 128 KiB bounds on records, journals and receipts, the format of digests and the duplicate-key check of the reconciler's JSON reader.
- The program's name for a snapshot, a digest of its path, which the model replaces by the path.
- Command-line parsing, confirmation phrases, printed reports and the local report files; rclone, Git and temporary files.
- The fixture marker and the state documents of settlement and split; the latter is an effect that touches no modelled file.
- The index renderers' text, header parsing and the candidate header check: arbitrary functions.
- Model calls, source probing, quality gates and manifest merging: no durable behaviour to prove here.
