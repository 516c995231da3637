/** The terminal journals: aborted before the first write, recovered, committed. */
module Journals {
  import opened Model

  function AbortedFrom(j: Journal): Journal {
    j.(state := AbortedPrewrite, safeAbortVerified := true, releaseAllowed := true, writePerformed := false)
  }

  function RecoveredFrom(j: Journal): Journal {
    j.(state := Recovered, rollbackVerified := true, restartVerified := true, releaseAllowed := true,
    settlementEligible := false, writePerformed := true)
  }

  function CommittedFrom(j: Journal, receipt: Receipt): Journal {
    j.(state := Committed, receiptSha := Some(OfReceipt(receipt)), settlementEligible := true,
    releaseAllowed := true, safeAbortVerified := false, writePerformed := true)
  }

  predicate IdentityOk(id: Identity) {
    id.transaction != "" && id.batch != "" && id.owner != "" && id.journalPath != ""
  }

  predicate CommitReady(j: Journal, receipt: Receipt) {
    && (j.state.Verifying? || j.state.PendingReceipt?)
    && j.writePerformed && j.snapshotsVerified && j.preconditionsVerified
    && IdentityOk(j.id)
    && receipt.verified && receipt.settlementEligible && receipt.verificationOnly
    && receipt.transaction == j.id.transaction
  }

  /** `build_committed_journal`, the gate into the COMMITTED state. */
  function BuildCommittedJournal(j: Journal, receipt: Receipt): Option<Journal> {
    if CommitReady(j, receipt) then Some(CommittedFrom(j, receipt)) else None
  }
}
