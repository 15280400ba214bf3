// Rows of the queue database and the words the agent uses about them.
//
// Identifiers, content hashes and printer ids are only ever compared, so natural numbers
// stand for them; printer id 0 is the empty string, which sorts before every other id.
// Instants are whole seconds. SQL NULL is None, except that a NULL resolution is Unresolved.
module Domain {
  datatype Option<+T> = None | Some(value: T)

  type Uid = nat
  type PrinterId = nat
  type RequestId = nat
  type ContentHash = nat
  type Stamp = int
  type Byte = n: nat | n < 256

  datatype Status = Queued | Processing | Transmitted | Failed | Uncertain | Cancelled
  datatype Trigger = Initial | AutomaticRetry | ManualReprint
  datatype ContentMode = Normal | Reprint
  datatype Resolution = Unresolved | ConfirmedPrinted | ReprintRequested

  // The primary key of job_printers: one printer that a job was accepted for.
  datatype Key = Key(job: Uid, printer: PrinterId)

  // What jobRequestHash digests. The hash is taken to be injective, so the digest is kept as
  // the value it was computed from; `printers` is the sorted list.
  datatype JobDigest = JobDigest(jobId: string, template: string, data: string, printers: seq<PrinterId>)

  // What reprintRequestHash digests.
  datatype ReprintDigest = ReprintDigest(printers: seq<PrinterId>, reason: string)

  datatype Job = Job(jobId: string, template: string, digest: JobDigest, owner: string,
                     createdAt: Stamp, expiresAt: Stamp)

  datatype Target = Target(order: nat, acceptedHash: ContentHash, cancelledAt: Option<Stamp>)

  datatype Run = Run(
    sequence: nat,
    uid: Uid,
    key: Key,
    number: nat,
    trigger: Trigger,
    mode: ContentMode,
    previous: Option<Uid>,
    reprintOf: Option<Uid>,
    request: Option<RequestId>,
    contentHash: ContentHash,
    status: Status,
    retryable: bool,
    resolution: Resolution,
    errorCode: Option<string>,
    bytesAccepted: nat,
    createdAt: Stamp,
    startedAt: Option<Stamp>,
    finishedAt: Option<Stamp>,
    transmittedAt: Option<Stamp>,
    resolvedAt: Option<Stamp>)

  // Statuses counted by the one-active index.
  predicate Active(r: Run) {
    r.status == Queued || r.status == Processing
  }

  // A failed run that reconnection will turn into an automatic retry.
  predicate RetryPending(r: Run) {
    r.status == Failed && r.retryable && r.resolution == Unresolved
  }

  // Work the queue still has to do.
  predicate Live(r: Run) {
    Active(r) || RetryPending(r)
  }

  // A result that somebody still has to answer.
  predicate Unanswered(r: Run) {
    r.resolution == Unresolved && (r.status == Uncertain || (r.status == Failed && !r.retryable))
  }

  // A run that counts as having produced the ticket.
  predicate Fulfils(r: Run) {
    r.status == Transmitted || (r.status == Uncertain && r.resolution == ConfirmedPrinted)
  }

  // A run of which some byte may have reached the paper.
  predicate MayHavePrinted(r: Run) {
    r.status == Processing || r.status == Transmitted || r.status == Uncertain
  }

  // The columns that the identity trigger freezes, together with the primary key.
  predicate SameIdentity(a: Run, b: Run) {
    && a.sequence == b.sequence && a.uid == b.uid && a.key == b.key && a.number == b.number
    && a.trigger == b.trigger && a.mode == b.mode && a.previous == b.previous
    && a.reprintOf == b.reprintOf && a.request == b.request && a.contentHash == b.contentHash
    && a.createdAt == b.createdAt
  }

  predicate TransitionAllowed(from: Status, to: Status) {
    || from == to
    || (from == Queued && (to == Processing || to == Cancelled))
    || (from == Processing && (to == Transmitted || to == Failed || to == Uncertain))
  }
}
