/** The records the service keeps: batches, their jobs, and what it sends to its brokers.
    Identifiers (of batches, jobs and billing transactions) are only ever compared, so they are an
    abstract type here; timestamps are integers. */
module Domain {

  datatype Option<+T> = None | Some(value: T)

  type Time = int

  type Id(==,0,!new)

  datatype BatchStatus =
    | BatchPending
    | ValidationErrors
    | PartialAvailable
    | Ready
    | BatchProcessing
    | BatchCompleted
    | Cancelled

  /** `Other` stands for any text outside the six constants: a bulk.result message may carry one. */
  datatype JobStatus =
    | Pending
    | Queued
    | Processing
    | Completed
    | Failed
    | Refunded
    | Other(text: string)

  datatype Batch = Batch(
    id: Id,
    userId: string,
    status: BatchStatus,
    revision: string,
    fileStorageId: string,
    totalRows: nat,
    validRows: int,
    approvedCount: int,
    completedCount: int,
    failedCount: int,
    createdAt: Time,
    completedAt: Option<Time>,
    transactionIds: seq<Id>,
    priority: string,
    timeoutMs: int)

  /** A row of batch_jobs. Absent columns are None; `fields` is the decoded input_data. */
  datatype Job = Job(
    id: Id,
    batchId: Id,
    rowNumber: int,
    status: JobStatus,
    fields: map<string, string>,
    billingTx: Option<Id>,
    outcome: Outcome)

  /** The columns that only a result message writes. */
  datatype Outcome = Outcome(
    buildId: Option<string>,
    barcodeUrls: Option<map<string, string>>,
    errorCode: Option<string>,
    errorMessage: Option<string>)

  const NO_OUTCOME := Outcome(None, None, None, None)

  /** Message of topic bulk.job. */
  datatype JobEvent = JobEvent(
    jobId: Id,
    batchId: Id,
    userId: string,
    rowNumber: int,
    revision: string,
    fields: map<string, string>,
    preApproved: bool,
    transactionId: Option<Id>)

  /** Message of topic bulk.status. */
  datatype StatusEvent = StatusEvent(
    batchId: Id,
    status: BatchStatus,
    total: int,
    completed: int,
    failed: int,
    pending: int,
    percent: real)

  /** One successful call of the billing service's refund operation. */
  datatype Refund = Refund(batchId: Id, ids: seq<Id>)

  /** The statuses a cancellation turns into Refunded. */
  predicate IsOpen(s: JobStatus) {
    s == Pending || s == Queued || s == Processing
  }

  /** The statuses a recount takes as finished; any unknown text counts as unfinished. */
  predicate IsClosed(s: JobStatus) {
    s == Completed || s == Refunded || s == Failed
  }
}
