/** Life cycle of a batch record: what an upload, a confirmation, a cancellation and a finished
    job do to its status and counters. */
module BatchManager {
  import opened Domain
  import opened Backend

  // ----- the status message -----------------------------------------------------------------

  /** The progress message built from a batch record. */
  function StatusOf(b: Batch): StatusEvent {
    var left := b.totalRows - b.completedCount - b.failedCount;
    StatusEvent(b.id, b.status, b.totalRows, b.completedCount, b.failedCount,
                if left < 0 then 0 else left,
                if b.totalRows > 0 then b.completedCount as real * 100.0 / b.totalRows as real else 0.0)
  }

  /** The counters a record may hold: failed jobs are counted among the completed ones. */
  predicate CountersInOrder(b: Batch) {
    0 <= b.failedCount <= b.completedCount <= b.totalRows
  }

  predicate SoundProgress(e: StatusEvent) {
    && 0.0 <= e.percent <= 100.0
    && 0 <= e.failed <= e.completed <= e.total
    && 0 <= e.pending <= e.total - e.completed
    && (e.pending == e.total - e.completed <==> e.failed == 0 || e.completed == e.total)
  }

  /** A record with counters in order publishes a percentage between 0 and 100; the pending figure
      never overstates what is left, and is exact just when nothing failed or nothing is left. */
  lemma ProgressIsSound(b: Batch)
    requires CountersInOrder(b)
    ensures SoundProgress(StatusOf(b))
  {
    if b.totalRows > 0 {
      var c, t := b.completedCount as real, b.totalRows as real;
      assert 0.0 <= c * 100.0 <= t * 100.0;
      DivisionBound(c * 100.0, t);
    }
  }

  lemma DivisionBound(x: real, t: real)
    requires 0.0 <= x <= t * 100.0 && 0.0 < t
    ensures 0.0 <= x / t <= 100.0
  {
    var q := x / t;
    assert q * t == x;
    NonNegativeFactor(q, t);
    NonNegativeFactor(100.0 - q, t);
  }

  lemma NonNegativeFactor(a: real, t: real)
    requires a * t >= 0.0 && t > 0.0
    ensures a >= 0.0
  {
  }

  method PublishStatus(w: Services, b: Batch)
    modifies w`statusEvents
    ensures w.statusEvents == old(w.statusEvents) + [StatusOf(b)]
  {
    var total, completed, failed := b.totalRows, b.completedCount, b.failedCount;
    var pending := total - completed - failed;
    if pending < 0 {
      pending := 0;
    }
    var percent := 0.0;
    if total > 0 {
      percent := completed as real * 100.0 / total as real;
    }
    w.statusEvents := w.statusEvents + [StatusEvent(b.id, b.status, total, completed, failed, pending, percent)];
  }

  function Announced(s: State, b: Batch): State {
    s.(statusEvents := s.statusEvents + [StatusOf(b)])
  }

  // ----- recount after a job changed --------------------------------------------------------

  datatype RecountIO = RecountIO(listOk: bool, getOk: bool, updateOk: bool) {
    predicate Reliable() { listOk && getOk && updateOk }
  }

  /** The record of a batch as its job rows determine it. Completed counts every finished job, the
      failed ones included, and the batch is finished when no job is left over. */
  function Tally(b: Batch, jobs: map<Id, Job>, now: Time): Batch {
    var closed := Select(jobs, b.id, IsClosed);
    var done := closed == JobsOf(jobs, b.id);
    b.(completedCount := |closed|,
       failedCount := |Select(jobs, b.id, IsFailed)|,
       status := if done then BatchCompleted else BatchProcessing,
       completedAt := if done then Some(now) else b.completedAt)
  }

  function Recounted(s: State, b: Id, now: Time, io: RecountIO): State
  {
    if io.Reliable() && b in s.batches && JobsOf(s.jobs, b) != {} then
      var tallied := Tally(s.batches[b], s.jobs, now);
      Announced(PutBatch(s, tallied), tallied)
    else s
  }

  lemma RecountedValid(s: State, b: Id, now: Time, io: RecountIO)
    requires s.Valid()
    ensures Recounted(s, b, now, io).Valid()
  {
  }

  method OnJobStatusChange(w: Services, b: Id, now: Time, io: RecountIO) returns (ok: bool)
    requires w.View().Valid()
    modifies w
    ensures w.View().Valid()
    ensures w.View() == Recounted(old(w.View()), b, now, io)
    ensures ok <==> io.listOk && (JobsOf(w.jobs, b) == {} || (io.getOk && b in w.batches && io.updateOk))
  {
    RecountedValid(w.View(), b, now, io);
    if !io.listOk {
      return false;
    }
    var jobs := w.ListJobs(b);
    ListingLength(w.jobs, b, jobs);
    if |jobs| == 0 {
      return true;
    }
    var pending, completed, failed := CountJobs(jobs);
    CountListing(w.jobs, b, jobs, IsClosed);
    CountListing(w.jobs, b, jobs, IsFailed);
    ClosedIsAll(w.jobs, b);
    var found := w.GetBatch(b, io.getOk);
    if found.None? {
      return false;
    }
    var record := found.value.(completedCount := completed, failedCount := failed);
    if pending == 0 {
      record := record.(status := BatchCompleted, completedAt := Some(now));
    } else {
      record := record.(status := BatchProcessing);
    }
    assert record == Tally(found.value, w.jobs, now);
    ok := w.UpdateBatch(record, io.updateOk);
    if ok {
      PublishStatus(w, record);
    }
  }

  /** The counting loop of OnJobStatusChange. */
  method CountJobs(jobs: seq<Job>) returns (pending: nat, completed: nat, failed: nat)
    ensures completed == CountWhere(jobs, IsClosed) && failed == CountWhere(jobs, IsFailed)
    ensures pending + completed == |jobs|
  {
    pending, completed, failed := 0, 0, 0;
    for i := 0 to |jobs|
      invariant pending + completed == i
      invariant completed == CountWhere(jobs[..i], IsClosed)
      invariant failed == CountWhere(jobs[..i], IsFailed)
    {
      assert jobs[..i + 1][..i] == jobs[..i];
      match jobs[i].status {
        case Pending => pending := pending + 1;
        case Queued => pending := pending + 1;
        case Processing => pending := pending + 1;
        case Completed => completed := completed + 1;
        case Refunded => completed := completed + 1;
        case Failed =>
          failed := failed + 1;
          completed := completed + 1;
        case _ => pending := pending + 1;
      }
    }
    assert jobs[..|jobs|] == jobs;
  }

  lemma ClosedIsAll(jobs: map<Id, Job>, b: Id)
    ensures |Select(jobs, b, IsClosed)| <= |JobsOf(jobs, b)|
    ensures |Select(jobs, b, IsClosed)| == |JobsOf(jobs, b)| <==> Select(jobs, b, IsClosed) == JobsOf(jobs, b)
  {
    SubsetSize(Select(jobs, b, IsClosed), JobsOf(jobs, b));
  }

  lemma SubsetSize(small: set<Id>, large: set<Id>)
    requires small <= large
    ensures |small| <= |large| && (|small| == |large| <==> small == large)
  {
    assert large == small + (large - small);
    assert |large| == |small| + |large - small|;
  }

  // ----- after an upload --------------------------------------------------------------------

  /** `quote` is the allowance billing answered, or None when it is not configured or did not answer. */
  datatype FinaliseIO = FinaliseIO(getOk: bool, updateOk: bool, quote: Option<int>)

  function FinalisedRecord(b: Batch, validRows: int, invalidRows: int, quote: Option<int>): Batch {
    var counted := b.(validRows := validRows);
    if invalidRows > 0 then counted.(status := ValidationErrors)
    else if quote.Some? && quote.value < validRows then
      counted.(status := PartialAvailable, approvedCount := quote.value)
    else counted.(status := Ready)
  }

  function Finalised(s: State, b: Id, validRows: int, invalidRows: int, io: FinaliseIO): State
  {
    if io.getOk && io.updateOk && b in s.batches then
      var record := FinalisedRecord(s.batches[b], validRows, invalidRows, io.quote);
      Announced(PutBatch(s, record), record)
    else s
  }

  lemma FinalisedValid(s: State, b: Id, validRows: int, invalidRows: int, io: FinaliseIO)
    requires s.Valid()
    ensures Finalised(s, b, validRows, invalidRows, io).Valid()
  {
  }

  method FinalizeAfterUpload(w: Services, b: Id, validRows: int, invalidRows: int, io: FinaliseIO) returns (ok: bool)
    modifies w
    ensures old(w.View().Valid()) ==> w.View().Valid()
    ensures w.View() == Finalised(old(w.View()), b, validRows, invalidRows, io)
    ensures ok <==> io.getOk && io.updateOk && b in w.batches
  {
    if w.View().Valid() {
      FinalisedValid(w.View(), b, validRows, invalidRows, io);
    }
    var found := w.GetBatch(b, io.getOk);
    if found.None? {
      return false;
    }
    var record := found.value.(validRows := validRows);
    if invalidRows > 0 {
      record := record.(status := ValidationErrors);
      ok := w.UpdateBatch(record, io.updateOk);
      if ok {
        PublishStatus(w, record);
      }
      return;
    }
    if io.quote.Some? && io.quote.value < validRows {
      record := record.(status := PartialAvailable, approvedCount := io.quote.value);
      ok := w.UpdateBatch(record, io.updateOk);
      if ok {
        PublishStatus(w, record);
      }
      return;
    }
    record := record.(status := Ready);
    ok := w.UpdateBatch(record, io.updateOk);
    if ok {
      PublishStatus(w, record);
    }
  }

  // ----- processing -------------------------------------------------------------------------

  datatype ProcessIO = ProcessIO(getOk: bool, updateOk: bool)

  function Processed(s: State, b: Id, io: ProcessIO): State
  {
    if io.getOk && io.updateOk && b in s.batches then
      var record := s.batches[b].(status := BatchProcessing);
      Announced(PutBatch(s, record), record)
    else s
  }

  lemma ProcessedValid(s: State, b: Id, io: ProcessIO)
    requires s.Valid()
    ensures Processed(s, b, io).Valid()
  {
  }

  method SetProcessing(w: Services, b: Id, io: ProcessIO) returns (ok: bool)
    modifies w
    ensures old(w.View().Valid()) ==> w.View().Valid()
    ensures w.View() == Processed(old(w.View()), b, io)
    ensures ok <==> io.getOk && io.updateOk && b in w.batches
  {
    if w.View().Valid() {
      ProcessedValid(w.View(), b, io);
    }
    var found := w.GetBatch(b, io.getOk);
    if found.None? {
      return false;
    }
    var record := found.value.(status := BatchProcessing);
    ok := w.UpdateBatch(record, io.updateOk);
    if ok {
      PublishStatus(w, record);
    }
  }

  // ----- cancellation -----------------------------------------------------------------------

  /** `billing` is the answer of the refund call, None when billing is not configured. */
  datatype CancelIO = CancelIO(
    getOk: bool, updateOk: bool, billing: Option<bool>,
    listOk: bool, markOk: Id -> bool, clearOk: bool, countOk: bool)
  {
    ghost predicate Reliable() {
      getOk && updateOk && listOk && clearOk && countOk && forall id :: markOk(id)
    }
  }

  /** The open jobs of batch b whose row can be updated. */
  function Refundable(jobs: map<Id, Job>, b: Id, markOk: Id -> bool): set<Id> {
    set id | id in Select(jobs, b, IsOpen) && markOk(id)
  }

  function WithStatus(jobs: map<Id, Job>, ids: set<Id>, status: JobStatus): map<Id, Job> {
    map id | id in jobs :: if id in ids then jobs[id].(status := status) else jobs[id]
  }

  function CancelRefund(s: State, record: Batch, io: CancelIO): State
  {
    var paid := s.(refunds := s.refunds + [Refund(record.id, record.transactionIds)],
                   jobs := if io.listOk then WithStatus(s.jobs, Refundable(s.jobs, record.id, io.markOk), Refunded) else s.jobs);
    if io.clearOk then PutBatch(paid, record.(transactionIds := [])) else paid
  }

  function CancelledState(s: State, b: Id, io: CancelIO): State
  {
    if io.getOk && io.updateOk && b in s.batches then
      var record := s.batches[b].(status := Cancelled);
      var marked := Announced(PutBatch(s, record), record);
      if io.billing == Some(true) && record.transactionIds != [] then CancelRefund(marked, record, io) else marked
    else s
  }

  lemma CancelledStateValid(s: State, b: Id, io: CancelIO)
    requires s.Valid()
    ensures CancelledState(s, b, io).Valid()
  {
  }

  /** Marks a batch cancelled, then returns its reserved transactions to billing. The result counts
      the refunded jobs of the batch, whenever they became so. */
  method SetCancelled(w: Services, b: Id, io: CancelIO) returns (refunded: nat, ok: bool)
    requires w.View().Valid()
    modifies w
    ensures w.View().Valid()
    ensures w.View() == CancelledState(old(w.View()), b, io)
    ensures ok <==> io.getOk && io.updateOk && b in w.batches
    ensures refunded == if ok && io.countOk then |Select(w.jobs, b, IsRefunded)| else 0
  {
    CancelledStateValid(w.View(), b, io);
    refunded, ok := 0, false;
    var found := w.GetBatch(b, io.getOk);
    if found.None? {
      return;
    }
    var record := found.value.(status := Cancelled);
    ok := w.UpdateBatch(record, io.updateOk);
    if !ok {
      return;
    }
    PublishStatus(w, record);
    if io.billing.Some? && |record.transactionIds| > 0 {
      if io.billing.value {
        RefundReserved(w, record, io);
      }
    }
    if io.countOk {
      refunded := CountRefunded(w, b);
    }
  }

  /** What SetCancelled does once billing has taken the transactions back. */
  method RefundReserved(w: Services, record: Batch, io: CancelIO)
    requires w.View().Valid()
    modifies w
    ensures w.View() == CancelRefund(old(w.View()), record, io)
  {
    w.refunds := w.refunds + [Refund(record.id, record.transactionIds)];
    if io.listOk {
      MarkRefunded(w, record.id, io.markOk);
    }
    var _ := w.UpdateBatch(record.(transactionIds := []), io.clearOk);
  }

  function CanMark(markOk: Id -> bool): Job -> bool {
    (j: Job) => IsOpen(j.status) && markOk(j.id)
  }

  lemma WithStatusNone(rows: map<Id, Job>, status: JobStatus)
    ensures WithStatus(rows, {}, status) == rows
  {
  }

  lemma WithStatusOneMore(rows: map<Id, Job>, ids: set<Id>, id: Id, status: JobStatus)
    ensures id in rows ==>
              var before := WithStatus(rows, ids, status);
              WithStatus(rows, ids + {id}, status) == before[id := before[id].(status := status)]
  {
  }

  /** The marking loop of SetCancelled. */
  method MarkRefunded(w: Services, b: Id, markOk: Id -> bool)
    requires w.View().Valid()
    modifies w`jobs
    ensures w.jobs == WithStatus(old(w.jobs), Refundable(old(w.jobs), b, markOk), Refunded)
  {
    ghost var rows := w.jobs;
    var jobs := w.ListJobs(b);
    WithStatusNone(rows, Refunded);
    for i := 0 to |jobs|
      invariant w.jobs == WithStatus(rows, Picked(jobs[..i], CanMark(markOk)), Refunded)
      modifies w`jobs
    {
      WithStatusOneMore(rows, Picked(jobs[..i], CanMark(markOk)), jobs[i].id, Refunded);
      PickedStep(jobs, i, CanMark(markOk));
      if IsOpen(jobs[i].status) {
        var _ := w.UpdateStatus(jobs[i].id, Refunded, markOk(jobs[i].id));
      }
    }
    assert jobs[..|jobs|] == jobs;
    PickedListing(rows, b, jobs, CanMark(markOk), Refundable(rows, b, markOk));
  }

  /** The counting loop of SetCancelled. */
  method CountRefunded(w: Services, b: Id) returns (refunded: nat)
    requires w.View().Valid()
    ensures refunded == |Select(w.jobs, b, IsRefunded)|
  {
    refunded := 0;
    var jobs := w.ListJobs(b);
    for i := 0 to |jobs|
      invariant refunded == CountWhere(jobs[..i], IsRefunded)
    {
      assert jobs[..i + 1][..i] == jobs[..i];
      if jobs[i].status == Refunded {
        refunded := refunded + 1;
      }
    }
    assert jobs[..|jobs|] == jobs;
    CountListing(w.jobs, b, jobs, IsRefunded);
  }
}
