/** What the operations do to records, rows and topics, field by field. */
module FieldEffects {
  import opened Domain
  import opened Backend
  import opened BatchManager
  import ResultHandler
  import BatchHandlers

  // ----- status messages --------------------------------------------------------------------

  /** A status message names the batch and its status, and carries its counters: the exact percentage of
      completed rows, and the rows that are neither completed nor failed, at least 0. */
  lemma MessageTells(b: Batch)
    ensures var e := StatusOf(b);
            && e.batchId == b.id && e.status == b.status
            && e.total == b.totalRows && e.completed == b.completedCount && e.failed == b.failedCount
            && e.pending >= 0 && e.pending >= b.totalRows - b.completedCount - b.failedCount
            && (e.pending == 0 || e.pending == b.totalRows - b.completedCount - b.failedCount)
            && (b.totalRows > 0 ==> e.percent * b.totalRows as real == 100.0 * b.completedCount as real)
            && (b.totalRows == 0 ==> e.percent == 0.0)
  {
    if b.totalRows > 0 {
      Quotient(b.completedCount as real * 100.0, b.totalRows as real);
    }
  }

  lemma Quotient(x: real, t: real)
    requires t != 0.0
    ensures x / t * t == x
  {
  }

  /** The last message is about a record with these values, and is the only new one. */
  ghost predicate Announces(s: State, t: State, b: Id, status: BatchStatus) {
    && b in s.batches && |t.statusEvents| == |s.statusEvents| + 1 && t.statusEvents[..|s.statusEvents|] == s.statusEvents
    && var e := t.statusEvents[|s.statusEvents|];
       && e.batchId == b && e.status == status && e.total == s.batches[b].totalRows
       && e.completed == s.batches[b].completedCount && e.failed == s.batches[b].failedCount
  }

  /** Other batches keep their records, and b its counters and times. */
  ghost predicate OnlyStatus(s: State, t: State, b: Id)
    requires b in s.batches
  {
    && t.batches.Keys == s.batches.Keys && (forall c :: c in s.batches && c != b ==> t.batches[c] == s.batches[c])
    && t.batches[b].totalRows == s.batches[b].totalRows && t.batches[b].completedCount == s.batches[b].completedCount
    && t.batches[b].failedCount == s.batches[b].failedCount && t.batches[b].completedAt == s.batches[b].completedAt
    && t.batches[b].revision == s.batches[b].revision && t.batches[b].fileStorageId == s.batches[b].fileStorageId
  }

  // ----- finalisation and processing --------------------------------------------------------

  /** A finalisation ends in ValidationErrors if a row was rejected, else in PartialAvailable, with the
      quote as allowance, if billing quoted less than the valid rows, else in Ready. */
  lemma FinalisationTells(s: State, b: Id, validRows: int, invalidRows: int, io: FinaliseIO)
    requires s.Keyed() && b in s.batches && io.getOk && io.updateOk
    ensures var t := Finalised(s, b, validRows, invalidRows, io);
            && OnlyStatus(s, t, b) && t.batches[b].validRows == validRows
            && t.batches[b].transactionIds == s.batches[b].transactionIds
            && t.jobs == s.jobs && t.refunds == s.refunds && t.jobEvents == s.jobEvents
            && Announces(s, t, b, t.batches[b].status)
    ensures var r := Finalised(s, b, validRows, invalidRows, io).batches[b];
            && (r.status == ValidationErrors <==> invalidRows > 0)
            && (r.status == PartialAvailable <==> invalidRows <= 0 && io.quote.Some? && io.quote.value < validRows)
            && (r.status == Ready <==> invalidRows <= 0 && (io.quote.None? || io.quote.value >= validRows))
            && r.approvedCount == (if r.status == PartialAvailable then io.quote.value else s.batches[b].approvedCount)
  {
  }

  lemma FinalisationSkips(s: State, b: Id, validRows: int, invalidRows: int, io: FinaliseIO)
    requires !io.getOk || !io.updateOk || b !in s.batches
    ensures Finalised(s, b, validRows, invalidRows, io) == s
  {
  }

  lemma ProcessingTells(s: State, b: Id, io: ProcessIO)
    requires s.Keyed() && b in s.batches
    ensures var t := Processed(s, b, io);
            if io.getOk && io.updateOk then
              && OnlyStatus(s, t, b) && t.batches[b].status == BatchProcessing && Announces(s, t, b, BatchProcessing)
              && t.batches[b].transactionIds == s.batches[b].transactionIds
              && t.jobs == s.jobs && t.refunds == s.refunds && t.jobEvents == s.jobEvents
            else t == s
  {
  }

  // ----- cancellation -----------------------------------------------------------------------

  /** Any batch that can be read and written is marked cancelled, with or without transactions, and that
      is announced. Without transactions, or when billing takes nothing back, that is all. */
  lemma CancellationMarks(s: State, b: Id, io: CancelIO)
    requires s.Keyed() && b in s.batches && io.getOk && io.updateOk
    ensures var t := CancelledState(s, b, io);
            && OnlyStatus(s, t, b) && t.batches[b].status == Cancelled && Announces(s, t, b, Cancelled)
            && t.jobEvents == s.jobEvents
            && (s.batches[b].transactionIds == [] || io.billing != Some(true) ==>
                  t.jobs == s.jobs && t.refunds == s.refunds && t.batches[b].transactionIds == s.batches[b].transactionIds)
  {
  }

  /** When billing takes the transactions back, exactly the pending, queued and processing jobs of the
      batch whose update succeeds become refunded, and the record is cleared if it can be. */
  lemma CancellationRefunds(s: State, b: Id, io: CancelIO)
    requires s.Keyed() && b in s.batches && io.getOk && io.updateOk && io.billing == Some(true) && s.batches[b].transactionIds != []
    ensures var t := CancelledState(s, b, io);
            && t.refunds == s.refunds + [Refund(b, s.batches[b].transactionIds)]
            && t.batches[b].transactionIds == (if io.clearOk then [] else s.batches[b].transactionIds)
            && t.jobs.Keys == s.jobs.Keys
    ensures forall id :: id in s.jobs ==>
              CancelledState(s, b, io).jobs[id]
              == if s.jobs[id].batchId == b && io.listOk && io.markOk(id)
                    && (s.jobs[id].status == Pending || s.jobs[id].status == Queued || s.jobs[id].status == Processing)
                 then s.jobs[id].(status := Refunded) else s.jobs[id]
  {
  }

  lemma CancellationSkips(s: State, b: Id, io: CancelIO)
    requires !io.getOk || !io.updateOk || b !in s.batches
    ensures CancelledState(s, b, io) == s
  {
  }

  // ----- results ----------------------------------------------------------------------------

  /** A result message overwrites the result columns of its job and leaves the others, and every other
      job, alone. */
  lemma ResultTells(s: State, ev: ResultHandler.ResultEvent, now: Time, io: ResultHandler.HandlerIO, isUuid: Id -> bool)
    requires ev.jobId in s.jobs
    ensures var rows, was := ResultHandler.Handled(s, ev, now, io, isUuid).jobs, s.jobs[ev.jobId];
            && rows.Keys == s.jobs.Keys && (forall id :: id in s.jobs && id != ev.jobId ==> rows[id] == s.jobs[id])
            && (!io.jobOk ==> rows == s.jobs)
            && (io.jobOk ==>
                  && rows[ev.jobId].status == ev.status
                  && rows[ev.jobId].billingTx == (if ev.billingTx.Some? && isUuid(ev.billingTx.value) then ev.billingTx else None)
                  && rows[ev.jobId].outcome.buildId == (if ev.buildId == "" then None else Some(ev.buildId))
                  && rows[ev.jobId].outcome.barcodeUrls == ev.barcodeUrls
                  && rows[ev.jobId].outcome.errorCode == None && rows[ev.jobId].outcome.errorMessage == None
                  && rows[ev.jobId] == was.(status := rows[ev.jobId].status, billingTx := rows[ev.jobId].billingTx,
                                            outcome := rows[ev.jobId].outcome))
  {
  }

  // ----- restart ----------------------------------------------------------------------------

  /** A restart queues the failed jobs of the batch whose publication and update succeed, no other job,
      and marks the batch as processing if that can be written. */
  lemma RestartTells(s: State, b: Id, jobs: seq<Job>, io: BatchHandlers.RestartIO)
    requires s.Keyed() && b in s.batches && io.getOk && io.listOk
    ensures var t := BatchHandlers.RestartedState(s, b, jobs, io);
            && OnlyStatus(s, t, b)
            && t.batches[b].status == (if io.process.getOk && io.process.updateOk then BatchProcessing else s.batches[b].status)
            && t.refunds == s.refunds && t.jobs.Keys == s.jobs.Keys
    ensures forall id :: id in s.jobs ==>
              BatchHandlers.RestartedState(s, b, jobs, io).jobs[id]
              == if s.jobs[id].batchId == b && s.jobs[id].status == Failed && io.publishOk(id) && io.queueOk(id)
                 then s.jobs[id].(status := Queued) else s.jobs[id]
  {
  }

  /** A message with the identity of a job and nothing else. */
  function Bare(j: Job): (e: JobEvent)
    ensures e.jobId == j.id && e.batchId == j.batchId && e.rowNumber == j.rowNumber
    ensures e.userId == "" && e.revision == "" && e.fields == map[] && e.transactionId == None && !e.preApproved
  {
    JobEvent(j.id, j.batchId, "", j.rowNumber, "", map[], false, None)
  }

  /** It publishes one bare message for each failed job of the listing whose publication succeeds. */
  lemma {:induction false} RestartPublishes(jobs: seq<Job>, io: BatchHandlers.RestartIO, k: nat)
    requires k < |jobs|
    ensures jobs[k].status == Failed && io.publishOk(jobs[k].id) ==> Bare(jobs[k]) in BatchHandlers.RestartMessages(jobs, io)
    ensures forall e :: e in BatchHandlers.RestartMessages(jobs, io) ==>
              exists i :: 0 <= i < |jobs| && e == Bare(jobs[i]) && jobs[i].status == Failed && io.publishOk(jobs[i].id)
    ensures |BatchHandlers.RestartMessages(jobs, io)| == PickedCount(jobs, (j: Job) => j.status == Failed && io.publishOk(j.id))
  {
    var n := |jobs| - 1;
    var front := jobs[..n];
    if n > 0 {
      RestartPublishes(front, io, if k < n then k else 0);
      forall e | e in BatchHandlers.RestartMessages(front, io)
        ensures exists i :: 0 <= i < |jobs| && e == Bare(jobs[i]) && jobs[i].status == Failed && io.publishOk(jobs[i].id)
      {
        var i :| 0 <= i < |front| && e == Bare(front[i]) && front[i].status == Failed && io.publishOk(front[i].id);
        assert jobs[i] == front[i];
      }
    } else {
      assert BatchHandlers.RestartMessages(front, io) == [];
    }
    assert jobs[n].status == Failed && io.publishOk(jobs[n].id) ==>
      BatchHandlers.RestartMessages(jobs, io) == BatchHandlers.RestartMessages(front, io) + [BatchHandlers.RestartMessage(jobs[n])];
  }

  // ----- settings ---------------------------------------------------------------------------

  /** The answered record has the priority and the timeout that were supplied, the earlier ones where
      they were not, and everything else as before. */
  lemma SettingsTell(record: Batch, priority: string, timeout: int)
    ensures var r := BatchHandlers.WithSettings(record, priority, timeout);
            && r.priority == (if priority == "" then record.priority else priority)
            && r.timeoutMs == (if timeout <= 0 then record.timeoutMs else timeout)
            && r.(priority := "", timeoutMs := 0) == record.(priority := "", timeoutMs := 0)
  {
  }
}
