/** The operator's requests on a batch: how many jobs a confirmation covers, the refund report of a
    cancellation, the restart of failed jobs, and the priority and timeout settings. */
module BatchHandlers {
  import opened Domain
  import Flags
  import Sequences
  import opened Backend
  import opened BatchManager
  import opened Confirm
  import ConfirmEffects

  // ----- confirm ----------------------------------------------------------------------------

  datatype Action = GenerateAll | GeneratePartial(count: Option<int>) | GenerateValid | CancelRequest

  /** The count a confirmation asks for; None is the answer "unsupported action". A table that
      cannot be read counts as empty. */
  method ConfirmCount(w: Services, b: Id, action: Action, up: bool) returns (count: Option<int>)
    requires w.View().Valid()
    ensures count == None <==> action == CancelRequest || action == GeneratePartial(None)
    ensures action == GenerateAll ==> count == Some(if up then |JobsOf(w.jobs, b)| else 0)
    ensures action.GeneratePartial? ==> count == action.count
    ensures action == GenerateValid ==> count == Some(if up && b in w.batches then w.batches[b].validRows else 0)
  {
    count := None;
    match action {
      case GenerateAll =>
        count := Some(0);
        if up {
          var jobs := w.ListJobs(b);
          ListingLength(w.jobs, b, jobs);
          count := Some(|jobs|);
        }
      case GeneratePartial(requested) =>
        if requested.Some? {
          count := requested;
        }
      case GenerateValid =>
        count := Some(0);
        var record := w.GetBatch(b, up);
        if record.Some? {
          count := Some(record.value.validRows);
        }
      case CancelRequest =>
    }
  }

  ghost predicate HasMessage(events: seq<JobEvent>, id: Id) {
    exists at :: 0 <= at < |events| && events[at].jobId == id
  }

  /** A job of the listing has a message just when it is covered and its publication succeeded. */
  lemma MessageIff(s: State, b: Id, count: int, jobs: seq<Job>, env: ConfirmEnv, k: nat)
    requires IsListing(s.jobs, b, jobs) && k < |jobs|
    requires ConfirmedResult(s, b, count, jobs, env).Confirmed?
    ensures HasMessage(ConfirmEffects.NewEvents(s, b, count, jobs, env), jobs[k].id) <==> k < Covered(count, |jobs|) && env.publishOk(k)
  {
    var e, n := ConfirmEffects.NewEvents(s, b, count, jobs, env), Covered(count, |jobs|);
    ConfirmEffects.MessageAt(jobs, n, PlanFor(IdsSaved(s, b, env), b, count, env), env, k);
    if HasMessage(e, jobs[k].id) {
      var at :| 0 <= at < |e| && e[at].jobId == jobs[k].id;
      var origin := ConfirmEffects.EventOf(s, b, count, jobs, env, at);
      assert origin == k;
    }
    if k < n && env.publishOk(k) {
      assert e[Flags.CountTrue(ConfirmEffects.PublishedAt(env), k)].jobId == jobs[k].id;
    }
  }

  /** "Generate valid" asks for the stored number of valid rows, and rejected rows have jobs too. For
      any such number and any notion of a valid job: with a working producer exactly the valid jobs are
      published if and only if the listing puts them first and the number covers just them. */
  lemma GenerateValidIff(s: State, b: Id, count: int, jobs: seq<Job>, env: ConfirmEnv, valid: nat -> bool)
    requires IsListing(s.jobs, b, jobs)
    requires ConfirmedResult(s, b, count, jobs, env).Confirmed?
    requires forall k: nat :: k < |jobs| ==> env.publishOk(k)
    ensures PublishesExactly(s, b, count, jobs, env, valid)
            <==> Flags.YesThenNo(valid, |jobs|) && Flags.CountTrue(valid, |jobs|) == Covered(count, |jobs|)
  {
    var n := Covered(count, |jobs|);
    forall k: nat | k < |jobs|
      ensures HasMessage(ConfirmEffects.NewEvents(s, b, count, jobs, env), jobs[k].id) <==> k < n
    {
      MessageIff(s, b, count, jobs, env, k);
    }
    Flags.PrefixIff(valid, |jobs|);
    if PublishesExactly(s, b, count, jobs, env, valid) {
      forall k: nat | k < |jobs| ensures valid(k) <==> k < n {
        assert HasMessage(ConfirmEffects.NewEvents(s, b, count, jobs, env), jobs[k].id) <==> k < n;
      }
      Flags.CountPrefix(valid, |jobs|, n);
    }
  }

  /** A rejected row that is published although the listing puts the valid one first: the stored count is
      2, since a third row is valid but its job could not be created. */
  lemma RejectedRowPublished(s: State, b: Id, jobs: seq<Job>, env: ConfirmEnv)
    requires IsListing(s.jobs, b, jobs) && |jobs| == 2
    requires ConfirmedResult(s, b, 2, jobs, env).Confirmed? && env.publishOk(0) && env.publishOk(1)
    ensures Flags.YesThenNo((k: nat) => k == 0, 2) && HasMessage(ConfirmEffects.NewEvents(s, b, 2, jobs, env), jobs[1].id)
  {
    MessageIff(s, b, 2, jobs, env, 1);
  }

  /** The jobs of the listing that get a message are those at the valid positions. */
  ghost predicate PublishesExactly(s: State, b: Id, count: int, jobs: seq<Job>, env: ConfirmEnv, valid: nat -> bool)
    requires ConfirmedResult(s, b, count, jobs, env).Confirmed?
  {
    forall k: nat :: k < |jobs| ==> (HasMessage(ConfirmEffects.NewEvents(s, b, count, jobs, env), jobs[k].id) <==> valid(k))
  }

  // ----- cancel -----------------------------------------------------------------------------

  /** The refund report: open jobs and reserved transactions as they were before, refunded jobs after. */
  datatype CancelReport = CancelReport(pending: nat, refunded: nat, transactionIds: seq<Id>)

  method HandleCancel(w: Services, b: Id, readOk: bool, listOk: bool, io: CancelIO) returns (report: Option<CancelReport>)
    requires w.View().Valid()
    modifies w
    ensures w.View().Valid()
    ensures w.View() == CancelledState(old(w.View()), b, io)
    ensures report.Some? <==> io.getOk && io.updateOk && b in w.batches
    ensures report.Some? ==>
      && report.value.pending == (if listOk then |Select(old(w.jobs), b, IsOpen)| else 0)
      && report.value.refunded == (if io.countOk then |Select(w.jobs, b, IsRefunded)| else 0)
      && report.value.transactionIds == (if readOk then old(w.batches)[b].transactionIds else [])
  {
    var pending, txIds := 0, [];
    var record := w.GetBatch(b, readOk);
    if record.Some? {
      txIds := record.value.transactionIds;
    }
    if listOk {
      pending := CountOpen(w, b);
    }
    var refunded, ok := SetCancelled(w, b, io);
    report := if ok then Some(CancelReport(pending, refunded, txIds)) else None;
  }

  method CountOpen(w: Services, b: Id) returns (pending: nat)
    requires w.View().Valid()
    ensures pending == |Select(w.jobs, b, IsOpen)|
  {
    pending := 0;
    var jobs := w.ListJobs(b);
    for i := 0 to |jobs|
      invariant pending == CountWhere(jobs[..i], IsOpen)
    {
      assert jobs[..i + 1][..i] == jobs[..i];
      if jobs[i].status == Pending || jobs[i].status == Queued || jobs[i].status == Processing {
        pending := pending + 1;
      }
    }
    assert jobs[..|jobs|] == jobs;
    CountListing(w.jobs, b, jobs, IsOpen);
  }

  /** A cancellation whose refund goes through turns exactly the open jobs of the batch into refunded
      ones, and reports those refunded earlier plus those it found pending; one whose refund fails
      reports the earlier ones and keeps jobs and transactions for another try. */
  lemma CancelSettles(s: State, b: Id, io: CancelIO)
    requires s.Valid() && b in s.batches && io.Reliable() && s.batches[b].transactionIds != []
    ensures var t := CancelledState(s, b, io);
            && (io.billing == Some(true) ==>
                 && |Select(t.jobs, b, IsRefunded)| == |Select(s.jobs, b, IsRefunded)| + |Select(s.jobs, b, IsOpen)|
                 && t.jobs == WithStatus(s.jobs, Select(s.jobs, b, IsOpen), Refunded)
                 && t.refunds == s.refunds + [Refund(b, s.batches[b].transactionIds)]
                 && t.batches[b].transactionIds == [])
            && (io.billing != Some(true) ==>
                 && t.jobs == s.jobs && t.refunds == s.refunds
                 && t.batches[b].transactionIds == s.batches[b].transactionIds)
            && t.batches[b].status == Cancelled
  {
    assert Refundable(s.jobs, b, io.markOk) == Select(s.jobs, b, IsOpen);
    var after := WithStatus(s.jobs, Select(s.jobs, b, IsOpen), Refunded);
    assert Select(after, b, IsRefunded) == Select(s.jobs, b, IsRefunded) + Select(s.jobs, b, IsOpen);
  }

  // ----- restart ----------------------------------------------------------------------------

  /** Answers during a restart; the functions answer for the job with an id. */
  datatype RestartIO = RestartIO(getOk: bool, listOk: bool, publishOk: Id -> bool, queueOk: Id -> bool, process: ProcessIO)

  /** The failed jobs of the batch whose publication and update succeed. */
  function Restartable(rows: map<Id, Job>, b: Id, io: RestartIO): set<Id> {
    set id | id in Select(rows, b, IsFailed) && io.publishOk(id) && io.queueOk(id)
  }

  function RestartMessage(j: Job): JobEvent {
    JobEvent(j.id, j.batchId, "", j.rowNumber, "", map[], false, None)
  }

  /** The messages of a pass over a listing. */
  function RestartMessages(jobs: seq<Job>, io: RestartIO): seq<JobEvent> {
    if jobs == [] then []
    else
      var before, j := RestartMessages(jobs[..|jobs| - 1], io), jobs[|jobs| - 1];
      if j.status == Failed && io.publishOk(j.id) then before + [RestartMessage(j)] else before
  }

  function CanRestart(io: RestartIO): Job -> bool {
    (j: Job) => j.status == Failed && io.publishOk(j.id) && io.queueOk(j.id)
  }

  function RestartedState(s: State, b: Id, jobs: seq<Job>, io: RestartIO): State {
    if io.getOk && b in s.batches && io.listOk then
      Processed(s.(jobs := WithStatus(s.jobs, Restartable(s.jobs, b, io), Queued),
                   jobEvents := s.jobEvents + RestartMessages(jobs, io)), b, io.process)
    else s
  }

  /** Publishes the failed jobs of a batch again and queues them; every other job is skipped. */
  method HandleRestart(w: Services, b: Id, io: RestartIO)
    returns (restarted: nat, skipped: nat, ok: bool, ghost jobs: seq<Job>)
    requires w.View().Valid()
    modifies w
    ensures w.View().Valid()
    ensures ok <==> io.getOk && b in old(w.batches) && io.listOk
    ensures ok ==> IsListing(old(w.jobs), b, jobs)
    ensures w.View() == RestartedState(old(w.View()), b, jobs, io)
    ensures ok ==> restarted == |Restartable(old(w.jobs), b, io)| && restarted + skipped == |JobsOf(old(w.jobs), b)|
  {
    restarted, skipped, ok, jobs := 0, 0, false, [];
    var record := w.GetBatch(b, io.getOk);
    if record.None? || !io.listOk {
      return;
    }
    ok := true;
    var listed := w.ListJobs(b);
    jobs := listed;
    ListingLength(w.jobs, b, listed);
    PickedRestartable(w.jobs, b, listed, io);
    PickedSize(listed, CanRestart(io));
    restarted, skipped := RestartJobs(w, listed, io);
    var _ := SetProcessing(w, b, io.process);
  }

  /** One turn of the restart loop, on the table, the topic and the counter. */
  lemma RestartTurn(rows: map<Id, Job>, jobs: seq<Job>, i: nat, io: RestartIO)
    requires i < |jobs|
    ensures var can, table, j := CanRestart(io), WithStatus(rows, Picked(jobs[..i], CanRestart(io)), Queued), jobs[i];
            && WithStatus(rows, Picked(jobs[..i + 1], can), Queued)
            == (if can(j) && j.id in table then table[j.id := table[j.id].(status := Queued)] else table)
            && PickedCount(jobs[..i + 1], can) == PickedCount(jobs[..i], can) + (if can(j) then 1 else 0)
    ensures RestartMessages(jobs[..i + 1], io)
         == if jobs[i].status == Failed && io.publishOk(jobs[i].id)
            then RestartMessages(jobs[..i], io) + [RestartMessage(jobs[i])]
            else RestartMessages(jobs[..i], io)
  {
    PickedStep(jobs, i, CanRestart(io));
    WithStatusOneMore(rows, Picked(jobs[..i], CanRestart(io)), jobs[i].id, Queued);
    assert jobs[..i + 1][..i] == jobs[..i];
  }

  lemma PickedRestartable(rows: map<Id, Job>, b: Id, jobs: seq<Job>, io: RestartIO)
    requires IsListing(rows, b, jobs)
    ensures Picked(jobs, CanRestart(io)) == Restartable(rows, b, io)
  {
    forall id ensures id in Restartable(rows, b, io) <==> id in JobsOf(rows, b) && CanRestart(io)(rows[id]) {
      if id in JobsOf(rows, b) {
        var k :| 0 <= k < |jobs| && jobs[k].id == id;
      }
    }
    PickedListing(rows, b, jobs, CanRestart(io), Restartable(rows, b, io));
  }

  /** One turn of the restart loop. */
  method RestartOne(w: Services, j: Job, io: RestartIO) returns (done: bool)
    modifies w`jobs, w`jobEvents
    ensures done == CanRestart(io)(j)
    ensures w.jobs == if done && j.id in old(w.jobs)
                      then old(w.jobs)[j.id := old(w.jobs)[j.id].(status := Queued)]
                      else old(w.jobs)
    ensures w.jobEvents == if j.status == Failed && io.publishOk(j.id)
                           then old(w.jobEvents) + [RestartMessage(j)]
                           else old(w.jobEvents)
  {
    if j.status != Failed {
      return false;
    }
    if !io.publishOk(j.id) {
      return false;
    }
    w.jobEvents := w.jobEvents + [RestartMessage(j)];
    done := w.UpdateStatus(j.id, Queued, io.queueOk(j.id));
  }

  /** One turn of the restart loop, on table and topic as the turns before it left them. */
  method RestartNext(w: Services, jobs: seq<Job>, i: nat, io: RestartIO, ghost rows: map<Id, Job>, ghost log: seq<JobEvent>) returns (done: bool)
    requires i < |jobs|
    requires w.jobs == WithStatus(rows, Picked(jobs[..i], CanRestart(io)), Queued)
    requires w.jobEvents == log + RestartMessages(jobs[..i], io)
    modifies w`jobs, w`jobEvents
    ensures w.jobs == WithStatus(rows, Picked(jobs[..i + 1], CanRestart(io)), Queued)
    ensures w.jobEvents == log + RestartMessages(jobs[..i + 1], io)
    ensures done == CanRestart(io)(jobs[i])
  {
    RestartTurn(rows, jobs, i, io);
    Sequences.Joined(log, RestartMessages(jobs[..i], io), [RestartMessage(jobs[i])]);
    done := RestartOne(w, jobs[i], io);
  }

  /** The restart loop. */
  method RestartJobs(w: Services, jobs: seq<Job>, io: RestartIO) returns (restarted: nat, skipped: nat)
    modifies w`jobs, w`jobEvents
    ensures w.jobs == WithStatus(old(w.jobs), Picked(jobs, CanRestart(io)), Queued)
    ensures w.jobEvents == old(w.jobEvents) + RestartMessages(jobs, io)
    ensures restarted == PickedCount(jobs, CanRestart(io)) && restarted + skipped == |jobs|
  {
    restarted, skipped := 0, 0;
    ghost var rows, log := w.jobs, w.jobEvents;
    WithStatusNone(rows, Queued);
    for i := 0 to |jobs|
      invariant w.jobs == WithStatus(rows, Picked(jobs[..i], CanRestart(io)), Queued)
      invariant w.jobEvents == log + RestartMessages(jobs[..i], io)
      invariant restarted == PickedCount(jobs[..i], CanRestart(io)) && restarted + skipped == i
      modifies w`jobs, w`jobEvents
    {
      PickedStep(jobs, i, CanRestart(io));
      var done := RestartNext(w, jobs, i, io, rows, log);
      if done {
        restarted := restarted + 1;
      } else {
        skipped := skipped + 1;
      }
    }
    assert jobs[..|jobs|] == jobs;
  }

  // ----- settings ---------------------------------------------------------------------------

  /** A record with the settings that were supplied; the others stay. */
  function WithSettings(record: Batch, priority: string, timeout: int): Batch {
    record.(priority := if priority != "" then priority else record.priority,
            timeoutMs := if timeout > 0 then timeout else record.timeoutMs)
  }

  function Configured(s: State, b: Id, priority: string, timeout: int, io: ProcessIO): State {
    if io.getOk && io.updateOk && b in s.batches then
      PutBatch(s, WithSettings(s.batches[b], priority, timeout))
    else s
  }

  method HandleUpdateConfig(w: Services, b: Id, priority: string, timeout: int, io: ProcessIO) returns (answered: Option<Batch>)
    modifies w`batches
    ensures w.View() == Configured(old(w.View()), b, priority, timeout, io)
    ensures answered.Some? <==> io.getOk && io.updateOk && b in old(w.batches)
    ensures answered.Some? ==> answered.value == WithSettings(old(w.batches)[b], priority, timeout)
  {
    var found := w.GetBatch(b, io.getOk);
    if found.None? {
      return None;
    }
    var record := found.value;
    if priority != "" {
      record := record.(priority := priority);
    }
    if timeout > 0 {
      record := record.(timeoutMs := timeout);
    }
    var ok := w.UpdateBatch(record, io.updateOk);
    answered := if ok then Some(record) else None;
  }

  /** The settings are answered but not kept: an update that goes through stores neither the new
      priority and timeout nor the earlier ones. */
  lemma SettingsAreNotKept(s: State, b: Id, priority: string, timeout: int, io: ProcessIO)
    requires s.Keyed() && b in s.batches
    ensures var stored := Configured(s, b, priority, timeout, io).batches[b];
            if io.getOk && io.updateOk then stored == s.batches[b].(priority := "", timeoutMs := 0)
            else stored == s.batches[b]
  {
  }
}
