/** Whole runs: every operation as a step, in any order, with any answers of the services. */
module Lifecycle {
  import opened Domain
  import opened Backend
  import opened BatchManager
  import ResultHandler
  import opened Confirm
  import BatchHandlers

  /** An upload is described by what it leaves behind: the batch record and the jobs it managed to create. */
  datatype Step =
    | NewBatch(record: Batch, created: map<Id, Job>)
    | Finalise(batch: Id, validRows: int, invalidRows: int, finaliseIO: FinaliseIO)
    | Confirmation(batch: Id, count: int, jobs: seq<Job>, env: ConfirmEnv)
    | Result(event: ResultHandler.ResultEvent, now: Time, handlerIO: ResultHandler.HandlerIO)
    | Cancel(batch: Id, cancelIO: CancelIO)
    | Restart(batch: Id, jobs: seq<Job>, restartIO: BatchHandlers.RestartIO)
    | Process(batch: Id, processIO: ProcessIO)
    | Configure(batch: Id, priority: string, timeout: int, processIO: ProcessIO)

  /** What a new batch may look like: fresh keys, at most one job per row, nothing counted yet. */
  ghost predicate UploadFits(s: State, record: Batch, created: map<Id, Job>) {
    && record.id !in s.batches && created.Keys !! s.jobs.Keys
    && (forall id :: id in created ==> created[id].id == id && created[id].batchId == record.id)
    && |created| <= record.totalRows
    && record.completedCount == 0 && record.failedCount == 0
  }

  ghost predicate Possible(s: State, step: Step) {
    step.NewBatch? ==> UploadFits(s, step.record, step.created)
  }

  function Next(s: State, step: Step, isUuid: Id -> bool): State {
    match step
    case NewBatch(record, created) => s.(batches := s.batches[record.id := record], jobs := s.jobs + created)
    case Finalise(b, validRows, invalidRows, io) => Finalised(s, b, validRows, invalidRows, io)
    case Confirmation(b, count, jobs, env) => ConfirmedState(s, b, count, jobs, env, isUuid)
    case Result(event, now, io) => ResultHandler.Handled(s, event, now, io, isUuid)
    case Cancel(b, io) => CancelledState(s, b, io)
    case Restart(b, jobs, io) => BatchHandlers.RestartedState(s, b, jobs, io)
    case Process(b, io) => Processed(s, b, io)
    case Configure(b, priority, timeout, io) => BatchHandlers.Configured(s, b, priority, timeout, io)
  }

  function Run(s: State, steps: seq<Step>, isUuid: Id -> bool): State {
    if steps == [] then s else Next(Run(s, steps[..|steps| - 1], isUuid), steps[|steps| - 1], isUuid)
  }

  ghost predicate PossibleRun(s: State, steps: seq<Step>, isUuid: Id -> bool) {
    forall i :: 0 <= i < |steps| ==> Possible(Run(s, steps[..i], isUuid), steps[i])
  }

  // ----- counters over whole runs -----------------------------------------------------------

  predicate GoodCounters(r: Batch, jobs: nat) {
    0 <= r.failedCount <= r.completedCount <= jobs <= r.totalRows
  }

  predicate SameCounters(r: Batch, q: Batch) {
    r.failedCount == q.failedCount && r.completedCount == q.completedCount && r.totalRows == q.totalRows
  }

  /** Counters never exceed the jobs of their batch, which never exceed its rows, and every progress
      message ever published was sound. */
  ghost predicate CountersHold(s: State) {
    && s.Valid()
    && (forall b :: b in s.batches ==> GoodCounters(s.batches[b], |JobsOf(s.jobs, b)|))
    && (forall i :: 0 <= i < |s.statusEvents| ==> SoundProgress(s.statusEvents[i]))
  }

  /** A step that creates nothing: same rows, counters as before or in order, at most one message more. */
  ghost predicate Calm(s: State, t: State) {
    && t.batches.Keys == s.batches.Keys && SameShape(t.jobs, s.jobs)
    && t.Keyed()
    && (forall b :: b in s.batches ==>
          SameCounters(t.batches[b], s.batches[b]) || GoodCounters(t.batches[b], |JobsOf(s.jobs, b)|))
    && (t.statusEvents == s.statusEvents
        || exists r: Batch :: t.statusEvents == s.statusEvents + [StatusOf(r)] && CountersInOrder(r))
  }

  lemma CalmHolds(s: State, t: State)
    requires CountersHold(s) && Calm(s, t)
    ensures CountersHold(t)
  {
    forall b | b in t.batches ensures GoodCounters(t.batches[b], |JobsOf(t.jobs, b)|) {
      ResultHandler.JobsOfSame(s.jobs, t.jobs, b);
    }
    if t.statusEvents != s.statusEvents {
      var r: Batch :| t.statusEvents == s.statusEvents + [StatusOf(r)] && CountersInOrder(r);
      ProgressIsSound(r);
    }
  }

  /** Replacing a record without touching its counters, with or without a message about it. */
  lemma CalmRecord(s: State, r: Batch, announced: bool)
    requires CountersHold(s) && r.id in s.batches && SameCounters(r, s.batches[r.id])
    ensures Calm(s, if announced then Announced(PutBatch(s, r), r) else PutBatch(s, r))
  {
    assert CountersInOrder(r);
  }

  lemma CalmFinalise(s: State, b: Id, validRows: int, invalidRows: int, io: FinaliseIO)
    requires CountersHold(s)
    ensures Calm(s, Finalised(s, b, validRows, invalidRows, io))
  {
    if b in s.batches {
      CalmRecord(s, FinalisedRecord(s.batches[b], validRows, invalidRows, io.quote), true);
    }
  }

  lemma CalmProcess(s: State, b: Id, io: ProcessIO)
    requires CountersHold(s)
    ensures Calm(s, Processed(s, b, io))
  {
    if b in s.batches {
      CalmRecord(s, s.batches[b].(status := BatchProcessing), true);
    }
  }

  /** The recount is where counters change. */
  lemma CalmRecount(s: State, b: Id, now: Time, io: RecountIO)
    requires CountersHold(s)
    ensures Calm(s, Recounted(s, b, now, io))
  {
    if b in s.batches {
      var r := Tally(s.batches[b], s.jobs, now);
      ClosedIsAll(s.jobs, b);
      SubsetSize(Select(s.jobs, b, IsFailed), Select(s.jobs, b, IsClosed));
      assert GoodCounters(r, |JobsOf(s.jobs, b)|);
      assert CountersInOrder(r);
    }
  }

  lemma StoredHolds(s: State, ev: ResultHandler.ResultEvent, isUuid: Id -> bool)
    requires CountersHold(s)
    ensures CountersHold(s.(jobs := ResultHandler.Stored(s.jobs, ev, isUuid)))
  {
    CalmHolds(s, s.(jobs := ResultHandler.Stored(s.jobs, ev, isUuid)));
  }

  lemma CancelHolds(s: State, b: Id, io: CancelIO)
    requires CountersHold(s)
    ensures CountersHold(CancelledState(s, b, io))
  {
    if io.getOk && io.updateOk && b in s.batches {
      var r := s.batches[b].(status := Cancelled);
      var marked := Announced(PutBatch(s, r), r);
      CalmRecord(s, r, true);
      CalmHolds(s, marked);
      CancelRefundHolds(marked, r, io);
    }
  }

  lemma CancelRefundHolds(s: State, r: Batch, io: CancelIO)
    requires CountersHold(s) && r.id in s.batches && SameCounters(r, s.batches[r.id])
    ensures CountersHold(CancelRefund(s, r, io))
  {
    var paid := s.(refunds := s.refunds + [Refund(r.id, r.transactionIds)],
                   jobs := if io.listOk then WithStatus(s.jobs, Refundable(s.jobs, r.id, io.markOk), Refunded) else s.jobs);
    CalmHolds(s, paid);
    CalmRecord(paid, r.(transactionIds := []), false);
    CalmHolds(paid, PutBatch(paid, r.(transactionIds := [])));
  }

  lemma RestartHolds(s: State, b: Id, jobs: seq<Job>, io: BatchHandlers.RestartIO)
    requires CountersHold(s)
    ensures CountersHold(BatchHandlers.RestartedState(s, b, jobs, io))
  {
    var queued := s.(jobs := WithStatus(s.jobs, BatchHandlers.Restartable(s.jobs, b, io), Queued),
                     jobEvents := s.jobEvents + BatchHandlers.RestartMessages(jobs, io));
    CalmHolds(s, queued);
    CalmProcess(queued, b, io.process);
    CalmHolds(queued, Processed(queued, b, io.process));
  }

  lemma DeliverKeepsCounters(s: State, b: Id, jobs: seq<Job>, plan: Plan, env: ConfirmEnv, isUuid: Id -> bool, x: Id)
    requires s.Keyed() && x in s.batches
    ensures var t := Delivered(s, b, jobs, plan, env, isUuid);
            && t.statusEvents == s.statusEvents && x in t.batches && SameCounters(t.batches[x], s.batches[x])
  {
  }

  lemma SavedKeepsCounters(s: State, b: Id, env: ConfirmEnv, x: Id)
    requires s.Keyed() && x in s.batches && env.Reservation().Reserved?
    ensures var t := IdsSaved(s, b, env);
            && t.Keyed() && t.statusEvents == s.statusEvents && x in t.batches && SameCounters(t.batches[x], s.batches[x])
  {
  }

  lemma ConfirmKeepsCounters(s: State, b: Id, count: int, jobs: seq<Job>, env: ConfirmEnv, isUuid: Id -> bool, x: Id)
    requires s.Keyed() && x in s.batches
    ensures var t := ConfirmedState(s, b, count, jobs, env, isUuid);
            && t.statusEvents == s.statusEvents && x in t.batches && SameCounters(t.batches[x], s.batches[x])
  {
    if env.Reservation().Reserved? {
      var saved := IdsSaved(s, b, env);
      SavedKeepsCounters(s, b, env, x);
      DeliverKeepsCounters(saved, b, jobs, PlanFor(saved, b, count, env), env, isUuid, x);
    }
  }

  lemma ConfirmHolds(s: State, b: Id, count: int, jobs: seq<Job>, env: ConfirmEnv, isUuid: Id -> bool)
    requires CountersHold(s)
    ensures CountersHold(ConfirmedState(s, b, count, jobs, env, isUuid))
  {
    var t := ConfirmedState(s, b, count, jobs, env, isUuid);
    ConfirmedRecords(s, b, count, jobs, env, isUuid);
    ConfirmedShape(s, b, count, jobs, env, isUuid);
    forall x | x in s.batches ensures SameCounters(t.batches[x], s.batches[x]) {
      ConfirmKeepsCounters(s, b, count, jobs, env, isUuid, x);
    }
    if x :| x in s.batches {
      ConfirmKeepsCounters(s, b, count, jobs, env, isUuid, x);
    } else {
      ConfirmSilent(s, b, count, jobs, env, isUuid);
    }
    CalmHolds(s, t);
  }

  lemma ConfirmSilent(s: State, b: Id, count: int, jobs: seq<Job>, env: ConfirmEnv, isUuid: Id -> bool)
    ensures ConfirmedState(s, b, count, jobs, env, isUuid).statusEvents == s.statusEvents
  {
  }

  lemma UploadedJobs(s: State, record: Batch, created: map<Id, Job>, b: Id)
    requires s.Valid() && UploadFits(s, record, created) && (b in s.batches || b == record.id)
    ensures JobsOf(s.jobs + created, b) == if b == record.id then created.Keys else JobsOf(s.jobs, b)
  {
  }

  lemma UploadHolds(s: State, record: Batch, created: map<Id, Job>)
    requires CountersHold(s) && UploadFits(s, record, created)
    ensures CountersHold(s.(batches := s.batches[record.id := record], jobs := s.jobs + created))
  {
    var t := s.(batches := s.batches[record.id := record], jobs := s.jobs + created);
    forall b | b in t.batches ensures GoodCounters(t.batches[b], |JobsOf(t.jobs, b)|) {
      UploadedJobs(s, record, created, b);
      assert |created.Keys| == |created|;
    }
    assert t.Valid();
  }

  lemma ConfigureHolds(s: State, b: Id, priority: string, timeout: int, io: ProcessIO)
    requires CountersHold(s)
    ensures CountersHold(BatchHandlers.Configured(s, b, priority, timeout, io))
  {
    if io.getOk && io.updateOk && b in s.batches {
      var r := BatchHandlers.WithSettings(s.batches[b], priority, timeout);
      CalmRecord(s, r, false);
      CalmHolds(s, PutBatch(s, r));
    }
  }

  /** Every operation keeps the counters in bounds, whatever the services answer. */
  lemma StepHolds(s: State, step: Step, isUuid: Id -> bool)
    requires CountersHold(s) && Possible(s, step)
    ensures CountersHold(Next(s, step, isUuid))
  {
    match step {
      case NewBatch(record, created) => UploadHolds(s, record, created);
      case Finalise(b, validRows, invalidRows, io) =>
        CalmFinalise(s, b, validRows, invalidRows, io);
        CalmHolds(s, Finalised(s, b, validRows, invalidRows, io));
      case Confirmation(b, count, jobs, env) => ConfirmHolds(s, b, count, jobs, env, isUuid);
      case Result(event, now, io) =>
        StoredHolds(s, event, isUuid);
        var stored := if io.jobOk then s.(jobs := ResultHandler.Stored(s.jobs, event, isUuid)) else s;
        CalmRecount(stored, event.batchId, now, io.recount);
        CalmHolds(stored, Recounted(stored, event.batchId, now, io.recount));
      case Cancel(b, io) => CancelHolds(s, b, io);
      case Restart(b, jobs, io) => RestartHolds(s, b, jobs, io);
      case Process(b, io) =>
        CalmProcess(s, b, io);
        CalmHolds(s, Processed(s, b, io));
      case Configure(b, priority, timeout, io) => ConfigureHolds(s, b, priority, timeout, io);
    }
  }

  /** In every state a run reaches, failed <= completed <= jobs <= rows for every batch, and every
      published progress message has a percentage within 0 to 100 and never overstates what is left. */
  lemma {:induction false} RunHolds(s: State, steps: seq<Step>, isUuid: Id -> bool)
    requires CountersHold(s) && PossibleRun(s, steps, isUuid)
    ensures CountersHold(Run(s, steps, isUuid))
  {
    if steps != [] {
      var front := steps[..|steps| - 1];
      forall i | 0 <= i < |front| ensures Possible(Run(s, front[..i], isUuid), front[i]) {
        assert front[..i] == steps[..i];
      }
      RunHolds(s, front, isUuid);
      StepHolds(Run(s, front, isUuid), steps[|steps| - 1], isUuid);
    }
  }
}
