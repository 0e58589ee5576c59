/** Confirming a batch: reserve billing transactions, publish the first jobs of the batch, and
    undo when a publication failed. */
module Confirm {
  import opened Domain
  import Flags
  import Sequences
  import opened Backend
  import BatchManager

  // ----- which transaction a job gets -------------------------------------------------------

  /** The transaction for the job at index i; the caller's loop keeps i below count. */
  function AssignTx(txIds: seq<Id>, count: int, i: nat): Option<Id>
    requires i < count
  {
    if |txIds| == 0 then None
    else if |txIds| == 1 then Some(txIds[0])
    else if |txIds| >= count && |txIds| == count then Some(txIds[i])
    else if i < |txIds| then Some(txIds[i])
    else None
  }

  /** The requested count plays no part: a single id is shared by all jobs, otherwise job i takes
      the i-th id while they last. */
  lemma AssignTxIsPositional(txIds: seq<Id>, count: int, i: nat)
    requires i < count
    ensures AssignTx(txIds, count, i) ==
            if |txIds| == 1 then Some(txIds[0]) else if i < |txIds| then Some(txIds[i]) else None
  {
  }

  /** The transactions whose refund compensation asks for: those stored on the first n jobs. */
  function Assigned(txIds: seq<Id>, count: int, n: nat, isUuid: Id -> bool): seq<Id>
    requires n == 0 || n <= count
  {
    if n == 0 then []
    else
      var tx := AssignTx(txIds, count, n - 1);
      Assigned(txIds, count, n - 1, isUuid) + (if tx.Some? && isUuid(tx.value) then [tx.value] else [])
  }

  function Keep(ids: seq<Id>, p: Id -> bool): seq<Id> {
    if ids == [] then [] else Keep(ids[..|ids| - 1], p) + (if p(ids[|ids| - 1]) then [ids[|ids| - 1]] else [])
  }

  function Repeat(id: Id, n: nat): seq<Id> {
    seq(n, _ => id)
  }

  /** Compensation returns, in order, the well-formed ids among those handed to the first n jobs,
      those of successfully published jobs included; a shared id is returned once per job. */
  lemma {:induction false} AssignedIsPrefix(txIds: seq<Id>, count: int, n: nat, isUuid: Id -> bool)
    requires n == 0 || n <= count
    ensures |txIds| != 1 ==> Assigned(txIds, count, n, isUuid) == Keep(txIds[..if n < |txIds| then n else |txIds|], isUuid)
    ensures |txIds| == 1 ==> Assigned(txIds, count, n, isUuid) == Keep(Repeat(txIds[0], n), isUuid)
  {
    if n > 0 {
      AssignedIsPrefix(txIds, count, n - 1, isUuid);
      AssignTxIsPositional(txIds, count, n - 1);
      if |txIds| == 1 {
        assert Repeat(txIds[0], n)[..n - 1] == Repeat(txIds[0], n - 1);
      } else if n <= |txIds| {
        assert txIds[..n][..n - 1] == txIds[..n - 1];
      }
    }
  }

  // ----- environment ------------------------------------------------------------------------

  datatype Block = Refused | Reserved(ids: seq<Id>)

  /** Answers of the services during one confirmation; the functions answer for the job at an index.
      `hook` replaces billing for the reservation only. */
  datatype ConfirmEnv = ConfirmEnv(
    hook: Option<Block>,
    billing: Option<Block>,
    gateOk: bool,
    saveReadOk: bool,
    saveWriteOk: bool,
    listOk: bool,
    infoOk: bool,
    publishOk: nat -> bool,
    txOk: nat -> bool,
    queueOk: nat -> bool,
    refundOk: bool,
    cancelReadOk: bool,
    cancelWriteOk: bool,
    markOk: nat -> bool)
  {
    function Reservation(): Block {
      if hook.Some? then hook.value else if billing.Some? then billing.value else Reserved([])
    }

    /** The status updates of the first n jobs all succeed. */
    ghost predicate ReliableUpdates(n: nat) {
      forall i: nat :: i < n ==> queueOk(i) && markOk(i)
    }
  }

  datatype ConfirmResult = OverApproved | BlockFailed | ListFailed | Confirmed(queued: nat)

  /** How many jobs of the listing a request for `count` covers. */
  function Covered(count: int, jobs: nat): (n: nat)
    ensures n <= jobs && (n == 0 || n <= count)
  {
    if count <= 0 then 0 else if count < jobs then count else jobs
  }

  /** A positive allowance forbids a larger count; an allowance of zero forbids nothing. */
  predicate GateRejects(s: State, b: Id, count: int, up: bool) {
    up && b in s.batches && s.batches[b].approvedCount > 0 && count > s.batches[b].approvedCount
  }

  // ----- the publishing loop ----------------------------------------------------------------

  datatype Plan = Plan(txIds: seq<Id>, count: int, userId: string, revision: string)

  function EventFor(j: Job, tx: Option<Id>, plan: Plan): JobEvent {
    JobEvent(j.id, j.batchId, plan.userId, j.rowNumber, plan.revision, j.fields, tx.Some?, tx)
  }

  /** A job row once the loop has passed it at index k. */
  function DispatchedRow(j: Job, k: nat, plan: Plan, env: ConfirmEnv, isUuid: Id -> bool): Job
    requires k < plan.count
  {
    var tx := AssignTx(plan.txIds, plan.count, k);
    j.(billingTx := if tx.Some? && isUuid(tx.value) && env.txOk(k) then tx else j.billingTx,
       status := if QueuedAt(env)(k) then Queued else j.status)
  }

  /** Two tables with the same rows as far as identity and ownership go. */
  ghost predicate SameShape(m: map<Id, Job>, n: map<Id, Job>) {
    m.Keys == n.Keys && forall id :: id in m ==> m[id].id == n[id].id && m[id].batchId == n[id].batchId
  }

  function DispatchOne(rows: map<Id, Job>, id: Id, k: nat, plan: Plan, env: ConfirmEnv, isUuid: Id -> bool): map<Id, Job>
    requires k < plan.count
  {
    if id in rows then rows[id := DispatchedRow(rows[id], k, plan, env, isUuid)] else rows
  }

  function DispatchRows(rows: map<Id, Job>, jobs: seq<Job>, n: nat, plan: Plan, env: ConfirmEnv, isUuid: Id -> bool): map<Id, Job>
    requires n <= |jobs| && (n == 0 || n <= plan.count)
  {
    if n == 0 then rows
    else DispatchOne(DispatchRows(rows, jobs, n - 1, plan, env, isUuid), jobs[n - 1].id, n - 1, plan, env, isUuid)
  }

  lemma {:induction false} DispatchKeepsShape(rows: map<Id, Job>, jobs: seq<Job>, n: nat, plan: Plan, env: ConfirmEnv, isUuid: Id -> bool)
    requires n <= |jobs| && (n == 0 || n <= plan.count)
    ensures SameShape(DispatchRows(rows, jobs, n, plan, env, isUuid), rows)
  {
    if n > 0 {
      DispatchKeepsShape(rows, jobs, n - 1, plan, env, isUuid);
    }
  }

  /** The messages of the published jobs among the first n, in job order. */
  function Messages(jobs: seq<Job>, n: nat, plan: Plan, env: ConfirmEnv): seq<JobEvent>
    requires n <= |jobs| && (n == 0 || n <= plan.count)
  {
    if n == 0 then []
    else
      var before := Messages(jobs, n - 1, plan, env);
      if env.publishOk(n - 1) then
        before + [EventFor(jobs[n - 1], AssignTx(plan.txIds, plan.count, n - 1), plan)]
      else before
  }

  function Dispatched(s: State, jobs: seq<Job>, n: nat, plan: Plan, env: ConfirmEnv, isUuid: Id -> bool): State
    requires n <= |jobs| && (n == 0 || n <= plan.count)
  {
    s.(jobs := DispatchRows(s.jobs, jobs, n, plan, env, isUuid), jobEvents := s.jobEvents + Messages(jobs, n, plan, env))
  }

  function QueuedAt(env: ConfirmEnv): nat -> bool {
    (i: nat) => env.publishOk(i) && env.queueOk(i)
  }

  /** Number of jobs counted as queued. */
  function QueuedCount(env: ConfirmEnv, n: nat): (q: nat)
    ensures q <= n
  {
    Flags.CountTrue(QueuedAt(env), n)
  }

  /** Some of the first n publications failed. */
  predicate SomeFailed(env: ConfirmEnv, n: nat) {
    n > 0 && (SomeFailed(env, n - 1) || !env.publishOk(n - 1))
  }

  // ----- compensation -----------------------------------------------------------------------

  /** The rows at indices first to past - 1 are marked refunded, as far as the updates succeed. */
  function RefundRows(rows: map<Id, Job>, jobs: seq<Job>, first: nat, past: nat, env: ConfirmEnv): map<Id, Job>
    requires first <= past <= |jobs|
    decreases past
  {
    if first == past then rows
    else
      var before, id := RefundRows(rows, jobs, first, past - 1, env), jobs[past - 1].id;
      if env.markOk(past - 1) && id in before then before[id := before[id].(status := Refunded)] else before
  }

  lemma {:induction false} RefundKeepsShape(rows: map<Id, Job>, jobs: seq<Job>, first: nat, past: nat, env: ConfirmEnv)
    requires first <= past <= |jobs|
    ensures SameShape(RefundRows(rows, jobs, first, past, env), rows)
    decreases past
  {
    if first < past {
      RefundKeepsShape(rows, jobs, first, past - 1, env);
    }
  }

  function RefundAssigned(s: State, b: Id, ids: seq<Id>, env: ConfirmEnv): State
  {
    if ids != [] && env.billing.Some? && env.refundOk then s.(refunds := s.refunds + [Refund(b, ids)]) else s
  }

  function MarkCancelled(s: State, b: Id, env: ConfirmEnv): State
  {
    if env.cancelReadOk && env.cancelWriteOk && b in s.batches then PutBatch(s, s.batches[b].(status := Cancelled)) else s
  }

  function Compensated(s: State, b: Id, jobs: seq<Job>, n: nat, plan: Plan, env: ConfirmEnv, isUuid: Id -> bool): State
    requires n <= |jobs| && (n == 0 || n <= plan.count)
  {
    var refunded := RefundAssigned(s, b, Assigned(plan.txIds, plan.count, n, isUuid), env);
    var cancelled := MarkCancelled(refunded, b, env);
    cancelled.(jobs := RefundRows(cancelled.jobs, jobs, QueuedCount(env, n), n, env))
  }

  // ----- the whole operation ----------------------------------------------------------------

  function IdsSaved(s: State, b: Id, env: ConfirmEnv): State
    requires env.Reservation().Reserved?
  {
    var ids := env.Reservation().ids;
    if env.hook.Some? && ids != [] && env.saveReadOk && env.saveWriteOk && b in s.batches then
      PutBatch(s, s.batches[b].(transactionIds := ids))
    else s
  }

  function PlanFor(s: State, b: Id, count: int, env: ConfirmEnv): Plan
    requires env.Reservation().Reserved?
  {
    var ids := env.Reservation().ids;
    if env.infoOk && b in s.batches then Plan(ids, count, s.batches[b].userId, s.batches[b].revision)
    else Plan(ids, count, "", "")
  }

  /** Publish the covered jobs, compensate if a publication failed. */
  function Delivered(s: State, b: Id, jobs: seq<Job>, plan: Plan, env: ConfirmEnv, isUuid: Id -> bool): (t: State)
    ensures t.jobs.Keys == s.jobs.Keys
  {
    var n := Covered(plan.count, |jobs|);
    var sent := Dispatched(s, jobs, n, plan, env, isUuid);
    DispatchKeepsShape(s.jobs, jobs, n, plan, env, isUuid);
    RefundKeepsShape(sent.jobs, jobs, QueuedCount(env, n), n, env);
    if SomeFailed(env, n) then Compensated(sent, b, jobs, n, plan, env, isUuid) else sent
  }

  function ConfirmedState(s: State, b: Id, count: int, jobs: seq<Job>, env: ConfirmEnv, isUuid: Id -> bool): (t: State)
    ensures t.jobs.Keys == s.jobs.Keys
  {
    if GateRejects(s, b, count, env.gateOk) || env.Reservation().Refused? then s
    else
      var saved := IdsSaved(s, b, env);
      if !env.listOk then saved else Delivered(saved, b, jobs, PlanFor(saved, b, count, env), env, isUuid)
  }

  lemma DeliveredRecords(s: State, b: Id, jobs: seq<Job>, plan: Plan, env: ConfirmEnv, isUuid: Id -> bool)
    requires s.Keyed()
    ensures var t := Delivered(s, b, jobs, plan, env, isUuid); t.Keyed() && t.batches.Keys == s.batches.Keys
  {
  }

  lemma DeliveredShape(s: State, b: Id, jobs: seq<Job>, plan: Plan, env: ConfirmEnv, isUuid: Id -> bool)
    ensures SameShape(Delivered(s, b, jobs, plan, env, isUuid).jobs, s.jobs)
  {
    var n := Covered(plan.count, |jobs|);
    var sent := Dispatched(s, jobs, n, plan, env, isUuid);
    DispatchKeepsShape(s.jobs, jobs, n, plan, env, isUuid);
    RefundKeepsShape(sent.jobs, jobs, QueuedCount(env, n), n, env);
  }

  lemma ConfirmedRecords(s: State, b: Id, count: int, jobs: seq<Job>, env: ConfirmEnv, isUuid: Id -> bool)
    requires s.Keyed()
    ensures var t := ConfirmedState(s, b, count, jobs, env, isUuid); t.Keyed() && t.batches.Keys == s.batches.Keys
  {
    if env.Reservation().Reserved? {
      var saved := IdsSaved(s, b, env);
      DeliveredRecords(saved, b, jobs, PlanFor(saved, b, count, env), env, isUuid);
    }
  }

  lemma ConfirmedShape(s: State, b: Id, count: int, jobs: seq<Job>, env: ConfirmEnv, isUuid: Id -> bool)
    ensures SameShape(ConfirmedState(s, b, count, jobs, env, isUuid).jobs, s.jobs)
  {
    if env.Reservation().Reserved? {
      var saved := IdsSaved(s, b, env);
      DeliveredShape(saved, b, jobs, PlanFor(saved, b, count, env), env, isUuid);
    }
  }

  lemma ConfirmedValid(s: State, b: Id, count: int, jobs: seq<Job>, env: ConfirmEnv, isUuid: Id -> bool)
    requires s.Valid()
    ensures ConfirmedState(s, b, count, jobs, env, isUuid).Valid()
  {
    ConfirmedRecords(s, b, count, jobs, env, isUuid);
    ConfirmedShape(s, b, count, jobs, env, isUuid);
  }

  function ConfirmedResult(s: State, b: Id, count: int, jobs: seq<Job>, env: ConfirmEnv): ConfirmResult {
    if GateRejects(s, b, count, env.gateOk) then OverApproved
    else if env.Reservation().Refused? then BlockFailed
    else if !env.listOk then ListFailed
    else Confirmed(QueuedCount(env, Covered(count, |jobs|)))
  }

  /** A confirmation above a positive allowance is refused and does nothing at all; no other one is
      refused for that reason. */
  lemma GateRefuses(s: State, b: Id, count: int, jobs: seq<Job>, env: ConfirmEnv, isUuid: Id -> bool)
    ensures var over := env.gateOk && b in s.batches && s.batches[b].approvedCount > 0 && count > s.batches[b].approvedCount;
            && (ConfirmedResult(s, b, count, jobs, env) == OverApproved <==> over)
            && (over ==> ConfirmedState(s, b, count, jobs, env, isUuid) == s)
  {
  }

  /** The hook decides the reservation, billing itself only without one; a refused reservation ends the
      confirmation before it does anything. */
  lemma ReservationRefuses(s: State, b: Id, count: int, jobs: seq<Job>, env: ConfirmEnv, isUuid: Id -> bool)
    requires ConfirmedResult(s, b, count, jobs, env) != OverApproved
    ensures var refused := env.hook == Some(Refused) || (env.hook == None && env.billing == Some(Refused));
            && (ConfirmedResult(s, b, count, jobs, env) == BlockFailed <==> refused)
            && (refused ==> ConfirmedState(s, b, count, jobs, env, isUuid) == s)
            && (!refused ==> env.Reservation().Reserved?)
            && (!refused && env.hook.Some? ==> env.Reservation() == env.hook.value)
            && (!refused && env.hook.None? && env.billing.Some? ==> env.Reservation() == env.billing.value)
            && (env.hook.None? && env.billing.None? ==> env.Reservation() == Reserved([]))
  {
  }

  /** When the jobs cannot be listed only the ids of the hook may have been stored. */
  lemma ListingFails(s: State, b: Id, count: int, jobs: seq<Job>, env: ConfirmEnv, isUuid: Id -> bool)
    requires ConfirmedResult(s, b, count, jobs, env) != OverApproved && ConfirmedResult(s, b, count, jobs, env) != BlockFailed
    ensures ConfirmedResult(s, b, count, jobs, env) == ListFailed <==> !env.listOk
    ensures !env.listOk ==>
              var t := ConfirmedState(s, b, count, jobs, env, isUuid);
              && t.jobs == s.jobs && t.jobEvents == s.jobEvents && t.refunds == s.refunds && t.statusEvents == s.statusEvents
              && (env.hook == None ==> t == s)
  {
  }

  /** Whether the quote of an upload binds a later confirmation: one above the quote of a batch without
      an earlier allowance is refused if and only if no row was rejected and the quote is positive and
      less than the valid rows. An earlier allowance stays when the quote is not taken. */
  lemma GateHonoursQuoteIff(s: State, b: Id, validRows: int, invalidRows: int, quote: int, count: int, jobs: seq<Job>, env: ConfirmEnv)
    requires s.Keyed() && b in s.batches && count > quote && env.gateOk
    ensures var t := BatchManager.Finalised(s, b, validRows, invalidRows, BatchManager.FinaliseIO(true, true, Some(quote)));
            var refused, a := ConfirmedResult(t, b, count, jobs, env) == OverApproved, s.batches[b].approvedCount;
            && (a == 0 ==> (refused <==> invalidRows <= 0 && 0 < quote < validRows))
            && (refused <==> if invalidRows <= 0 && quote < validRows then quote > 0 else 0 < a < count)
  {
  }

  /** Two confirmations above the quote that are not refused: more than all the rows when the quote
      covers them, and any number when a row was rejected, which keeps billing from being asked. */
  lemma QuotesNotHonoured(s: State, b: Id, jobs: seq<Job>, env: ConfirmEnv)
    requires s.Keyed() && b in s.batches && s.batches[b].approvedCount == 0 && env.gateOk
    ensures var t := BatchManager.Finalised(s, b, 3, 0, BatchManager.FinaliseIO(true, true, Some(5)));
            ConfirmedResult(t, b, 6, jobs, env) != OverApproved
    ensures var t := BatchManager.Finalised(s, b, 3, 1, BatchManager.FinaliseIO(true, true, Some(2)));
            ConfirmedResult(t, b, 3, jobs, env) != OverApproved
  {
    GateHonoursQuoteIff(s, b, 3, 0, 5, 6, jobs, env);
    GateHonoursQuoteIff(s, b, 3, 1, 2, 3, jobs, env);
  }

  /** `jobs` is the listing the database happened to return. */
  method ConfirmBatch(w: Services, b: Id, count: int, env: ConfirmEnv, isUuid: Id -> bool)
    returns (result: ConfirmResult, ghost jobs: seq<Job>)
    requires w.View().Valid()
    modifies w
    ensures w.View().Valid()
    ensures result.Confirmed? ==> IsListing(old(w.jobs), b, jobs)
    ensures w.View() == ConfirmedState(old(w.View()), b, count, jobs, env, isUuid)
    ensures result == ConfirmedResult(old(w.View()), b, count, jobs, env)
  {
    jobs := [];
    ghost var before := w.View();
    var gate := w.GetBatch(b, env.gateOk);
    if gate.Some? && gate.value.approvedCount > 0 && count > gate.value.approvedCount {
      return OverApproved, jobs;
    }
    if env.Reservation().Refused? {
      return BlockFailed, jobs;
    }
    var txIds := env.Reservation().ids;
    SaveIds(w, b, txIds, env);
    if !env.listOk {
      ConfirmedValid(before, b, count, jobs, env, isUuid);
      return ListFailed, jobs;
    }
    var queued;
    queued, jobs := ListAndDeliver(w, b, count, txIds, env, isUuid);
    ConfirmedValid(before, b, count, jobs, env, isUuid);
    result := Confirmed(queued);
  }

  method ListAndDeliver(w: Services, b: Id, count: int, txIds: seq<Id>, env: ConfirmEnv, isUuid: Id -> bool)
    returns (queued: nat, ghost jobs: seq<Job>)
    requires w.View().Valid() && env.Reservation() == Reserved(txIds)
    modifies w
    ensures IsListing(old(w.jobs), b, jobs)
    ensures w.View() == Delivered(old(w.View()), b, jobs, PlanFor(old(w.View()), b, count, env), env, isUuid)
    ensures queued == QueuedCount(env, Covered(count, |jobs|))
  {
    var listed := w.ListJobs(b);
    jobs := listed;
    var info := w.GetBatch(b, env.infoOk);
    var plan := if info.Some? then Plan(txIds, count, info.value.userId, info.value.revision) else Plan(txIds, count, "", "");
    queued := Deliver(w, b, listed, plan, env, isUuid);
  }

  method Deliver(w: Services, b: Id, jobs: seq<Job>, plan: Plan, env: ConfirmEnv, isUuid: Id -> bool) returns (queued: nat)
    modifies w
    ensures w.View() == Delivered(old(w.View()), b, jobs, plan, env, isUuid)
    ensures queued == QueuedCount(env, Covered(plan.count, |jobs|))
  {
    var p := PublishJobs(w, jobs, plan, env, isUuid);
    if p.publishError {
      Compensate(w, b, jobs, p.queued, p.owed, plan.count, env);
    }
    queued := p.queued;
  }

  /** Only the hook's ids are written to the batch record; those from billing itself are not. */
  method SaveIds(w: Services, b: Id, txIds: seq<Id>, env: ConfirmEnv)
    requires env.Reservation() == Reserved(txIds)
    modifies w
    ensures w.View() == IdsSaved(old(w.View()), b, env)
  {
    if env.hook.Some? && |txIds| > 0 {
      var record := w.GetBatch(b, env.saveReadOk);
      if record.Some? {
        var _ := w.UpdateBatch(record.value.(transactionIds := txIds), env.saveWriteOk);
      }
    }
  }

  /** One turn of the publishing loop: store the transaction on the job, publish, mark queued. */
  method PublishOne(w: Services, j: Job, i: nat, plan: Plan, env: ConfirmEnv, isUuid: Id -> bool)
    returns (owes: bool, published: bool, marked: bool)
    requires i < plan.count
    modifies w`jobs, w`jobEvents
    ensures w.jobs == DispatchOne(old(w.jobs), j.id, i, plan, env, isUuid)
    ensures w.jobEvents == if env.publishOk(i)
                           then old(w.jobEvents) + [EventFor(j, AssignTx(plan.txIds, plan.count, i), plan)]
                           else old(w.jobEvents)
    ensures var tx := AssignTx(plan.txIds, plan.count, i); owes == (tx.Some? && isUuid(tx.value))
    ensures published == env.publishOk(i)
    ensures marked == QueuedAt(env)(i)
  {
    owes, published, marked := false, false, false;
    ghost var rows := w.jobs;
    var tx := AssignTx(plan.txIds, plan.count, i);
    if tx.Some? && isUuid(tx.value) {
      w.UpdateBillingTransactionId(j.id, tx.value, env.txOk(i));
      owes := true;
    }
    if env.publishOk(i) {
      published := true;
      w.jobEvents := w.jobEvents + [EventFor(j, tx, plan)];
      marked := w.UpdateStatus(j.id, Queued, env.queueOk(i));
    }
    if j.id in rows {
      assert w.jobs[j.id] == DispatchedRow(rows[j.id], i, plan, env, isUuid);
    }
  }

  /** What the publishing loop has counted and gathered after n jobs. */
  datatype Progress = Progress(queued: nat, publishError: bool, owed: seq<Id>)

  function ProgressAt(plan: Plan, n: nat, env: ConfirmEnv, isUuid: Id -> bool): Progress
    requires n == 0 || n <= plan.count
  {
    Progress(QueuedCount(env, n), SomeFailed(env, n), Assigned(plan.txIds, plan.count, n, isUuid))
  }

  /** One turn with its bookkeeping, on table and topic as the turns before it left them. */
  method PublishNext(w: Services, jobs: seq<Job>, i: nat, plan: Plan, env: ConfirmEnv, isUuid: Id -> bool, p: Progress,
                     ghost rows: map<Id, Job>, ghost log: seq<JobEvent>) returns (q: Progress)
    requires i < |jobs| && i < plan.count && p == ProgressAt(plan, i, env, isUuid)
    requires w.jobs == DispatchRows(rows, jobs, i, plan, env, isUuid)
    requires w.jobEvents == log + Messages(jobs, i, plan, env)
    modifies w`jobs, w`jobEvents
    ensures w.jobs == DispatchRows(rows, jobs, i + 1, plan, env, isUuid)
    ensures w.jobEvents == log + Messages(jobs, i + 1, plan, env)
    ensures q == ProgressAt(plan, i + 1, env, isUuid)
  {
    q := p;
    Sequences.Joined(log, Messages(jobs, i, plan, env), [EventFor(jobs[i], AssignTx(plan.txIds, plan.count, i), plan)]);
    var owes, published, marked := PublishOne(w, jobs[i], i, plan, env, isUuid);
    if owes {
      q := q.(owed := q.owed + [AssignTx(plan.txIds, plan.count, i).value]);
    } else {
      assert q.owed + [] == q.owed;
    }
    if !published {
      q := q.(publishError := true);
    }
    if marked {
      q := q.(queued := q.queued + 1);
    }
  }

  /** The publishing loop of ConfirmBatch. */
  method PublishJobs(w: Services, jobs: seq<Job>, plan: Plan, env: ConfirmEnv, isUuid: Id -> bool) returns (p: Progress)
    modifies w`jobs, w`jobEvents
    ensures w.jobs == DispatchRows(old(w.jobs), jobs, Covered(plan.count, |jobs|), plan, env, isUuid)
    ensures w.jobEvents == old(w.jobEvents) + Messages(jobs, Covered(plan.count, |jobs|), plan, env)
    ensures p == ProgressAt(plan, Covered(plan.count, |jobs|), env, isUuid)
  {
    p := Progress(0, false, []);
    ghost var rows, log := w.jobs, w.jobEvents;
    var i: nat := 0;
    while i < |jobs|
      invariant i <= Covered(plan.count, |jobs|)
      invariant w.jobs == DispatchRows(rows, jobs, i, plan, env, isUuid)
      invariant w.jobEvents == log + Messages(jobs, i, plan, env)
      invariant p == ProgressAt(plan, i, env, isUuid)
      modifies w`jobs, w`jobEvents
    {
      if i >= plan.count {
        break;
      }
      p := PublishNext(w, jobs, i, plan, env, isUuid, p, rows, log);
      i := i + 1;
    }
  }

  /** The compensation of ConfirmBatch. */
  method Compensate(w: Services, b: Id, jobs: seq<Job>, queued: nat, owed: seq<Id>, count: int, env: ConfirmEnv)
    requires queued <= Covered(count, |jobs|)
    modifies w
    ensures var cancelled := MarkCancelled(RefundAssigned(old(w.View()), b, owed, env), b, env);
            w.View() == cancelled.(jobs := RefundRows(old(w.jobs), jobs, queued, Covered(count, |jobs|), env))
  {
    if |owed| > 0 && env.billing.Some? {
      if env.refundOk {
        w.refunds := w.refunds + [Refund(b, owed)];
      }
    }
    var record := w.GetBatch(b, env.cancelReadOk);
    if record.Some? {
      var _ := w.UpdateBatch(record.value.(status := Cancelled), env.cancelWriteOk);
    }
    MarkTail(w, jobs, queued, count, env);
  }

  method MarkTail(w: Services, jobs: seq<Job>, queued: nat, count: int, env: ConfirmEnv)
    requires queued <= Covered(count, |jobs|)
    modifies w`jobs
    ensures w.jobs == RefundRows(old(w.jobs), jobs, queued, Covered(count, |jobs|), env)
  {
    var i := queued;
    while i < |jobs| && i < count
      invariant queued <= i <= Covered(count, |jobs|)
      invariant w.jobs == RefundRows(old(w.jobs), jobs, queued, i, env)
      modifies w`jobs
    {
      var _ := w.UpdateStatus(jobs[i].id, Refunded, env.markOk(i));
      i := i + 1;
    }
  }
}
