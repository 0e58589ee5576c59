/** What a confirmation does to the jobs of the batch and to the bulk.job topic, job by job. */
module ConfirmEffects {
  import opened Domain
  import opened Flags
  import opened Backend
  import opened Confirm

  /** The publishing loop touches each of the first n rows once, by the answers for its own index. */
  lemma {:induction false} DispatchedJob(rows: map<Id, Job>, jobs: seq<Job>, n: nat, plan: Plan, env: ConfirmEnv, isUuid: Id -> bool, k: nat)
    requires n <= Covered(plan.count, |jobs|) && k < |jobs| && jobs[k].id in rows
    requires forall i, j :: 0 <= i < j < |jobs| ==> jobs[i].id != jobs[j].id
    ensures jobs[k].id in DispatchRows(rows, jobs, n, plan, env, isUuid)
    ensures DispatchRows(rows, jobs, n, plan, env, isUuid)[jobs[k].id]
         == if k < n then DispatchedRow(rows[jobs[k].id], k, plan, env, isUuid) else rows[jobs[k].id]
  {
    if n > 0 {
      DispatchedJob(rows, jobs, n - 1, plan, env, isUuid, k);
    }
  }

  lemma {:induction false} DispatchedOther(rows: map<Id, Job>, jobs: seq<Job>, n: nat, plan: Plan, env: ConfirmEnv, isUuid: Id -> bool, id: Id)
    requires n <= Covered(plan.count, |jobs|) && id in rows
    requires forall k :: 0 <= k < |jobs| ==> jobs[k].id != id
    ensures id in DispatchRows(rows, jobs, n, plan, env, isUuid)
    ensures DispatchRows(rows, jobs, n, plan, env, isUuid)[id] == rows[id]
  {
    if n > 0 {
      DispatchedOther(rows, jobs, n - 1, plan, env, isUuid, id);
    }
  }

  /** The marking loop of the compensation refunds the rows at indices first to n - 1, no other. */
  lemma {:induction false} RefundedJob(rows: map<Id, Job>, jobs: seq<Job>, first: nat, n: nat, env: ConfirmEnv, k: nat)
    requires first <= n <= |jobs| && k < |jobs| && jobs[k].id in rows
    requires forall i, j :: 0 <= i < j < |jobs| ==> jobs[i].id != jobs[j].id
    ensures jobs[k].id in RefundRows(rows, jobs, first, n, env)
    ensures RefundRows(rows, jobs, first, n, env)[jobs[k].id]
         == if first <= k < n && env.markOk(k) then rows[jobs[k].id].(status := Refunded) else rows[jobs[k].id]
    decreases n
  {
    if first < n {
      RefundedJob(rows, jobs, first, n - 1, env, k);
    }
  }

  lemma {:induction false} RefundedOther(rows: map<Id, Job>, jobs: seq<Job>, first: nat, n: nat, env: ConfirmEnv, id: Id)
    requires first <= n <= |jobs| && id in rows
    requires forall k :: 0 <= k < |jobs| ==> jobs[k].id != id
    ensures id in RefundRows(rows, jobs, first, n, env)
    ensures RefundRows(rows, jobs, first, n, env)[id] == rows[id]
    decreases n
  {
    if first < n {
      RefundedOther(rows, jobs, first, n - 1, env, id);
    }
  }

  /** The job table after a confirmation that went through. */
  lemma ConfirmedRows(s: State, b: Id, count: int, jobs: seq<Job>, env: ConfirmEnv, isUuid: Id -> bool)
    requires ConfirmedResult(s, b, count, jobs, env).Confirmed?
    ensures var n, plan := Covered(count, |jobs|), PlanFor(IdsSaved(s, b, env), b, count, env);
            var sent := DispatchRows(s.jobs, jobs, n, plan, env, isUuid);
            ConfirmedState(s, b, count, jobs, env, isUuid).jobs ==
            if SomeFailed(env, n) then RefundRows(sent, jobs, QueuedCount(env, n), n, env) else sent
  {
  }

  /** The status of the job at index k after the whole confirmation. */
  function FinalStatus(was: JobStatus, k: nat, n: nat, env: ConfirmEnv): JobStatus {
    if SomeFailed(env, n) && QueuedCount(env, n) <= k && env.markOk(k) then Refunded
    else if QueuedAt(env)(k) then Queued
    else was
  }

  /** The job at an index ends as FinalStatus says if it is covered, and keeps its row otherwise. */
  lemma ConfirmedJob(s: State, b: Id, count: int, jobs: seq<Job>, env: ConfirmEnv, isUuid: Id -> bool, k: nat)
    requires IsListing(s.jobs, b, jobs) && k < |jobs|
    requires ConfirmedResult(s, b, count, jobs, env).Confirmed?
    ensures var row, n := ConfirmedState(s, b, count, jobs, env, isUuid).jobs[jobs[k].id], Covered(count, |jobs|);
            if k < n then row.status == FinalStatus(jobs[k].status, k, n, env) else row == jobs[k]
  {
    var n, plan := Covered(count, |jobs|), PlanFor(IdsSaved(s, b, env), b, count, env);
    ConfirmedRows(s, b, count, jobs, env, isUuid);
    DispatchedJob(s.jobs, jobs, n, plan, env, isUuid, k);
    RefundedJob(DispatchRows(s.jobs, jobs, n, plan, env, isUuid), jobs, QueuedCount(env, n), n, env, k);
  }

  /** Jobs of other batches keep their rows. */
  lemma ConfirmedOther(s: State, b: Id, count: int, jobs: seq<Job>, env: ConfirmEnv, isUuid: Id -> bool, id: Id)
    requires IsListing(s.jobs, b, jobs) && id in s.jobs && s.jobs[id].batchId != b
    ensures ConfirmedState(s, b, count, jobs, env, isUuid).jobs[id] == s.jobs[id]
  {
    if ConfirmedResult(s, b, count, jobs, env).Confirmed? {
      var n, plan := Covered(count, |jobs|), PlanFor(IdsSaved(s, b, env), b, count, env);
      ConfirmedRows(s, b, count, jobs, env, isUuid);
      DispatchedOther(s.jobs, jobs, n, plan, env, isUuid, id);
      RefundedOther(DispatchRows(s.jobs, jobs, n, plan, env, isUuid), jobs, QueuedCount(env, n), n, env, id);
    }
  }

  // ----- compensation against failures ------------------------------------------------------

  function PublishedAt(env: ConfirmEnv): nat -> bool {
    (i: nat) => env.publishOk(i)
  }

  lemma QueuedIsPublished(env: ConfirmEnv, n: nat)
    requires env.ReliableUpdates(n)
    ensures QueuedCount(env, n) == CountTrue(PublishedAt(env), n)
  {
    CountAgrees(QueuedAt(env), PublishedAt(env), n);
  }

  lemma {:induction false} SomeFailedCount(env: ConfirmEnv, n: nat)
    ensures SomeFailed(env, n) <==> CountTrue(PublishedAt(env), n) < n
  {
    if n > 0 {
      SomeFailedCount(env, n - 1);
    }
  }

  /** Every covered job ends either published and queued, or unpublished and refunded. */
  ghost predicate AllOrNothing(t: State, jobs: seq<Job>, n: nat, env: ConfirmEnv)
    requires n <= |jobs| && forall k :: 0 <= k < |jobs| ==> jobs[k].id in t.jobs
  {
    forall k: nat :: k < n ==> t.jobs[jobs[k].id].status == if env.publishOk(k) then Queued else Refunded
  }

  /** Compensation marks as many jobs as failed to be published, but the last ones of the listing:
      it undoes the right jobs if and only if no publication succeeded after one that failed. A
      producer that stays down once it failed is such a case. */
  lemma CompensationExactIff(s: State, b: Id, count: int, jobs: seq<Job>, env: ConfirmEnv, isUuid: Id -> bool)
    requires IsListing(s.jobs, b, jobs)
    requires ConfirmedResult(s, b, count, jobs, env).Confirmed?
    requires env.ReliableUpdates(Covered(count, |jobs|))
    ensures var t, n := ConfirmedState(s, b, count, jobs, env, isUuid), Covered(count, |jobs|);
            && AllOrNothing(t, jobs, n, env) <==> YesThenNo(PublishedAt(env), n)
  {
    var t, n := ConfirmedState(s, b, count, jobs, env, isUuid), Covered(count, |jobs|);
    var q := QueuedCount(env, n);
    QueuedIsPublished(env, n);
    SomeFailedCount(env, n);
    PrefixIff(PublishedAt(env), n);
    if YesThenNo(PublishedAt(env), n) {
      forall k: nat | k < n
        ensures t.jobs[jobs[k].id].status == if env.publishOk(k) then Queued else Refunded
      {
        ConfirmedJob(s, b, count, jobs, env, isUuid, k);
        assert PublishedAt(env)(k) <==> k < q;
      }
    } else {
      var yes, no := Misplaced(PublishedAt(env), n);
      ConfirmedJob(s, b, count, jobs, env, isUuid, yes);
      assert t.jobs[jobs[yes].id].status == Refunded && env.publishOk(yes);
    }
  }

  /** The other side of the same coin: when a publication succeeds after a failed one, some job is
      refunded although its message is out, and some job that was never published keeps its status. */
  lemma MisdirectedCompensation(s: State, b: Id, count: int, jobs: seq<Job>, env: ConfirmEnv, isUuid: Id -> bool)
    returns (sent: nat, lost: nat)
    requires IsListing(s.jobs, b, jobs)
    requires ConfirmedResult(s, b, count, jobs, env).Confirmed?
    requires env.ReliableUpdates(Covered(count, |jobs|))
    requires !YesThenNo(PublishedAt(env), Covered(count, |jobs|))
    ensures var t := ConfirmedState(s, b, count, jobs, env, isUuid);
            && lost < sent < Covered(count, |jobs|)
            && env.publishOk(sent) && t.jobs[jobs[sent].id].status == Refunded
            && !env.publishOk(lost) && t.jobs[jobs[lost].id].status == jobs[lost].status
  {
    var n := Covered(count, |jobs|);
    QueuedIsPublished(env, n);
    SomeFailedCount(env, n);
    sent, lost := Misplaced(PublishedAt(env), n);
    ConfirmedJob(s, b, count, jobs, env, isUuid, sent);
    ConfirmedJob(s, b, count, jobs, env, isUuid, lost);
  }

  // ----- the messages -----------------------------------------------------------------------

  /** The message of job k stands after those of the published jobs before it. */
  lemma {:induction false} MessageAt(jobs: seq<Job>, n: nat, plan: Plan, env: ConfirmEnv, k: nat)
    requires n <= Covered(plan.count, |jobs|)
    ensures |Messages(jobs, n, plan, env)| == CountTrue(PublishedAt(env), n)
    ensures k < n && env.publishOk(k) ==>
              var at := CountTrue(PublishedAt(env), k);
              && at < CountTrue(PublishedAt(env), n)
              && Messages(jobs, n, plan, env)[at] == EventFor(jobs[k], AssignTx(plan.txIds, plan.count, k), plan)
  {
    if n > 0 {
      MessageAt(jobs, n - 1, plan, env, k);
    }
  }

  /** The job behind the message at a position of the log. */
  lemma {:induction false} EventOrigin(f: nat -> bool, n: nat, at: nat) returns (k: nat)
    requires at < CountTrue(f, n)
    ensures k < n && f(k) && CountTrue(f, k) == at
  {
    if at < CountTrue(f, n - 1) {
      k := EventOrigin(f, n - 1, at);
    } else {
      k := n - 1;
    }
  }

  ghost predicate NoSharedIds(events: seq<JobEvent>) {
    forall p, q :: 0 <= p < q < |events| && events[p].transactionId.Some? && events[q].transactionId.Some?
      ==> events[p].transactionId != events[q].transactionId
  }

  /** The messages a confirmation adds to the topic. */
  function NewEvents(s: State, b: Id, count: int, jobs: seq<Job>, env: ConfirmEnv): seq<JobEvent>
    requires ConfirmedResult(s, b, count, jobs, env).Confirmed?
  {
    Messages(jobs, Covered(count, |jobs|), PlanFor(IdsSaved(s, b, env), b, count, env), env)
  }

  /** Exactly the published jobs have a message, in job order. */
  lemma ConfirmedEvents(s: State, b: Id, count: int, jobs: seq<Job>, env: ConfirmEnv, isUuid: Id -> bool)
    requires ConfirmedResult(s, b, count, jobs, env).Confirmed?
    ensures ConfirmedState(s, b, count, jobs, env, isUuid).jobEvents == s.jobEvents + NewEvents(s, b, count, jobs, env)
    ensures |NewEvents(s, b, count, jobs, env)| == CountTrue(PublishedAt(env), Covered(count, |jobs|))
  {
    MessageAt(jobs, Covered(count, |jobs|), PlanFor(IdsSaved(s, b, env), b, count, env), env, 0);
  }

  /** The message at a position belongs to the published job with that many published jobs before
      it; it carries that job's transaction and is marked pre-approved just when there is one. */
  lemma EventOf(s: State, b: Id, count: int, jobs: seq<Job>, env: ConfirmEnv, at: nat) returns (k: nat)
    requires ConfirmedResult(s, b, count, jobs, env).Confirmed?
    requires at < |NewEvents(s, b, count, jobs, env)|
    ensures k < Covered(count, |jobs|) && env.publishOk(k) && CountTrue(PublishedAt(env), k) == at
    ensures var e := NewEvents(s, b, count, jobs, env)[at];
            && e.jobId == jobs[k].id && e.batchId == jobs[k].batchId
            && e.rowNumber == jobs[k].rowNumber && e.fields == jobs[k].fields
            && e.userId == (if env.infoOk && b in s.batches then s.batches[b].userId else "")
            && e.revision == (if env.infoOk && b in s.batches then s.batches[b].revision else "")
            && e.transactionId == AssignTx(env.Reservation().ids, count, k)
            && (e.preApproved <==> e.transactionId.Some?)
  {
    var n, plan := Covered(count, |jobs|), PlanFor(IdsSaved(s, b, env), b, count, env);
    MessageAt(jobs, n, plan, env, 0);
    k := EventOrigin(PublishedAt(env), n, at);
    MessageAt(jobs, n, plan, env, k);
  }

  /** With distinct reserved ids, no two messages share a transaction if and only if the reservation
      did not consist of a single id or at most one job was published. */
  lemma NoSharedIdsIff(s: State, b: Id, count: int, jobs: seq<Job>, env: ConfirmEnv)
    requires ConfirmedResult(s, b, count, jobs, env).Confirmed?
    requires var ids := env.Reservation().ids; forall i, j :: 0 <= i < j < |ids| ==> ids[i] != ids[j]
    ensures NoSharedIds(NewEvents(s, b, count, jobs, env)) <==>
            |env.Reservation().ids| != 1 || CountTrue(PublishedAt(env), Covered(count, |jobs|)) <= 1
  {
    var n, ids := Covered(count, |jobs|), env.Reservation().ids;
    var e := NewEvents(s, b, count, jobs, env);
    MessageAt(jobs, n, PlanFor(IdsSaved(s, b, env), b, count, env), env, 0);
    if |ids| == 1 && |e| > 1 {
      var k0 := EventOf(s, b, count, jobs, env, 0);
      var k1 := EventOf(s, b, count, jobs, env, 1);
      assert e[0].transactionId == Some(ids[0]) == e[1].transactionId;
    } else {
      forall p, q | 0 <= p < q < |e| && e[p].transactionId.Some? && e[q].transactionId.Some?
        ensures e[p].transactionId != e[q].transactionId
      {
        var k0 := EventOf(s, b, count, jobs, env, p);
        var k1 := EventOf(s, b, count, jobs, env, q);
        AssignTxIsPositional(ids, count, k0);
        AssignTxIsPositional(ids, count, k1);
        assert k0 != k1;
      }
    }
  }

  // ----- the same on the rows and the record ------------------------------------------------

  lemma {:induction false} SomeFailedIff(env: ConfirmEnv, n: nat)
    ensures SomeFailed(env, n) <==> exists k: nat :: k < n && !env.publishOk(k)
  {
    if n > 0 {
      SomeFailedIff(env, n - 1);
      if k: nat :| k < n && !env.publishOk(k) {
        assert k == n - 1 || k < n - 1;
      }
    }
  }

  /** The number that a confirmation answers: the covered jobs that were published and marked. */
  lemma QueuedAnswered(s: State, b: Id, count: int, jobs: seq<Job>, env: ConfirmEnv)
    requires ConfirmedResult(s, b, count, jobs, env).Confirmed?
    ensures ConfirmedResult(s, b, count, jobs, env).queued
         == |set k: nat | k < |jobs| && k < count && env.publishOk(k) && env.queueOk(k)|
  {
    var n := Covered(count, |jobs|);
    QueuedSize(env, n);
    assert (set k: nat | k < |jobs| && k < count && env.publishOk(k) && env.queueOk(k))
        == QueuedSet(env, n);
  }

  function QueuedSet(env: ConfirmEnv, n: nat): set<nat> {
    set k: nat | k < n && env.publishOk(k) && env.queueOk(k)
  }

  lemma QueuedSetGrows(env: ConfirmEnv, n: nat)
    ensures QueuedSet(env, n + 1) == if env.publishOk(n) && env.queueOk(n) then QueuedSet(env, n) + {n} else QueuedSet(env, n)
  {
  }

  lemma {:induction false} QueuedSize(env: ConfirmEnv, n: nat)
    ensures QueuedCount(env, n) == |QueuedSet(env, n)|
  {
    if n == 0 {
      assert QueuedSet(env, 0) == {};
    } else {
      QueuedSize(env, n - 1);
      QueuedSetGrows(env, n - 1);
    }
  }

  /** The row of the job at index k: a covered job gets its transaction, if it has a well-formed one that
      could be stored, and its status; nothing else of any row changes. */
  lemma ConfirmedJobRow(s: State, b: Id, count: int, jobs: seq<Job>, env: ConfirmEnv, isUuid: Id -> bool, k: nat)
    requires IsListing(s.jobs, b, jobs) && k < |jobs|
    requires ConfirmedResult(s, b, count, jobs, env).Confirmed?
    ensures var row, ids, q := ConfirmedState(s, b, count, jobs, env, isUuid).jobs[jobs[k].id], env.Reservation().ids,
                               ConfirmedResult(s, b, count, jobs, env).queued;
            var tx := if |ids| == 1 then Some(ids[0]) else if k < |ids| then Some(ids[k]) else None;
            && row == jobs[k].(status := row.status, billingTx := row.billingTx)
            && row.billingTx == (if k < count && tx.Some? && isUuid(tx.value) && env.txOk(k) then tx else jobs[k].billingTx)
            && row.status == if k < count && (exists i: nat :: i < |jobs| && i < count && !env.publishOk(i)) && q <= k && env.markOk(k)
                             then Refunded
                             else if k < count && env.publishOk(k) && env.queueOk(k) then Queued
                             else jobs[k].status
  {
    var n, plan := Covered(count, |jobs|), PlanFor(IdsSaved(s, b, env), b, count, env);
    ConfirmedRows(s, b, count, jobs, env, isUuid);
    DispatchedJob(s.jobs, jobs, n, plan, env, isUuid, k);
    RefundedJob(DispatchRows(s.jobs, jobs, n, plan, env, isUuid), jobs, QueuedCount(env, n), n, env, k);
    if k < n {
      AssignTxIsPositional(plan.txIds, count, k);
    }
    FailedCovered(count, jobs, env);
  }

  lemma FailedCovered(count: int, jobs: seq<Job>, env: ConfirmEnv)
    ensures SomeFailed(env, Covered(count, |jobs|)) <==> exists i: nat :: i < |jobs| && i < count && !env.publishOk(i)
  {
    SomeFailedIff(env, Covered(count, |jobs|));
    if i: nat :| i < |jobs| && i < count && !env.publishOk(i) {
      assert i < Covered(count, |jobs|);
    }
  }

  /** The record of the batch: cancelled when a publication failed, as far as that can be written, and
      holding the ids of the hook, if there were any and they could be stored. */
  lemma ConfirmedRecord(s: State, b: Id, count: int, jobs: seq<Job>, env: ConfirmEnv, isUuid: Id -> bool)
    requires s.Keyed() && b in s.batches && ConfirmedResult(s, b, count, jobs, env).Confirmed?
    ensures b in ConfirmedState(s, b, count, jobs, env, isUuid).batches
    ensures var r, was := ConfirmedState(s, b, count, jobs, env, isUuid).batches[b], s.batches[b];
            && r.status == (if (exists i: nat :: i < |jobs| && i < count && !env.publishOk(i)) && env.cancelReadOk && env.cancelWriteOk
                            then Cancelled else was.status)
            && r.transactionIds == (if env.hook.Some? && env.hook.value.ids != [] && env.saveReadOk && env.saveWriteOk
                                    then env.hook.value.ids else was.transactionIds)
            && r.totalRows == was.totalRows && r.validRows == was.validRows && r.approvedCount == was.approvedCount
            && r.completedCount == was.completedCount && r.failedCount == was.failedCount && r.completedAt == was.completedAt
  {
    var saved := IdsSaved(s, b, env);
    FailedCovered(count, jobs, env);
    DeliveredRecord(saved, b, jobs, PlanFor(saved, b, count, env), env, isUuid);
  }

  lemma DeliveredRecord(s: State, b: Id, jobs: seq<Job>, plan: Plan, env: ConfirmEnv, isUuid: Id -> bool)
    requires s.Keyed() && b in s.batches
    ensures b in Delivered(s, b, jobs, plan, env, isUuid).batches
    ensures var r, was := Delivered(s, b, jobs, plan, env, isUuid).batches[b], s.batches[b];
            && r.status == (if SomeFailed(env, Covered(plan.count, |jobs|)) && env.cancelReadOk && env.cancelWriteOk then Cancelled else was.status)
            && r.transactionIds == was.transactionIds
            && r.totalRows == was.totalRows && r.validRows == was.validRows && r.approvedCount == was.approvedCount
            && r.completedCount == was.completedCount && r.failedCount == was.failedCount && r.completedAt == was.completedAt
  {
  }

  /** Other batches keep their records, and no status message is sent. */
  lemma ConfirmedElsewhere(s: State, b: Id, count: int, jobs: seq<Job>, env: ConfirmEnv, isUuid: Id -> bool, x: Id)
    requires s.Keyed() && x in s.batches && x != b
    ensures var t := ConfirmedState(s, b, count, jobs, env, isUuid);
            x in t.batches && t.batches[x] == s.batches[x] && t.statusEvents == s.statusEvents
  {
    if env.Reservation().Reserved? {
      var saved := IdsSaved(s, b, env);
      DeliveredElsewhere(saved, b, jobs, PlanFor(saved, b, count, env), env, isUuid, x);
    }
  }

  lemma DeliveredElsewhere(s: State, b: Id, jobs: seq<Job>, plan: Plan, env: ConfirmEnv, isUuid: Id -> bool, x: Id)
    requires s.Keyed() && x in s.batches && x != b
    ensures var t := Delivered(s, b, jobs, plan, env, isUuid);
            x in t.batches && t.batches[x] == s.batches[x] && t.statusEvents == s.statusEvents
  {
  }
}
