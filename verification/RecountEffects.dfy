/** What a recount puts on the record of a batch, said on the rows of its jobs: once, and after any
    stream of results. */
module RecountEffects {
  import opened Domain
  import opened Backend
  import BatchManager
  import opened ResultHandler

  // ----- one recount ------------------------------------------------------------------------

  /** The counters are the numbers of finished and of failed jobs of the batch; it is completed, now,
      when none is left. */
  lemma RecountTells(s: State, b: Id, now: Time, io: BatchManager.RecountIO)
    requires s.Keyed() && b in s.batches && io.listOk && io.getOk && io.updateOk
    requires exists id :: id in s.jobs && s.jobs[id].batchId == b
    ensures b in BatchManager.Recounted(s, b, now, io).batches
    ensures BatchManager.Recounted(s, b, now, io).batches[b].completedCount
         == |set id | id in s.jobs && s.jobs[id].batchId == b
                      && (s.jobs[id].status == Completed || s.jobs[id].status == Refunded || s.jobs[id].status == Failed)|
    ensures BatchManager.Recounted(s, b, now, io).batches[b].failedCount
         == |set id | id in s.jobs && s.jobs[id].batchId == b && s.jobs[id].status == Failed|
    ensures var r := BatchManager.Recounted(s, b, now, io).batches[b];
            if forall id :: id in s.jobs && s.jobs[id].batchId == b
                 ==> s.jobs[id].status == Completed || s.jobs[id].status == Refunded || s.jobs[id].status == Failed
            then r.status == BatchCompleted && r.completedAt == Some(now)
            else r.status == BatchProcessing && r.completedAt == s.batches[b].completedAt
  {
    assert JobsOf(s.jobs, b) != {} by {
      var id :| id in s.jobs && s.jobs[id].batchId == b;
      assert id in JobsOf(s.jobs, b);
    }
    assert Select(s.jobs, b, IsFailed) == set id | id in s.jobs && s.jobs[id].batchId == b && s.jobs[id].status == Failed;
    assert Select(s.jobs, b, IsClosed)
        == set id | id in s.jobs && s.jobs[id].batchId == b
                    && (s.jobs[id].status == Completed || s.jobs[id].status == Refunded || s.jobs[id].status == Failed);
    ClosedIff(s.jobs, b);
  }

  lemma ClosedIff(rows: map<Id, Job>, b: Id)
    ensures Select(rows, b, IsClosed) == JobsOf(rows, b)
       <==> forall id :: id in rows && rows[id].batchId == b
              ==> rows[id].status == Completed || rows[id].status == Refunded || rows[id].status == Failed
  {
    if Select(rows, b, IsClosed) == JobsOf(rows, b) {
      forall id | id in rows && rows[id].batchId == b
        ensures rows[id].status == Completed || rows[id].status == Refunded || rows[id].status == Failed
      {
        assert id in JobsOf(rows, b);
      }
    }
  }

  /** Nothing else changes but for one message, about the new record. */
  lemma RecountTouches(s: State, b: Id, now: Time, io: BatchManager.RecountIO)
    requires s.Keyed() && b in s.batches && io.listOk && io.getOk && io.updateOk
    requires exists id :: id in s.jobs && s.jobs[id].batchId == b
    ensures var t := BatchManager.Recounted(s, b, now, io);
            && t.jobs == s.jobs && t.refunds == s.refunds && t.jobEvents == s.jobEvents
            && t.batches.Keys == s.batches.Keys && (forall c :: c in s.batches && c != b ==> t.batches[c] == s.batches[c])
            && t.batches[b].totalRows == s.batches[b].totalRows && t.batches[b].validRows == s.batches[b].validRows
            && t.batches[b].approvedCount == s.batches[b].approvedCount
            && t.batches[b].transactionIds == s.batches[b].transactionIds
    ensures var t, e := BatchManager.Recounted(s, b, now, io), BatchManager.Recounted(s, b, now, io).statusEvents;
            && |e| == |s.statusEvents| + 1 && e[..|s.statusEvents|] == s.statusEvents
            && e[|s.statusEvents|].batchId == b && e[|s.statusEvents|].status == t.batches[b].status
            && e[|s.statusEvents|].total == t.batches[b].totalRows
            && e[|s.statusEvents|].completed == t.batches[b].completedCount
            && e[|s.statusEvents|].failed == t.batches[b].failedCount
  {
    assert JobsOf(s.jobs, b) != {} by {
      var id :| id in s.jobs && s.jobs[id].batchId == b;
      assert id in JobsOf(s.jobs, b);
    }
  }

  /** A recount that a query fails, of an unknown batch or of one without jobs, does nothing. */
  lemma RecountSkips(s: State, b: Id, now: Time, io: BatchManager.RecountIO)
    requires !io.listOk || !io.getOk || !io.updateOk || b !in s.batches || forall id :: id in s.jobs ==> s.jobs[id].batchId != b
    ensures BatchManager.Recounted(s, b, now, io) == s
  {
  }

  // ----- after a stream ---------------------------------------------------------------------

  /** The status of a job after a stream of results. */
  function StatusOf(rows: map<Id, Job>, stream: seq<Delivery>, id: Id): JobStatus
    requires id in rows
  {
    if LastFor(stream, id).Some? then LastFor(stream, id).value.status else rows[id].status
  }

  lemma StatusStored(rows: map<Id, Job>, stream: seq<Delivery>, isUuid: Id -> bool, b: Id)
    ensures StoredAll(rows, stream, isUuid).Keys == rows.Keys
    ensures forall id :: id in rows ==>
              && StoredAll(rows, stream, isUuid)[id].batchId == rows[id].batchId
              && StoredAll(rows, stream, isUuid)[id].status == StatusOf(rows, stream, id)
  {
    HomesKept(rows, stream, isUuid);
    forall id | id in rows ensures StoredAll(rows, stream, isUuid)[id].status == StatusOf(rows, stream, id) {
      JobAfterStream(rows, stream, isUuid, id);
    }
  }

  lemma CountedAfterStream(rows: map<Id, Job>, stream: seq<Delivery>, isUuid: Id -> bool, b: Id)
    ensures Select(StoredAll(rows, stream, isUuid), b, IsFailed)
         == set id | id in rows && rows[id].batchId == b && StatusOf(rows, stream, id) == Failed
    ensures Select(StoredAll(rows, stream, isUuid), b, IsClosed)
         == set id | id in rows && rows[id].batchId == b
                     && (StatusOf(rows, stream, id) == Completed || StatusOf(rows, stream, id) == Refunded
                         || StatusOf(rows, stream, id) == Failed)
  {
    StatusStored(rows, stream, isUuid, b);
  }

  /** After any stream that names a batch, its completed counter is the number of its jobs whose last
      status is completed, refunded or failed, and its failed counter the number of those whose last
      status is failed. */
  lemma CountsAfterStream(s: State, stream: seq<Delivery>, isUuid: Id -> bool, b: Id)
    requires s.Keyed() && Routed(s, stream) && b in s.batches && b in Named(stream)
    requires exists id :: id in s.jobs && s.jobs[id].batchId == b
    ensures b in Consumed(s, stream, isUuid).batches
    ensures Consumed(s, stream, isUuid).batches[b].completedCount
         == |set id | id in s.jobs && s.jobs[id].batchId == b
                      && (StatusOf(s.jobs, stream, id) == Completed || StatusOf(s.jobs, stream, id) == Refunded
                          || StatusOf(s.jobs, stream, id) == Failed)|
    ensures Consumed(s, stream, isUuid).batches[b].failedCount
         == |set id | id in s.jobs && s.jobs[id].batchId == b && StatusOf(s.jobs, stream, id) == Failed|
  {
    var u := Consumed(s, stream, isUuid);
    assert JobsOf(s.jobs, b) != {} by {
      var id :| id in s.jobs && s.jobs[id].batchId == b;
      assert id in JobsOf(s.jobs, b);
    }
    BatchAfterStream(s, stream, isUuid, b);
    AlikeFields(u.batches[b], Implied(s.batches[b], u.jobs));
    CountedAfterStream(s.jobs, stream, isUuid, b);
  }

  /** After the first n messages of a stream no job of the batch is left over. */
  ghost predicate DoneAt(s: State, stream: seq<Delivery>, n: nat, b: Id)
    requires n <= |stream|
  {
    forall id :: id in s.jobs && s.jobs[id].batchId == b
      ==> var status := StatusOf(s.jobs, stream[..n], id); status == Completed || status == Refunded || status == Failed
  }

  /** The message at position i names the batch and finds all its jobs finished. */
  ghost predicate Completes(s: State, stream: seq<Delivery>, i: nat, b: Id)
    requires i < |stream|
  {
    stream[i].event.batchId == b && DoneAt(s, stream, i + 1, b)
  }

  /** The last message that does. */
  ghost predicate IsLast(s: State, stream: seq<Delivery>, i: nat, b: Id) {
    i < |stream| && Completes(s, stream, i, b) && forall j: nat :: i < j < |stream| ==> !Completes(s, stream, j, b)
  }

  /** No job of the batch is left over. */
  ghost predicate AllDone(rows: map<Id, Job>, b: Id) {
    forall id :: id in rows && rows[id].batchId == b
      ==> rows[id].status == Completed || rows[id].status == Refunded || rows[id].status == Failed
  }

  lemma CompletesIff(s: State, stream: seq<Delivery>, isUuid: Id -> bool, i: nat, b: Id)
    requires i < |stream|
    ensures Completes(s, stream, i, b)
       <==> stream[i].event.batchId == b && AllDone(StoredAll(s.jobs, stream[..i + 1], isUuid), b)
  {
    var rows := StoredAll(s.jobs, stream[..i + 1], isUuid);
    StatusStored(s.jobs, stream[..i + 1], isUuid, b);
    if AllDone(rows, b) {
      forall id | id in s.jobs && s.jobs[id].batchId == b
        ensures var status := StatusOf(s.jobs, stream[..i + 1], id); status == Completed || status == Refunded || status == Failed
      {
        assert id in rows && rows[id].batchId == b;
      }
    }
  }

  /** The time of the last of the first n messages that completes the batch, or the time before. */
  ghost function TimeAt(s: State, stream: seq<Delivery>, isUuid: Id -> bool, n: nat, b: Id): Option<Time>
    requires n <= |stream| && b in s.batches
  {
    if n == 0 then s.batches[b].completedAt
    else if stream[n - 1].event.batchId == b && AllDone(StoredAll(s.jobs, stream[..n], isUuid), b) then Some(stream[n - 1].now)
    else TimeAt(s, stream, isUuid, n - 1, b)
  }

  lemma {:induction false} TimeBefore(s: State, stream: seq<Delivery>, isUuid: Id -> bool, n: nat, b: Id)
    requires n <= |stream| && b in s.batches
    requires forall j: nat :: j < n ==> !Completes(s, stream, j, b)
    ensures TimeAt(s, stream, isUuid, n, b) == s.batches[b].completedAt
  {
    if n > 0 {
      CompletesIff(s, stream, isUuid, n - 1, b);
      TimeBefore(s, stream, isUuid, n - 1, b);
    }
  }

  lemma {:induction false} TimeOfLast(s: State, stream: seq<Delivery>, isUuid: Id -> bool, n: nat, b: Id, i: nat)
    requires i < n <= |stream| && b in s.batches && Completes(s, stream, i, b)
    requires forall j: nat :: i < j < n ==> !Completes(s, stream, j, b)
    ensures TimeAt(s, stream, isUuid, n, b) == Some(stream[i].now)
  {
    CompletesIff(s, stream, isUuid, n - 1, b);
    if i < n - 1 {
      TimeOfLast(s, stream, isUuid, n - 1, b, i);
    }
  }

  /** One more message of a stream. */
  lemma ConsumedStep(s: State, stream: seq<Delivery>, isUuid: Id -> bool, n: nat)
    requires 0 < n <= |stream|
    ensures var before, last := Consumed(s, stream[..n - 1], isUuid), stream[n - 1];
            Consumed(s, stream[..n], isUuid)
            == BatchManager.Recounted(before.(jobs := StoredAll(s.jobs, stream[..n], isUuid)), last.event.batchId, last.now, RELIABLE.recount)
  {
    assert stream[..n][..n - 1] == stream[..n - 1];
  }

  lemma OneRecount(before: State, last: Delivery, b: Id)
    requires before.Keyed() && b in before.batches && JobsOf(before.jobs, b) != {}
    ensures var t := BatchManager.Recounted(before, last.event.batchId, last.now, RELIABLE.recount);
            && t.Keyed() && b in t.batches
            && t.batches[b].completedAt
               == (if last.event.batchId == b && AllDone(before.jobs, b) then Some(last.now) else before.batches[b].completedAt)
  {
    if last.event.batchId == b {
      var id :| id in JobsOf(before.jobs, b);
      RecountTells(before, b, last.now, RELIABLE.recount);
    } else {
      RecountOther(before, last.event.batchId, last.now, b);
    }
  }

  lemma {:induction false} TimeAfter(s: State, stream: seq<Delivery>, isUuid: Id -> bool, n: nat, b: Id)
    requires s.Keyed() && b in s.batches && n <= |stream| && JobsOf(s.jobs, b) != {}
    ensures Consumed(s, stream[..n], isUuid).Keyed() && b in Consumed(s, stream[..n], isUuid).batches
    ensures Consumed(s, stream[..n], isUuid).batches[b].completedAt == TimeAt(s, stream, isUuid, n, b)
  {
    if n > 0 {
      TimeAfter(s, stream, isUuid, n - 1, b);
      ConsumedStep(s, stream, isUuid, n);
      HomesKept(s.jobs, stream[..n], isUuid);
      JobsOfSame(StoredAll(s.jobs, stream[..n], isUuid), s.jobs, b);
      OneRecount(Consumed(s, stream[..n - 1], isUuid).(jobs := StoredAll(s.jobs, stream[..n], isUuid)), stream[n - 1], b);
    }
  }

  /** The completion time after a stream is that of the last message that names the batch and finds all
      its jobs finished, or as before when there is none. A later message that finds one unfinished
      again leaves the time in place. */
  lemma CompletedAtAfterStream(s: State, stream: seq<Delivery>, isUuid: Id -> bool, b: Id)
    requires s.Keyed() && b in s.batches && exists id :: id in s.jobs && s.jobs[id].batchId == b
    ensures b in Consumed(s, stream, isUuid).batches
    ensures (forall i: nat :: i < |stream| ==> !Completes(s, stream, i, b))
        ==> Consumed(s, stream, isUuid).batches[b].completedAt == s.batches[b].completedAt
    ensures forall i: nat | IsLast(s, stream, i, b) :: Consumed(s, stream, isUuid).batches[b].completedAt == Some(stream[i].now)
  {
    assert JobsOf(s.jobs, b) != {} by {
      var id :| id in s.jobs && s.jobs[id].batchId == b;
      assert id in JobsOf(s.jobs, b);
    }
    TimeAfter(s, stream, isUuid, |stream|, b);
    assert stream[..|stream|] == stream;
    if forall i: nat :: i < |stream| ==> !Completes(s, stream, i, b) {
      TimeBefore(s, stream, isUuid, |stream|, b);
    }
    forall i: nat | IsLast(s, stream, i, b) ensures TimeAt(s, stream, isUuid, |stream|, b) == Some(stream[i].now) {
      TimeOfLast(s, stream, isUuid, |stream|, b, i);
    }
  }
}
