/** The handler of bulk.result messages, and what a whole stream of them does to the tables. */
module ResultHandler {
  import opened Domain
  import opened Backend
  import opened BatchManager

  /** An empty build id stands for an absent one, as in the decoded message. */
  datatype ResultEvent = ResultEvent(
    jobId: Id,
    batchId: Id,
    status: JobStatus,
    buildId: string,
    barcodeUrls: Option<map<string, string>>,
    billingTx: Option<Id>)

  datatype HandlerIO = HandlerIO(jobOk: bool, recount: RecountIO)

  const RELIABLE := HandlerIO(true, RecountIO(true, true, true))

  function NonEmpty(text: string): Option<string> {
    if text == "" then None else Some(text)
  }

  function EventTx(ev: ResultEvent, isUuid: Id -> bool): Option<Id> {
    if ev.billingTx.Some? && isUuid(ev.billingTx.value) then ev.billingTx else None
  }

  /** A job row after a result message: every result column is overwritten. */
  function Overwritten(j: Job, ev: ResultEvent, isUuid: Id -> bool): Job {
    j.(status := ev.status, billingTx := EventTx(ev, isUuid),
       outcome := Outcome(NonEmpty(ev.buildId), ev.barcodeUrls, None, None))
  }

  function Stored(rows: map<Id, Job>, ev: ResultEvent, isUuid: Id -> bool): map<Id, Job> {
    if ev.jobId in rows then rows[ev.jobId := Overwritten(rows[ev.jobId], ev, isUuid)] else rows
  }

  function Handled(s: State, ev: ResultEvent, now: Time, io: HandlerIO, isUuid: Id -> bool): State {
    Recounted(if io.jobOk then s.(jobs := Stored(s.jobs, ev, isUuid)) else s, ev.batchId, now, io.recount)
  }

  /** Stores the result, then recounts the batch the message names. It reports success whatever
      the database answered, so its caller never retries. */
  method HandleResult(w: Services, ev: ResultEvent, now: Time, io: HandlerIO, isUuid: Id -> bool)
    returns (error: Option<string>)
    requires w.View().Valid()
    modifies w
    ensures w.View().Valid()
    ensures w.View() == Handled(old(w.View()), ev, now, io, isUuid)
    ensures error == None
  {
    var tx := None;
    if ev.billingTx.Some? && isUuid(ev.billingTx.value) {
      tx := ev.billingTx;
    }
    w.UpdateStatusWithResult(ev.jobId, ev.status, tx, Outcome(NonEmpty(ev.buildId), ev.barcodeUrls, None, None), io.jobOk);
    var _ := OnJobStatusChange(w, ev.batchId, now, io.recount);
    error := None;
  }

  // ----- a serial stream of messages --------------------------------------------------------

  datatype Delivery = Delivery(event: ResultEvent, now: Time)

  /** The job table after a stream of messages, the database being up throughout. */
  function StoredAll(rows: map<Id, Job>, stream: seq<Delivery>, isUuid: Id -> bool): map<Id, Job> {
    if stream == [] then rows
    else Stored(StoredAll(rows, stream[..|stream| - 1], isUuid), stream[|stream| - 1].event, isUuid)
  }

  /** The state after such a stream. */
  function Consumed(s: State, stream: seq<Delivery>, isUuid: Id -> bool): (t: State)
    ensures t.jobs == StoredAll(s.jobs, stream, isUuid) && t.batches.Keys == s.batches.Keys
  {
    if stream == [] then s
    else
      var last := stream[|stream| - 1];
      Handled(Consumed(s, stream[..|stream| - 1], isUuid), last.event, last.now, RELIABLE, isUuid)
  }

  function LastFor(stream: seq<Delivery>, job: Id): Option<ResultEvent> {
    if stream == [] then None
    else if stream[|stream| - 1].event.jobId == job then Some(stream[|stream| - 1].event)
    else LastFor(stream[..|stream| - 1], job)
  }

  function Named(stream: seq<Delivery>): set<Id> {
    set i | 0 <= i < |stream| :: stream[i].event.batchId
  }

  /** Each message names the batch its job belongs to (a message for an unknown job may name any). */
  ghost predicate Routed(s: State, stream: seq<Delivery>) {
    forall i :: 0 <= i < |stream| && stream[i].event.jobId in s.jobs
      ==> s.jobs[stream[i].event.jobId].batchId == stream[i].event.batchId
  }

  /** Two records that agree but for the time of completion. */
  ghost predicate Alike(a: Batch, b: Batch) {
    a.(completedAt := None) == b.(completedAt := None)
  }

  /** The record that a given job table implies for a batch. */
  function Implied(b: Batch, jobs: map<Id, Job>): Batch {
    Persisted(b, Tally(b, jobs, 0))
  }

  /** A stream adds and removes no job and moves none to another batch. */
  lemma {:induction false} HomesKept(rows: map<Id, Job>, stream: seq<Delivery>, isUuid: Id -> bool)
    ensures var after := StoredAll(rows, stream, isUuid);
            && after.Keys == rows.Keys
            && forall id :: id in rows ==> after[id].batchId == rows[id].batchId
  {
    if stream != [] {
      HomesKept(rows, stream[..|stream| - 1], isUuid);
    }
  }

  /** The row of a job after a stream is its initial one overlaid with the job's last message. */
  lemma {:induction false} JobAfterStream(rows: map<Id, Job>, stream: seq<Delivery>, isUuid: Id -> bool, id: Id)
    requires id in rows
    ensures id in StoredAll(rows, stream, isUuid)
    ensures var last := LastFor(stream, id);
            StoredAll(rows, stream, isUuid)[id] == if last.Some? then Overwritten(rows[id], last.value, isUuid) else rows[id]
  {
    if stream != [] {
      JobAfterStream(rows, stream[..|stream| - 1], isUuid, id);
    }
  }

  lemma NamedGrows(stream: seq<Delivery>)
    requires stream != []
    ensures Named(stream) == Named(stream[..|stream| - 1]) + {stream[|stream| - 1].event.batchId}
  {
    var front := stream[..|stream| - 1];
    forall b | b in Named(stream) ensures b in Named(front) + {stream[|stream| - 1].event.batchId} {
      var i :| 0 <= i < |stream| && stream[i].event.batchId == b;
      assert i < |front| ==> front[i] == stream[i];
    }
    forall b | b in Named(front) ensures b in Named(stream) {
      var i :| 0 <= i < |front| && front[i].event.batchId == b;
      assert front[i] == stream[i];
    }
  }

  /** Jobs of other batches do not matter to a batch. */
  lemma SelectSame(m: map<Id, Job>, n: map<Id, Job>, b: Id, p: JobStatus -> bool)
    requires forall id :: id in m && m[id].batchId == b ==> id in n && n[id] == m[id]
    requires forall id :: id in n && n[id].batchId == b ==> id in m && n[id] == m[id]
    ensures Select(m, b, p) == Select(n, b, p)
  {
  }

  lemma ImpliedSame(r: Batch, m: map<Id, Job>, n: map<Id, Job>)
    requires forall id :: id in m && m[id].batchId == r.id ==> id in n && n[id] == m[id]
    requires forall id :: id in n && n[id].batchId == r.id ==> id in m && n[id] == m[id]
    ensures Alike(Implied(r, m), Implied(r, n))
  {
    SelectSame(m, n, r.id, IsClosed);
    SelectSame(m, n, r.id, IsFailed);
    SelectSame(m, n, r.id, AnyStatus);
  }

  lemma JobsOfSame(m: map<Id, Job>, n: map<Id, Job>, b: Id)
    requires m.Keys == n.Keys && forall id :: id in m ==> m[id].batchId == n[id].batchId
    ensures JobsOf(m, b) == JobsOf(n, b)
  {
  }

  /** One message: the batch it names gets the record its jobs imply, any other batch keeps
      its record and its jobs. */
  lemma BatchAfterOne(s: State, d: Delivery, isUuid: Id -> bool, b: Id)
    requires s.Keyed() && b in s.batches && JobsOf(s.jobs, b) != {}
    requires d.event.jobId in s.jobs ==> s.jobs[d.event.jobId].batchId == d.event.batchId
    ensures var t := Handled(s, d.event, d.now, RELIABLE, isUuid);
            && t.Keyed() && b in t.batches
            && (d.event.batchId == b ==> Alike(t.batches[b], Implied(s.batches[b], t.jobs)))
            && (d.event.batchId != b ==> t.batches[b] == s.batches[b])
            && (d.event.batchId != b ==> forall id :: id in s.jobs && s.jobs[id].batchId == b ==> t.jobs[id] == s.jobs[id])
  {
    var stored := Stored(s.jobs, d.event, isUuid);
    JobsOfSame(s.jobs, stored, b);
  }

  /** Recounting twice is recounting once. */
  lemma ImpliedAgain(r: Batch, r0: Batch, m: map<Id, Job>, n: map<Id, Job>)
    requires r == r0 || Alike(r, Implied(r0, m))
    ensures Alike(Implied(r, n), Implied(r0, n))
  {
    assert r.id == r0.id by {
      assert r.(completedAt := None).id == r.id;
    }
    AlikeFields(r, if r == r0 then r0 else Implied(r0, m));
  }

  lemma AlikeFields(a: Batch, b: Batch)
    requires Alike(a, b)
    ensures a == b.(completedAt := a.completedAt)
  {
    assert a.(completedAt := None).(completedAt := a.completedAt) == b.(completedAt := None).(completedAt := a.completedAt);
  }

  lemma AlikeTrans(a: Batch, b: Batch, c: Batch)
    requires Alike(a, b) && Alike(b, c)
    ensures Alike(a, c)
  {
  }

  /** Serial recounting confines and determines: a batch that no message names keeps its record and
      its jobs; one that is named ends with exactly the record its final jobs imply. */
  lemma {:induction false} BatchAfterStream(s: State, stream: seq<Delivery>, isUuid: Id -> bool, b: Id)
    requires s.Keyed() && Routed(s, stream) && b in s.batches && JobsOf(s.jobs, b) != {}
    ensures var t := Consumed(s, stream, isUuid);
            && t.Keyed()
            && (b in Named(stream) ==> Alike(t.batches[b], Implied(s.batches[b], t.jobs)))
            && (b !in Named(stream) ==> t.batches[b] == s.batches[b])
            && (b !in Named(stream) ==> forall id :: id in s.jobs && s.jobs[id].batchId == b ==> id in t.jobs && t.jobs[id] == s.jobs[id])
  {
    if stream != [] {
      var front, last := stream[..|stream| - 1], stream[|stream| - 1];
      assert Routed(s, front);
      BatchAfterStream(s, front, isUuid, b);
      NamedGrows(stream);
      HomesKept(s.jobs, front, isUuid);
      var before, after := Consumed(s, front, isUuid), Consumed(s, stream, isUuid);
      JobsOfSame(s.jobs, before.jobs, b);
      BatchAfterOne(before, last, isUuid, b);
      BatchAfterLast(s.batches[b], before, last, after, b, b in Named(front));
    }
  }

  /** The induction step of BatchAfterStream. */
  lemma BatchAfterLast(r0: Batch, before: State, last: Delivery, after: State, b: Id, named: bool)
    requires r0.id == b && b in before.batches && b in after.batches
    requires if named then Alike(before.batches[b], Implied(r0, before.jobs)) else before.batches[b] == r0
    requires last.event.batchId == b ==> Alike(after.batches[b], Implied(before.batches[b], after.jobs))
    requires last.event.batchId != b ==> after.batches[b] == before.batches[b]
    requires last.event.batchId != b ==>
      (&& after.jobs.Keys == before.jobs.Keys
       && (forall id :: id in before.jobs ==> before.jobs[id].batchId == after.jobs[id].batchId)
       && (forall id :: id in before.jobs && before.jobs[id].batchId == b ==> after.jobs[id] == before.jobs[id]))
    ensures if named || last.event.batchId == b then Alike(after.batches[b], Implied(r0, after.jobs)) else after.batches[b] == r0
  {
    if last.event.batchId == b {
      ImpliedAgain(before.batches[b], r0, before.jobs, after.jobs);
      AlikeTrans(after.batches[b], Implied(before.batches[b], after.jobs), Implied(r0, after.jobs));
    } else if named {
      ImpliedSame(r0, before.jobs, after.jobs);
      AlikeTrans(after.batches[b], Implied(r0, before.jobs), Implied(r0, after.jobs));
    }
  }

  /** Outcome of a stream as the operators see it: job rows, and batch records but for completion times. */
  ghost predicate SameOutcome(t: State, u: State) {
    && t.jobs == u.jobs
    && t.batches.Keys == u.batches.Keys
    && forall b :: b in t.batches ==> Alike(t.batches[b], u.batches[b])
  }

  lemma {:induction false} EmptyBatchAfterStream(s: State, stream: seq<Delivery>, isUuid: Id -> bool, b: Id)
    requires s.Keyed() && b in s.batches && JobsOf(s.jobs, b) == {}
    ensures Consumed(s, stream, isUuid).Keyed() && Consumed(s, stream, isUuid).batches[b] == s.batches[b]
  {
    if stream != [] {
      var front, last := stream[..|stream| - 1], stream[|stream| - 1];
      EmptyBatchAfterStream(s, front, isUuid, b);
      HomesKept(s.jobs, stream, isUuid);
      JobsOfSame(s.jobs, StoredAll(s.jobs, stream, isUuid), b);
      RecountOther(Consumed(s, front, isUuid).(jobs := StoredAll(s.jobs, stream, isUuid)), last.event.batchId, last.now, b);
    }
  }

  lemma RecountOther(s: State, named: Id, now: Time, b: Id)
    requires s.Keyed() && b in s.batches && (named != b || JobsOf(s.jobs, b) == {})
    ensures var t := Recounted(s, named, now, RELIABLE.recount);
            t.Keyed() && b in t.batches && t.batches[b] == s.batches[b]
  {
  }

  lemma SameLastSameJobs(rows: map<Id, Job>, x: seq<Delivery>, y: seq<Delivery>, isUuid: Id -> bool)
    requires forall id :: id in rows ==> LastFor(x, id) == LastFor(y, id)
    ensures StoredAll(rows, x, isUuid) == StoredAll(rows, y, isUuid)
  {
    HomesKept(rows, x, isUuid);
    HomesKept(rows, y, isUuid);
    forall id | id in rows ensures StoredAll(rows, x, isUuid)[id] == StoredAll(rows, y, isUuid)[id] {
      JobAfterStream(rows, x, isUuid, id);
      JobAfterStream(rows, y, isUuid, id);
    }
  }

  lemma SameJobsSameRecord(s: State, x: seq<Delivery>, y: seq<Delivery>, isUuid: Id -> bool, b: Id)
    requires s.Valid() && Routed(s, x) && Routed(s, y) && Named(x) == Named(y)
    requires StoredAll(s.jobs, x, isUuid) == StoredAll(s.jobs, y, isUuid)
    requires b in s.batches
    ensures Alike(Consumed(s, x, isUuid).batches[b], Consumed(s, y, isUuid).batches[b])
  {
    if JobsOf(s.jobs, b) == {} {
      EmptyBatchAfterStream(s, x, isUuid, b);
      EmptyBatchAfterStream(s, y, isUuid, b);
    } else {
      BatchAfterStream(s, x, isUuid, b);
      BatchAfterStream(s, y, isUuid, b);
    }
  }

  /** Confluence: streams that agree on the last message of every job and on the batches they name
      have the same outcome, whatever else they contain and in whatever order. */
  lemma StreamConfluence(s: State, x: seq<Delivery>, y: seq<Delivery>, isUuid: Id -> bool)
    requires s.Valid() && Routed(s, x) && Routed(s, y)
    requires Named(x) == Named(y)
    requires forall id :: id in s.jobs ==> LastFor(x, id) == LastFor(y, id)
    ensures SameOutcome(Consumed(s, x, isUuid), Consumed(s, y, isUuid))
  {
    SameLastSameJobs(s.jobs, x, y, isUuid);
    forall b | b in s.batches ensures Alike(Consumed(s, x, isUuid).batches[b], Consumed(s, y, isUuid).batches[b]) {
      SameJobsSameRecord(s, x, y, isUuid, b);
    }
  }

  lemma {:induction false} LastForConcat(x: seq<Delivery>, y: seq<Delivery>, id: Id)
    ensures LastFor(x + y, id) == if LastFor(y, id).Some? then LastFor(y, id) else LastFor(x, id)
  {
    if y == [] {
      assert x + y == x;
    } else {
      assert (x + y)[..|x + y| - 1] == x + y[..|y| - 1];
      LastForConcat(x, y[..|y| - 1], id);
    }
  }

  lemma NamedConcat(x: seq<Delivery>, y: seq<Delivery>)
    ensures Named(x + y) == Named(x) + Named(y)
  {
    forall b | b in Named(x) + Named(y) ensures b in Named(x + y) {
      if b in Named(x) {
        var i :| 0 <= i < |x| && x[i].event.batchId == b;
        assert (x + y)[i] == x[i];
      } else {
        var i :| 0 <= i < |y| && y[i].event.batchId == b;
        assert (x + y)[|x| + i] == y[i];
      }
    }
  }

  lemma RoutedConcat(s: State, x: seq<Delivery>, y: seq<Delivery>)
    ensures Routed(s, x + y) <==> Routed(s, x) && Routed(s, y)
  {
    if Routed(s, x + y) {
      assert forall i :: 0 <= i < |x| ==> (x + y)[i] == x[i];
      assert forall i :: 0 <= i < |y| ==> (x + y)[|x| + i] == y[i];
    }
  }

  /** Messages of different jobs may change places anywhere in a stream. */
  lemma ReorderAcrossJobs(s: State, before: seq<Delivery>, p: Delivery, q: Delivery, after: seq<Delivery>, isUuid: Id -> bool)
    requires s.Valid() && Routed(s, before + [p, q] + after)
    requires p.event.jobId != q.event.jobId
    ensures SameOutcome(Consumed(s, before + [p, q] + after, isUuid), Consumed(s, before + [q, p] + after, isUuid))
  {
    var x, y := [p, q], [q, p];
    RoutedConcat(s, before + x, after);
    RoutedConcat(s, before, x);
    assert x[0] == p && x[1] == q;
    assert Routed(s, y);
    RoutedConcat(s, before, y);
    RoutedConcat(s, before + y, after);
    NamedConcat(before, x);
    NamedConcat(before, y);
    NamedConcat(before + x, after);
    NamedConcat(before + y, after);
    assert y[0] == q && y[1] == p;
    assert Named(x) == {p.event.batchId, q.event.batchId} == Named(y);
    forall id | id in s.jobs ensures LastFor(before + x + after, id) == LastFor(before + y + after, id) {
      LastForConcat(before + x, after, id);
      LastForConcat(before + y, after, id);
      LastForConcat(before, x, id);
      LastForConcat(before, y, id);
      LastOfTwo(p, q, id);
      LastOfTwo(q, p, id);
    }
    StreamConfluence(s, before + x + after, before + y + after, isUuid);
  }

  lemma LastOfTwo(p: Delivery, q: Delivery, id: Id)
    ensures LastFor([p, q], id) == if q.event.jobId == id then Some(q.event) else if p.event.jobId == id then Some(p.event) else None
  {
    assert [p] + [q] == [p, q];
    LastForConcat([p], [q], id);
    LastOfOne(p, id);
    LastOfOne(q, id);
  }

  lemma LastOfOne(p: Delivery, id: Id)
    ensures LastFor([p], id) == if p.event.jobId == id then Some(p.event) else None
  {
    assert [p][..0] == [];
  }

  /** Delivering a job's latest message once more, at any later time, changes nothing. */
  lemma RedeliverLatest(s: State, stream: seq<Delivery>, again: Delivery, isUuid: Id -> bool)
    requires s.Valid() && Routed(s, stream)
    requires LastFor(stream, again.event.jobId) == Some(again.event)
    ensures SameOutcome(Consumed(s, stream + [again], isUuid), Consumed(s, stream, isUuid))
  {
    LatestIsNamed(stream, again.event.jobId);
    var i :| 0 <= i < |stream| && stream[i].event == again.event;
    assert again.event.batchId in Named(stream);
    RoutedConcat(s, stream, [again]);
    NamedConcat(stream, [again]);
    assert [again][0] == again && Named([again]) == {again.event.batchId};
    forall id | id in s.jobs ensures LastFor(stream + [again], id) == LastFor(stream, id) {
      LastForConcat(stream, [again], id);
      assert [again][..0] == [];
    }
    StreamConfluence(s, stream + [again], stream, isUuid);
  }

  lemma {:induction false} LatestIsNamed(stream: seq<Delivery>, id: Id)
    requires LastFor(stream, id).Some?
    ensures exists i :: 0 <= i < |stream| && stream[i].event == LastFor(stream, id).value
  {
    if stream[|stream| - 1].event.jobId != id {
      LatestIsNamed(stream[..|stream| - 1], id);
      var i :| 0 <= i < |stream| - 1 && stream[..|stream| - 1][i].event == LastFor(stream, id).value;
      assert stream[i].event == LastFor(stream, id).value;
    }
  }

  /** Cancelling is not final: the cancelled mark of a batch with jobs survives a stream of results
      if and only if no message in it names the batch. */
  lemma CancelledSurvivesIff(s: State, stream: seq<Delivery>, isUuid: Id -> bool, b: Id)
    requires s.Valid() && Routed(s, stream) && b in s.batches && JobsOf(s.jobs, b) != {}
    requires s.batches[b].status == Cancelled
    ensures Consumed(s, stream, isUuid).batches[b].status == Cancelled <==> b !in Named(stream)
  {
    BatchAfterStream(s, stream, isUuid, b);
  }

  /** The ids selected after one job's status changed. */
  lemma SelectAfterChange(m: map<Id, Job>, j: Id, row: Job, p: JobStatus -> bool)
    requires j in m && row.batchId == m[j].batchId
    ensures var b, n := row.batchId, m[j := row];
            |Select(n, b, p)| == |Select(m, b, p)| <==> p(row.status) == p(m[j].status)
  {
    var b, n := row.batchId, m[j := row];
    if p(row.status) && !p(m[j].status) {
      assert Select(n, b, p) == Select(m, b, p) + {j};
    } else if !p(row.status) && p(m[j].status) {
      assert Select(m, b, p) == Select(n, b, p) + {j};
    } else {
      assert Select(n, b, p) == Select(m, b, p);
    }
  }

  /** Routing is needed: a message that names another batch changes its job but not the counters of
      the job's own batch, which stay right exactly when the job neither opens nor closes and
      neither starts nor stops being failed. */
  lemma MisroutedResultIff(s: State, d: Delivery, isUuid: Id -> bool)
    requires s.Valid() && d.event.jobId in s.jobs
    requires var home := s.jobs[d.event.jobId].batchId;
             home != d.event.batchId && Alike(s.batches[home], Implied(s.batches[home], s.jobs))
    ensures var home, t := s.jobs[d.event.jobId].batchId, Handled(s, d.event, d.now, RELIABLE, isUuid);
            Alike(t.batches[home], Implied(t.batches[home], t.jobs)) <==>
            && IsClosed(d.event.status) == IsClosed(s.jobs[d.event.jobId].status)
            && IsFailed(d.event.status) == IsFailed(s.jobs[d.event.jobId].status)
  {
    var j := d.event.jobId;
    var home, row := s.jobs[j].batchId, Overwritten(s.jobs[j], d.event, isUuid);
    var n := s.jobs[j := row];
    var t := Handled(s, d.event, d.now, RELIABLE, isUuid);
    assert t.batches[home] == s.batches[home] && t.jobs == n;
    SelectAfterChange(s.jobs, j, row, IsClosed);
    SelectAfterChange(s.jobs, j, row, IsFailed);
    JobsOfSame(s.jobs, n, home);
    ClosedIsAll(s.jobs, home);
    ClosedIsAll(n, home);
    AlikeFields(s.batches[home], Implied(s.batches[home], s.jobs));
    var r, r' := Implied(s.batches[home], s.jobs), Implied(s.batches[home], n);
    assert r.completedCount == |Select(s.jobs, home, IsClosed)| && r'.completedCount == |Select(n, home, IsClosed)|;
    if Alike(s.batches[home], r') {
      AlikeFields(s.batches[home], r');
    }
  }
}
