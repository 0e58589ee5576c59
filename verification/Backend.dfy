/** Everything outside the process that its code reads and writes: the two database tables,
    the refunds that billing has accepted, and the two topics it publishes to.
    A query may fail: each method takes the answer of the database as `up`. */
module Backend {
  import opened Domain
  import Codec = TransactionCodec

  datatype State = State(
    batches: map<Id, Batch>,
    jobs: map<Id, Job>,
    refunds: seq<Refund>,
    jobEvents: seq<JobEvent>,
    statusEvents: seq<StatusEvent>)
  {
    /** Batch records are stored under their primary key. */
    ghost predicate Keyed() {
      forall b :: b in batches ==> batches[b].id == b
    }

    /** All rows are stored under their primary key and every job refers to a batch. */
    ghost predicate Valid() {
      && Keyed()
      && (forall j :: j in jobs ==> jobs[j].id == j && jobs[j].batchId in batches)
    }
  }

  /** The ids of the jobs of batch b whose status satisfies p. */
  function Select(jobs: map<Id, Job>, b: Id, p: JobStatus -> bool): set<Id> {
    set id | id in jobs && jobs[id].batchId == b && p(jobs[id].status)
  }

  predicate AnyStatus(s: JobStatus) { true }
  predicate IsFailed(s: JobStatus) { s == Failed }
  predicate IsRefunded(s: JobStatus) { s == Refunded }

  function JobsOf(jobs: map<Id, Job>, b: Id): set<Id> {
    Select(jobs, b, AnyStatus)
  }

  /** One possible answer of the query for the jobs of batch b, which has no ORDER BY. */
  ghost predicate IsListing(jobs: map<Id, Job>, b: Id, list: seq<Job>) {
    && (forall i :: 0 <= i < |list| ==> list[i].id in jobs && jobs[list[i].id] == list[i] && list[i].batchId == b)
    && (forall i, j :: 0 <= i < j < |list| ==> list[i].id != list[j].id)
    && (forall id :: id in JobsOf(jobs, b) ==> exists i :: 0 <= i < |list| && list[i].id == id)
  }

  function CountWhere(list: seq<Job>, p: JobStatus -> bool): (c: nat)
    ensures c <= |list|
  {
    if list == [] then 0
    else CountWhere(list[..|list| - 1], p) + (if p(list[|list| - 1].status) then 1 else 0)
  }

  function IdsWhere(list: seq<Job>, p: JobStatus -> bool): set<Id> {
    set i | 0 <= i < |list| && p(list[i].status) :: list[i].id
  }

  lemma {:induction false} CountIds(list: seq<Job>, p: JobStatus -> bool)
    requires forall i, j :: 0 <= i < j < |list| ==> list[i].id != list[j].id
    ensures CountWhere(list, p) == |IdsWhere(list, p)|
  {
    if list != [] {
      var front, last := list[..|list| - 1], list[|list| - 1];
      CountIds(front, p);
      if p(last.status) {
        assert IdsWhere(list, p) == IdsWhere(front, p) + {last.id};
      } else {
        assert IdsWhere(list, p) == IdsWhere(front, p);
      }
    }
  }

  /** Counting over a listing does not depend on the order the database chose. */
  lemma CountListing(jobs: map<Id, Job>, b: Id, list: seq<Job>, p: JobStatus -> bool)
    requires IsListing(jobs, b, list)
    ensures CountWhere(list, p) == |Select(jobs, b, p)|
  {
    CountIds(list, p);
    forall id | id in Select(jobs, b, p) ensures id in IdsWhere(list, p) {
      assert id in JobsOf(jobs, b);
    }
    assert IdsWhere(list, p) == Select(jobs, b, p);
  }

  lemma {:induction false} CountEverything(list: seq<Job>)
    ensures CountWhere(list, AnyStatus) == |list|
  {
    if list != [] {
      CountEverything(list[..|list| - 1]);
    }
  }

  lemma ListingLength(jobs: map<Id, Job>, b: Id, list: seq<Job>)
    requires IsListing(jobs, b, list)
    ensures |list| == |JobsOf(jobs, b)|
  {
    CountListing(jobs, b, list, AnyStatus);
    CountEverything(list);
  }

  /** The ids a pass over a listing picks. */
  function Picked(list: seq<Job>, p: Job -> bool): set<Id> {
    if list == [] then {}
    else
      var before, last := Picked(list[..|list| - 1], p), list[|list| - 1];
      if p(last) then before + {last.id} else before
  }

  lemma {:induction false} PickedMember(list: seq<Job>, p: Job -> bool, id: Id)
    ensures id in Picked(list, p) <==> exists k :: 0 <= k < |list| && list[k].id == id && p(list[k])
  {
    if list != [] {
      var front := list[..|list| - 1];
      PickedMember(front, p, id);
      if id in Picked(front, p) {
        var k :| 0 <= k < |front| && front[k].id == id && p(front[k]);
        assert list[k] == front[k];
      }
      if k :| 0 <= k < |list| && list[k].id == id && p(list[k]) {
        assert k < |front| ==> front[k] == list[k];
      }
    }
  }

  function PickedCount(list: seq<Job>, p: Job -> bool): (c: nat)
    ensures c <= |list|
  {
    if list == [] then 0 else PickedCount(list[..|list| - 1], p) + (if p(list[|list| - 1]) then 1 else 0)
  }

  lemma PickedStep(list: seq<Job>, i: nat, p: Job -> bool)
    requires i < |list|
    ensures Picked(list[..i + 1], p) == if p(list[i]) then Picked(list[..i], p) + {list[i].id} else Picked(list[..i], p)
    ensures PickedCount(list[..i + 1], p) == PickedCount(list[..i], p) + (if p(list[i]) then 1 else 0)
  {
    assert list[..i + 1][..i] == list[..i];
  }

  lemma {:induction false} PickedSize(list: seq<Job>, p: Job -> bool)
    requires forall i, j :: 0 <= i < j < |list| ==> list[i].id != list[j].id
    ensures PickedCount(list, p) == |Picked(list, p)|
  {
    if list != [] {
      PickedSize(list[..|list| - 1], p);
      PickedMember(list[..|list| - 1], p, list[|list| - 1].id);
    }
  }

  /** A pass over a whole listing picks the jobs of the batch that satisfy p. */
  lemma PickedListing(jobs: map<Id, Job>, b: Id, list: seq<Job>, p: Job -> bool, ids: set<Id>)
    requires IsListing(jobs, b, list)
    requires forall id :: id in ids <==> id in JobsOf(jobs, b) && p(jobs[id])
    ensures Picked(list, p) == ids
  {
    forall id ensures id in Picked(list, p) <==> id in ids {
      PickedMember(list, p, id);
    }
  }

  /** What an UPDATE of the batch row leaves behind: owner, revision and creation time are not
      among the columns it sets, and priority and timeout are lost on the way to the row. */
  function Persisted(was: Batch, b: Batch): Batch {
    b.(userId := was.userId, revision := was.revision, createdAt := was.createdAt, priority := "", timeoutMs := 0)
  }

  /** They are what a later read finds in the value that is written, which has no settings, whatever
      the transactions in it. */
  lemma PersistedIsReadBack(was: Batch, b: Batch, ids: Option<seq<string>>, toInt: real -> int)
    requires Codec.IsConversion(toInt)
    ensures var found := Codec.Decoded(Some(Codec.Wrapper(ids, "", 0)), toInt);
            Persisted(was, b).priority == found.priority && Persisted(was, b).timeoutMs == found.timeout
  {
    Codec.Round53Exact(0);
    Codec.RoundTripIff(ids, "", 0, toInt);
  }

  function PutBatch(s: State, b: Batch): State
  {
    if b.id in s.batches then s.(batches := s.batches[b.id := Persisted(s.batches[b.id], b)]) else s
  }

  class Services {
    var batches: map<Id, Batch>
    var jobs: map<Id, Job>
    var refunds: seq<Refund>
    var jobEvents: seq<JobEvent>
    var statusEvents: seq<StatusEvent>

    constructor ()
      ensures View() == State(map[], map[], [], [], []) && View().Valid()
    {
      batches, jobs, refunds, jobEvents, statusEvents := map[], map[], [], [], [];
    }

    ghost function View(): State
      reads this
    {
      State(batches, jobs, refunds, jobEvents, statusEvents)
    }

    method GetBatch(id: Id, up: bool) returns (b: Option<Batch>)
      ensures b == if up && id in batches then Some(batches[id]) else None
    {
      b := if up && id in batches then Some(batches[id]) else None;
    }

    method CreateBatch(b: Batch, up: bool) returns (ok: bool)
      modifies this`batches
      ensures ok == (up && b.id !in old(batches))
      ensures batches == if ok then old(batches)[b.id := b.(completedAt := None, priority := "", timeoutMs := 0)] else old(batches)
    {
      ok := up && b.id !in batches;
      if ok {
        batches := batches[b.id := b.(completedAt := None, priority := "", timeoutMs := 0)];
      }
    }

    method UpdateBatch(b: Batch, up: bool) returns (ok: bool)
      modifies this`batches
      ensures ok == up
      ensures batches == if up && b.id in old(batches) then old(batches)[b.id := Persisted(old(batches)[b.id], b)] else old(batches)
    {
      ok := up;
      if up && b.id in batches {
        batches := batches[b.id := Persisted(batches[b.id], b)];
      }
    }

    method CreateJob(j: Job, up: bool) returns (ok: bool)
      modifies this`jobs
      ensures ok == (up && j.id !in old(jobs) && j.batchId in batches)
      ensures jobs == if ok then old(jobs)[j.id := j] else old(jobs)
    {
      ok := up && j.id !in jobs && j.batchId in batches;
      if ok {
        jobs := jobs[j.id := j];
      }
    }

    /** The rows of a batch, in whatever order the database returns them. */
    method ListJobs(b: Id) returns (list: seq<Job>)
      requires View().Valid()
      ensures IsListing(jobs, b, list)
    {
      list := [];
      var left := JobsOf(jobs, b);
      while left != {}
        invariant left <= JobsOf(jobs, b)
        invariant forall i :: 0 <= i < |list| ==> list[i].id in JobsOf(jobs, b) - left && jobs[list[i].id] == list[i]
        invariant forall i, j :: 0 <= i < j < |list| ==> list[i].id != list[j].id
        invariant forall id :: id in JobsOf(jobs, b) && id !in left ==> exists i :: 0 <= i < |list| && list[i].id == id
        decreases left
      {
        var id :| id in left;
        ghost var before := list;
        list := list + [jobs[id]];
        forall other | other in JobsOf(jobs, b) && other !in left - {id}
          ensures exists i :: 0 <= i < |list| && list[i].id == other
        {
          if other == id {
            assert list[|before|].id == other;
          } else {
            assert other !in left;
            var i :| 0 <= i < |before| && before[i].id == other;
            assert list[i].id == other;
          }
        }
        left := left - {id};
      }
    }

    method UpdateStatus(id: Id, status: JobStatus, up: bool) returns (ok: bool)
      modifies this`jobs
      ensures ok == up
      ensures jobs == if up && id in old(jobs) then old(jobs)[id := old(jobs)[id].(status := status)] else old(jobs)
    {
      ok := up;
      if up && id in jobs {
        jobs := jobs[id := jobs[id].(status := status)];
      }
    }

    method UpdateBillingTransactionId(id: Id, tx: Id, up: bool)
      modifies this`jobs
      ensures jobs == if up && id in old(jobs) then old(jobs)[id := old(jobs)[id].(billingTx := Some(tx))] else old(jobs)
    {
      if up && id in jobs {
        jobs := jobs[id := jobs[id].(billingTx := Some(tx))];
      }
    }

    /** The single UPDATE that stores a result: it overwrites every result column. */
    method UpdateStatusWithResult(id: Id, status: JobStatus, tx: Option<Id>, outcome: Outcome, up: bool)
      modifies this`jobs
      ensures jobs == if up && id in old(jobs)
                      then old(jobs)[id := old(jobs)[id].(status := status, billingTx := tx, outcome := outcome)]
                      else old(jobs)
    {
      if up && id in jobs {
        jobs := jobs[id := jobs[id].(status := status, billingTx := tx, outcome := outcome)];
      }
    }
  }
}
