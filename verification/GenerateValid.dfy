/** The action "generate valid" on a batch as its upload left it: which rows are published, and whether
    the batch ever completes. */
module GenerateValid {
  import opened Domain
  import opened Flags
  import opened Backend
  import BatchManager
  import ResultHandler
  import opened Confirm
  import BatchHandlers
  import opened Upload
  import Completion

  /** An upload that succeeded, and what followed it up to the request. */
  datatype Case = Case(
    before: State,
    revision: string,
    rows: seq<SheetRow>,
    judge: Judge,
    io: UploadIO,
    gathered: Gathered,
    finaliseIO: BatchManager.FinaliseIO)
  {
    /** The tables after the upload and its finalisation. */
    function Start(): State {
      BatchManager.Finalised(Uploads(this), io.batchId, gathered.valid, gathered.invalid, finaliseIO)
    }

    function NewJobs(): map<Id, Job> {
      Created(before.jobs, io.batchId, rows, |rows|, io.jobIO)
    }

    /** The stored number of valid rows is that of the account, not that of all rows. */
    predicate CountStored() {
      io.updateOk || (finaliseIO.getOk && finaliseIO.updateOk)
    }

    /** Every row got its job. */
    ghost predicate EveryJobCreated() {
      && (forall i: nat :: i < |rows| ==> io.jobIO.jobOk(i) && io.jobIO.jobId(i) !in before.jobs)
      && (forall i: nat, j: nat :: i < j < |rows| ==> io.jobIO.jobId(i) != io.jobIO.jobId(j))
    }

    /** A new batch, with the counts that the row loop arrives at. */
    ghost predicate Holds() {
      && before.Valid() && io.batchId !in before.batches
      && gathered.valid == CountTrue(Accepted(judge, rows), |rows|) && gathered.valid + gathered.invalid == |rows|
    }

    /** The upload accepted the row of the job at a position of a listing. */
    function AcceptedAt(jobs: seq<Job>): nat -> bool {
      (k: nat) => k < |jobs| && jobs[k].rowNumber >= 2 && Accepted(judge, rows)(jobs[k].rowNumber - 2)
    }
  }

  /** Every upload that succeeds is such a case. */
  lemma UploadIsCase(c: Case, turns: Turns)
    requires c.before.Valid() && c.io.batchId !in c.before.batches
    requires Account(c.judge, c.rows, |c.rows|, c.gathered, turns)
    ensures c.Holds()
  {
  }

  /** The tables after the upload alone. */
  function Uploads(c: Case): State {
    After(c.before, c.revision, c.rows, c.io, Uploaded(|c.rows|, c.gathered))
  }

  lemma UploadsIs(c: Case)
    requires c.Holds()
    ensures Uploads(c).Valid() && c.io.batchId in Uploads(c).batches && Uploads(c).jobs == c.before.jobs + c.NewJobs()
    ensures Uploads(c).batches[c.io.batchId] == LastRecord(c.io, c.revision, |c.rows|, Uploaded(|c.rows|, c.gathered))
  {
    AfterIs(c.before, c.revision, c.rows, c.io, Uploaded(|c.rows|, c.gathered));
    JobsAreAdded(c.before.jobs, c.io.batchId, c.rows, |c.rows|, c.io.jobIO);
    CreatedJobs(c.before.jobs, c.io.batchId, c.rows, |c.rows|, c.io.jobIO);
  }

  lemma NewJobsAreAll(c: Case)
    requires c.Holds()
    ensures JobsOf(c.before.jobs + c.NewJobs(), c.io.batchId) == c.NewJobs().Keys
  {
    CreatedJobs(c.before.jobs, c.io.batchId, c.rows, |c.rows|, c.io.jobIO);
  }

  /** What upload and finalisation left in the tables. */
  lemma StartIs(c: Case)
    requires c.Holds()
    ensures c.Start().Valid() && c.io.batchId in c.Start().batches
    ensures c.Start().jobs == c.before.jobs + c.NewJobs() && JobsOf(c.Start().jobs, c.io.batchId) == c.NewJobs().Keys
    ensures c.Start().batches[c.io.batchId].validRows == if c.CountStored() then c.gathered.valid else |c.rows|
    ensures c.Start().batches[c.io.batchId].status != BatchCompleted
  {
    UploadsIs(c);
    NewJobsAreAll(c);
    BatchManager.FinalisedValid(Uploads(c), c.io.batchId, c.gathered.valid, c.gathered.invalid, c.finaliseIO);
    FinalisedKeeps(Uploads(c), c.io.batchId, c.gathered.valid, c.gathered.invalid, c.finaliseIO);
  }

  lemma FinalisedKeeps(s: State, b: Id, valid: nat, invalid: nat, io: BatchManager.FinaliseIO)
    requires s.Keyed() && b in s.batches
    ensures var t := BatchManager.Finalised(s, b, valid, invalid, io);
            && t.jobs == s.jobs && b in t.batches
            && t.batches[b].validRows == (if io.getOk && io.updateOk then valid else s.batches[b].validRows)
            && (t.batches[b].status == BatchCompleted ==> s.batches[b].status == BatchCompleted)
  {
  }

  /** An entry of a listing is the job of a row. */
  lemma ListedRow(c: Case, jobs: seq<Job>, k: nat) returns (i: nat)
    requires c.Holds() && IsListing(c.Start().jobs, c.io.batchId, jobs) && k < |jobs|
    ensures i < |c.rows| && jobs[k] == JobOf(c.io.batchId, c.rows[i], i, c.io.jobIO)
  {
    StartIs(c);
    assert jobs[k].id in JobsOf(c.Start().jobs, c.io.batchId);
    i := CreatedFor(c.before.jobs, c.io.batchId, c.rows, |c.rows|, c.io.jobIO, jobs[k].id);
  }

  /** The place of a row in the listing, when it got its job. */
  lemma RowListed(c: Case, jobs: seq<Job>, i: nat) returns (k: nat)
    requires c.Holds() && IsListing(c.Start().jobs, c.io.batchId, jobs) && c.EveryJobCreated() && i < |c.rows|
    ensures k < |jobs| && jobs[k] == JobOf(c.io.batchId, c.rows[i], i, c.io.jobIO)
  {
    StartIs(c);
    EveryRowHasItsJob(c.before.jobs, c.io.batchId, c.rows, |c.rows|, c.io.jobIO, i);
    assert c.io.jobIO.jobId(i) in JobsOf(c.Start().jobs, c.io.batchId);
    k :| 0 <= k < |jobs| && jobs[k].id == c.io.jobIO.jobId(i);
  }

  function IdsOf(jobs: seq<Job>): seq<Id> {
    seq(|jobs|, k requires 0 <= k < |jobs| => jobs[k].id)
  }

  function RowIds(c: Case): seq<Id> {
    seq(|c.rows|, i requires 0 <= i < |c.rows| => c.io.jobIO.jobId(i))
  }

  lemma ListingSize(c: Case, jobs: seq<Job>)
    requires c.Holds() && IsListing(c.Start().jobs, c.io.batchId, jobs) && c.EveryJobCreated()
    ensures |jobs| == |c.rows|
  {
    StartIs(c);
    ListingLength(c.Start().jobs, c.io.batchId, jobs);
    assert |c.NewJobs().Keys| == |c.NewJobs()|;
    if c.rows != [] {
      EveryRowHasItsJob(c.before.jobs, c.io.batchId, c.rows, |c.rows|, c.io.jobIO, 0);
    }
  }

  lemma DistinctIds(c: Case, jobs: seq<Job>)
    requires IsListing(c.Start().jobs, c.io.batchId, jobs) && c.EveryJobCreated()
    ensures forall i, j :: 0 <= i < j < |jobs| ==> IdsOf(jobs)[i] != IdsOf(jobs)[j]
    ensures forall i, j :: 0 <= i < j < |c.rows| ==> RowIds(c)[i] != RowIds(c)[j]
  {
  }

  /** When every row got its job, the listing has as many jobs of accepted rows as the upload counted
      valid ones. */
  lemma AcceptedCount(c: Case, jobs: seq<Job>)
    requires c.Holds() && IsListing(c.Start().jobs, c.io.batchId, jobs) && c.EveryJobCreated()
    ensures CountTrue(c.AcceptedAt(jobs), |jobs|) == c.gathered.valid
  {
    ListedIsUploaded(c, jobs);
    UploadedIsListed(c, jobs);
    DistinctIds(c, jobs);
    SamePicksSameCount(c.AcceptedAt(jobs), IdsOf(jobs), Accepted(c.judge, c.rows), RowIds(c));
  }

  /** The job of a row is picked on both sides or on neither. */
  lemma PickedAlike(c: Case, jobs: seq<Job>, k: nat, i: nat)
    requires k < |jobs| && i < |c.rows| && jobs[k] == JobOf(c.io.batchId, c.rows[i], i, c.io.jobIO)
    ensures IdsOf(jobs)[k] == RowIds(c)[i] == c.io.jobIO.jobId(i)
    ensures c.AcceptedAt(jobs)(k) == Accepted(c.judge, c.rows)(i)
  {
  }

  lemma ListedIsUploaded(c: Case, jobs: seq<Job>)
    requires c.Holds() && IsListing(c.Start().jobs, c.io.batchId, jobs)
    ensures Picks(c.AcceptedAt(jobs), IdsOf(jobs)) <= Picks(Accepted(c.judge, c.rows), RowIds(c))
  {
    forall id | id in Picks(c.AcceptedAt(jobs), IdsOf(jobs)) ensures id in Picks(Accepted(c.judge, c.rows), RowIds(c)) {
      var k: nat :| k < |jobs| && c.AcceptedAt(jobs)(k) && IdsOf(jobs)[k] == id;
      var i := ListedRow(c, jobs, k);
      PickedAlike(c, jobs, k, i);
    }
  }

  lemma UploadedIsListed(c: Case, jobs: seq<Job>)
    requires c.Holds() && IsListing(c.Start().jobs, c.io.batchId, jobs) && c.EveryJobCreated()
    ensures Picks(Accepted(c.judge, c.rows), RowIds(c)) <= Picks(c.AcceptedAt(jobs), IdsOf(jobs))
  {
    forall id | id in Picks(Accepted(c.judge, c.rows), RowIds(c)) ensures id in Picks(c.AcceptedAt(jobs), IdsOf(jobs)) {
      var i: nat :| i < |c.rows| && Accepted(c.judge, c.rows)(i) && RowIds(c)[i] == id;
      var k := RowListed(c, jobs, i);
      PickedAlike(c, jobs, k, i);
    }
  }

  /** The count that the handler finds for the action, as the upload left it. */
  function ValidCount(c: Case): int
    requires c.io.batchId in c.Start().batches
  {
    c.Start().batches[c.io.batchId].validRows
  }

  /** With a working producer "generate valid" publishes exactly the rows that the upload accepted if
      and only if the listing puts their jobs first and the stored count covers just them. When every row
      got its job and the count was stored, the order of the listing alone decides. */
  lemma PublishesAcceptedIff(c: Case, jobs: seq<Job>, env: ConfirmEnv)
    requires c.Holds() && IsListing(c.Start().jobs, c.io.batchId, jobs)
    requires c.io.batchId in c.Start().batches
    requires ConfirmedResult(c.Start(), c.io.batchId, ValidCount(c), jobs, env).Confirmed?
    requires forall k: nat :: k < |jobs| ==> env.publishOk(k)
    ensures BatchHandlers.PublishesExactly(c.Start(), c.io.batchId, ValidCount(c), jobs, env, c.AcceptedAt(jobs))
            <==> YesThenNo(c.AcceptedAt(jobs), |jobs|)
                 && CountTrue(c.AcceptedAt(jobs), |jobs|) == Covered(ValidCount(c), |jobs|)
    ensures c.EveryJobCreated() && c.CountStored() ==>
              CountTrue(c.AcceptedAt(jobs), |jobs|) == Covered(ValidCount(c), |jobs|)
  {
    BatchHandlers.GenerateValidIff(c.Start(), c.io.batchId, ValidCount(c), jobs, env, c.AcceptedAt(jobs));
    if c.EveryJobCreated() && c.CountStored() {
      AcceptedCount(c, jobs);
      ListingSize(c, jobs);
      StartIs(c);
    }
  }

  lemma LastJobUncovered(c: Case, jobs: seq<Job>) returns (k: nat)
    requires c.Holds() && IsListing(c.Start().jobs, c.io.batchId, jobs)
    requires c.EveryJobCreated() && c.CountStored() && c.gathered.invalid > 0
    ensures c.Start().Valid() && c.io.batchId in c.Start().batches && c.Start().batches[c.io.batchId].status != BatchCompleted
    ensures Covered(ValidCount(c), |jobs|) <= k < |jobs| && jobs[k].status == Pending
  {
    StartIs(c);
    ListingSize(c, jobs);
    k := |jobs| - 1;
    var i := ListedRow(c, jobs, k);
  }

  /** A batch with a rejected row whose every row got its job is never completed by "generate valid":
      whatever fails on the way and whatever results come for the jobs it covers, in any number and order,
      the others stay open. */
  lemma RejectedRowBlocks(c: Case, s: State, count: int, jobs: seq<Job>, env: ConfirmEnv, isUuid: Id -> bool, stream: seq<ResultHandler.Delivery>)
    requires c.Holds() && s == c.Start() && IsListing(s.jobs, c.io.batchId, jobs)
    requires c.EveryJobCreated() && c.CountStored() && c.gathered.invalid > 0
    requires c.io.batchId in s.batches && count == ValidCount(c)
    requires ConfirmedResult(s, c.io.batchId, count, jobs, env).Confirmed?
    requires ResultHandler.Routed(ConfirmedState(s, c.io.batchId, count, jobs, env, isUuid), stream)
    requires forall k: nat :: Covered(count, |jobs|) <= k < |jobs| ==> ResultHandler.LastFor(stream, jobs[k].id) == None
    ensures var u := ResultHandler.Consumed(ConfirmedState(s, c.io.batchId, count, jobs, env, isUuid), stream, isUuid);
            c.io.batchId in u.batches && u.batches[c.io.batchId].status != BatchCompleted
  {
    var k := LastJobUncovered(c, jobs);
    Completion.UncoveredJobBlocks(s, c.io.batchId, count, jobs, env, isUuid, stream, k);
  }
}
