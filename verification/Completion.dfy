/** When a batch completes: a confirmation followed by the results of its jobs. */
module Completion {
  import opened Domain
  import opened Backend
  import opened ResultHandler
  import opened Confirm
  import ConfirmEffects

  /** The status of the job at index k of the listing after the confirmation. */
  function StatusAfter(jobs: seq<Job>, k: nat, count: int, env: ConfirmEnv): JobStatus
    requires k < |jobs|
  {
    if k < Covered(count, |jobs|) then ConfirmEffects.FinalStatus(jobs[k].status, k, Covered(count, |jobs|), env) else jobs[k].status
  }

  /** Its status in the end: that of its last result, if there is one. */
  function LastStatus(jobs: seq<Job>, k: nat, count: int, env: ConfirmEnv, stream: seq<Delivery>): JobStatus
    requires k < |jobs|
  {
    var last := LastFor(stream, jobs[k].id);
    if last.Some? then last.value.status else StatusAfter(jobs, k, count, env)
  }

  lemma JobInTheEnd(s: State, b: Id, count: int, jobs: seq<Job>, env: ConfirmEnv, isUuid: Id -> bool, stream: seq<Delivery>, k: nat)
    requires IsListing(s.jobs, b, jobs) && k < |jobs| && ConfirmedResult(s, b, count, jobs, env).Confirmed?
    ensures var rows := StoredAll(ConfirmedState(s, b, count, jobs, env, isUuid).jobs, stream, isUuid);
            && jobs[k].id in rows && rows[jobs[k].id].batchId == b
            && rows[jobs[k].id].status == LastStatus(jobs, k, count, env, stream)
  {
    var t := ConfirmedState(s, b, count, jobs, env, isUuid);
    ConfirmedShape(s, b, count, jobs, env, isUuid);
    ConfirmEffects.ConfirmedJob(s, b, count, jobs, env, isUuid, k);
    JobAfterStream(t.jobs, stream, isUuid, jobs[k].id);
  }

  /** The jobs of the batch in the end are those of the listing. */
  lemma JobsInTheEnd(s: State, b: Id, count: int, jobs: seq<Job>, env: ConfirmEnv, isUuid: Id -> bool, stream: seq<Delivery>)
    requires IsListing(s.jobs, b, jobs)
    ensures JobsOf(StoredAll(ConfirmedState(s, b, count, jobs, env, isUuid).jobs, stream, isUuid), b) == JobsOf(s.jobs, b)
    ensures JobsOf(ConfirmedState(s, b, count, jobs, env, isUuid).jobs, b) == JobsOf(s.jobs, b)
  {
    var t := ConfirmedState(s, b, count, jobs, env, isUuid);
    ConfirmedShape(s, b, count, jobs, env, isUuid);
    HomesKept(t.jobs, stream, isUuid);
    JobsOfSame(t.jobs, s.jobs, b);
    JobsOfSame(StoredAll(t.jobs, stream, isUuid), s.jobs, b);
  }

  /** After a confirmation and any results that name it, a batch is completed if and only if the last
      status of each of its jobs is closed, whatever failed on the way. */
  lemma CompletedIff(s: State, b: Id, count: int, jobs: seq<Job>, env: ConfirmEnv, isUuid: Id -> bool, stream: seq<Delivery>)
    requires s.Valid() && b in s.batches && IsListing(s.jobs, b, jobs) && jobs != []
    requires ConfirmedResult(s, b, count, jobs, env).Confirmed?
    requires Routed(ConfirmedState(s, b, count, jobs, env, isUuid), stream) && b in Named(stream)
    ensures b in Consumed(ConfirmedState(s, b, count, jobs, env, isUuid), stream, isUuid).batches
    ensures Consumed(ConfirmedState(s, b, count, jobs, env, isUuid), stream, isUuid).batches[b].status == BatchCompleted
            <==> forall k: nat :: k < |jobs| ==> IsClosed(LastStatus(jobs, k, count, env, stream))
  {
    var t := ConfirmedState(s, b, count, jobs, env, isUuid);
    var u := Consumed(t, stream, isUuid);
    ConfirmedRecords(s, b, count, jobs, env, isUuid);
    JobsInTheEnd(s, b, count, jobs, env, isUuid, stream);
    assert jobs[0].id in JobsOf(s.jobs, b);
    BatchAfterStream(t, stream, isUuid, b);
    AlikeFields(u.batches[b], Implied(t.batches[b], u.jobs));
    AllClosed(s, b, count, jobs, env, isUuid, stream);
  }

  lemma AllClosed(s: State, b: Id, count: int, jobs: seq<Job>, env: ConfirmEnv, isUuid: Id -> bool, stream: seq<Delivery>)
    requires IsListing(s.jobs, b, jobs) && ConfirmedResult(s, b, count, jobs, env).Confirmed?
    ensures var rows := StoredAll(ConfirmedState(s, b, count, jobs, env, isUuid).jobs, stream, isUuid);
            Select(rows, b, IsClosed) == JobsOf(rows, b)
            <==> forall k: nat :: k < |jobs| ==> IsClosed(LastStatus(jobs, k, count, env, stream))
  {
    var rows := StoredAll(ConfirmedState(s, b, count, jobs, env, isUuid).jobs, stream, isUuid);
    JobsInTheEnd(s, b, count, jobs, env, isUuid, stream);
    forall k: nat | k < |jobs|
      ensures jobs[k].id in JobsOf(rows, b)
      ensures jobs[k].id in Select(rows, b, IsClosed) <==> IsClosed(LastStatus(jobs, k, count, env, stream))
    {
      JobInTheEnd(s, b, count, jobs, env, isUuid, stream, k);
    }
    forall id | id in JobsOf(rows, b) ensures exists k: nat :: k < |jobs| && jobs[k].id == id {
      assert id in JobsOf(s.jobs, b);
    }
    if Select(rows, b, IsClosed) == JobsOf(rows, b) {
      forall k: nat | k < |jobs| ensures IsClosed(LastStatus(jobs, k, count, env, stream)) {
        assert jobs[k].id in Select(rows, b, IsClosed);
      }
    }
  }

  /** The results of a confirmation: a closing one for each published job, none for any other. */
  ghost predicate ResultsArrived(jobs: seq<Job>, n: nat, stream: seq<Delivery>)
    requires n <= |jobs|
  {
    forall k: nat :: k < |jobs| ==>
      var last := LastFor(stream, jobs[k].id);
      if k < n then last.Some? && IsClosed(last.value.status) else last == None
  }

  /** When closing results of exactly the covered jobs are in, the batch is completed if
      and only if every job that the confirmation did not cover was closed already. */
  lemma CompletedAfterConfirmIff(s: State, b: Id, count: int, jobs: seq<Job>, env: ConfirmEnv, isUuid: Id -> bool, stream: seq<Delivery>)
    requires s.Valid() && b in s.batches && IsListing(s.jobs, b, jobs) && jobs != []
    requires ConfirmedResult(s, b, count, jobs, env).Confirmed?
    requires Routed(ConfirmedState(s, b, count, jobs, env, isUuid), stream) && b in Named(stream)
    requires ResultsArrived(jobs, Covered(count, |jobs|), stream)
    ensures Consumed(ConfirmedState(s, b, count, jobs, env, isUuid), stream, isUuid).batches[b].status == BatchCompleted
            <==> forall k: nat :: Covered(count, |jobs|) <= k < |jobs| ==> IsClosed(jobs[k].status)
  {
    CompletedIff(s, b, count, jobs, env, isUuid, stream);
    var n := Covered(count, |jobs|);
    forall k: nat | k < |jobs|
      ensures IsClosed(LastStatus(jobs, k, count, env, stream)) <==> k < n || IsClosed(jobs[k].status)
    {
    }
    if forall k: nat :: k < |jobs| ==> IsClosed(LastStatus(jobs, k, count, env, stream)) {
      forall k: nat | n <= k < |jobs| ensures IsClosed(jobs[k].status) {
        assert IsClosed(LastStatus(jobs, k, count, env, stream));
      }
    }
  }

  /** One job beyond the count that is open and gets no result keeps the batch from completing, however
      the confirmation went and whatever results come for the others. */
  lemma UncoveredJobBlocks(s: State, b: Id, count: int, jobs: seq<Job>, env: ConfirmEnv, isUuid: Id -> bool, stream: seq<Delivery>, k: nat)
    requires s.Valid() && b in s.batches && s.batches[b].status != BatchCompleted && IsListing(s.jobs, b, jobs)
    requires ConfirmedResult(s, b, count, jobs, env).Confirmed?
    requires Routed(ConfirmedState(s, b, count, jobs, env, isUuid), stream)
    requires Covered(count, |jobs|) <= k < |jobs| && !IsClosed(jobs[k].status) && LastFor(stream, jobs[k].id) == None
    ensures var u := Consumed(ConfirmedState(s, b, count, jobs, env, isUuid), stream, isUuid);
            b in u.batches && u.batches[b].status != BatchCompleted
  {
    var t := ConfirmedState(s, b, count, jobs, env, isUuid);
    ConfirmedRecords(s, b, count, jobs, env, isUuid);
    if b in Named(stream) {
      CompletedIff(s, b, count, jobs, env, isUuid, stream);
      assert !IsClosed(LastStatus(jobs, k, count, env, stream));
    } else {
      JobsInTheEnd(s, b, count, jobs, env, isUuid, stream);
      assert jobs[k].id in JobsOf(s.jobs, b);
      BatchAfterStream(t, stream, isUuid, b);
      NotCompletedByConfirm(s, b, count, jobs, env, isUuid);
    }
  }

  lemma NotCompletedByConfirm(s: State, b: Id, count: int, jobs: seq<Job>, env: ConfirmEnv, isUuid: Id -> bool)
    requires s.Keyed() && b in s.batches && s.batches[b].status != BatchCompleted
    ensures var t := ConfirmedState(s, b, count, jobs, env, isUuid); b in t.batches && t.batches[b].status != BatchCompleted
  {
  }
}
