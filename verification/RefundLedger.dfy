/** What billing is asked to give back, over runs of confirmations and cancellations. */
module RefundLedger {
  import opened Domain
  import opened Backend
  import opened BatchManager
  import ResultHandler
  import opened Confirm
  import BatchHandlers
  import opened Lifecycle
  import Sequences

  // ----- the ledger of one batch ------------------------------------------------------------

  /** The refunds of a batch that billing accepted, in order. */
  function RefundsOf(refunds: seq<Refund>, b: Id): seq<seq<Id>> {
    if refunds == [] then []
    else
      var before, last := RefundsOf(refunds[..|refunds| - 1], b), refunds[|refunds| - 1];
      if last.batchId == b then before + [last.ids] else before
  }

  /** Steps that neither reserve nor create: cancellations, results, restarts and status changes. */
  ghost predicate Settling(step: Step) {
    match step
    case Cancel(_, io) => io.Reliable()
    case Result(_, _, _) => true
    case Restart(_, _, _) => true
    case Process(_, _) => true
    case Finalise(_, _, _, _) => true
    case Configure(_, _, _, _) => true
    case _ => false
  }

  /** The cancellations of b that billing accepts. */
  predicate Accepted(step: Step, b: Id) {
    step.Cancel? && step.batch == b && step.cancelIO.billing == Some(true)
  }

  predicate SomeAccepted(steps: seq<Step>, b: Id) {
    exists i :: 0 <= i < |steps| && Accepted(steps[i], b)
  }

  lemma RefundsOfAppend(refunds: seq<Refund>, r: Refund, b: Id)
    ensures RefundsOf(refunds + [r], b) == if r.batchId == b then RefundsOf(refunds, b) + [r.ids] else RefundsOf(refunds, b)
  {
    assert (refunds + [r])[..|refunds|] == refunds;
  }

  lemma LedgerCancel(s: State, c: Id, io: CancelIO, b: Id)
    requires s.Keyed() && b in s.batches && io.Reliable()
    ensures var t, ids, paid := CancelledState(s, c, io), s.batches[b].transactionIds, c == b && io.billing == Some(true);
            && t.Keyed() && b in t.batches
            && t.batches[b].transactionIds == (if paid then [] else ids)
            && RefundsOf(t.refunds, b) == RefundsOf(s.refunds, b) + (if paid && ids != [] then [ids] else [])
  {
    if c in s.batches {
      RefundsOfAppend(s.refunds, Refund(c, s.batches[c].transactionIds), b);
    }
  }

  /** The ledger and the reserved transactions of b are untouched. */
  ghost predicate SameLedger(s: State, t: State, b: Id)
    requires b in s.batches
  {
    t.Keyed() && b in t.batches && t.refunds == s.refunds && t.batches[b].transactionIds == s.batches[b].transactionIds
  }

  lemma ResultLedger(s: State, event: ResultHandler.ResultEvent, now: Time, io: ResultHandler.HandlerIO, isUuid: Id -> bool, b: Id)
    requires s.Keyed() && b in s.batches
    ensures SameLedger(s, ResultHandler.Handled(s, event, now, io, isUuid), b)
  {
  }

  lemma StatusLedger(s: State, c: Id, io: ProcessIO, b: Id)
    requires s.Keyed() && b in s.batches
    ensures SameLedger(s, Processed(s, c, io), b)
  {
  }

  lemma FinaliseLedger(s: State, c: Id, validRows: int, invalidRows: int, io: FinaliseIO, b: Id)
    requires s.Keyed() && b in s.batches
    ensures SameLedger(s, Finalised(s, c, validRows, invalidRows, io), b)
  {
  }

  lemma ConfigureLedger(s: State, c: Id, priority: string, timeout: int, io: ProcessIO, b: Id)
    requires s.Keyed() && b in s.batches
    ensures SameLedger(s, BatchHandlers.Configured(s, c, priority, timeout, io), b)
  {
  }

  /** One settling step: only an accepted cancellation of b moves its transactions, to the ledger. */
  lemma LedgerStep(s: State, step: Step, isUuid: Id -> bool, b: Id)
    requires s.Keyed() && b in s.batches && Settling(step)
    ensures var t, ids := Next(s, step, isUuid), s.batches[b].transactionIds;
            && t.Keyed() && b in t.batches
            && t.batches[b].transactionIds == (if Accepted(step, b) then [] else ids)
            && RefundsOf(t.refunds, b) == RefundsOf(s.refunds, b) + (if Accepted(step, b) && ids != [] then [ids] else [])
  {
    match step {
      case Cancel(c, io) => LedgerCancel(s, c, io, b);
      case Result(event, now, io) => ResultLedger(s, event, now, io, isUuid, b);
      case Restart(c, jobs, io) =>
        var queued := s.(jobs := WithStatus(s.jobs, BatchHandlers.Restartable(s.jobs, c, io), Queued),
                         jobEvents := s.jobEvents + BatchHandlers.RestartMessages(jobs, io));
        StatusLedger(queued, c, io.process, b);
      case Process(c, io) => StatusLedger(s, c, io, b);
      case Finalise(c, validRows, invalidRows, io) => FinaliseLedger(s, c, validRows, invalidRows, io, b);
      case Configure(c, priority, timeout, io) => ConfigureLedger(s, c, priority, timeout, io, b);
      case _ =>
    }
  }

  lemma SomeAcceptedLast(steps: seq<Step>, b: Id)
    requires steps != []
    ensures SomeAccepted(steps, b) <==> SomeAccepted(steps[..|steps| - 1], b) || Accepted(steps[|steps| - 1], b)
  {
    var front := steps[..|steps| - 1];
    if i :| 0 <= i < |front| && Accepted(front[i], b) {
      assert Accepted(steps[i], b);
    }
    if i :| 0 <= i < |steps| && Accepted(steps[i], b) {
      assert i < |front| ==> Accepted(front[i], b);
    }
  }

  /** Over any run of cancellations, results, restarts and status changes, the reserved transactions
      of a batch stay on its record until a refund is accepted and are in exactly one accepted
      refund from then on, however often the cancellation is tried. */
  lemma {:induction false} CancelLedger(s: State, steps: seq<Step>, isUuid: Id -> bool, b: Id)
    requires s.Keyed() && b in s.batches && s.batches[b].transactionIds != []
    requires forall i :: 0 <= i < |steps| ==> Settling(steps[i])
    ensures var t, ids := Run(s, steps, isUuid), s.batches[b].transactionIds;
            && t.Keyed() && b in t.batches
            && t.batches[b].transactionIds == (if SomeAccepted(steps, b) then [] else ids)
            && RefundsOf(t.refunds, b) == RefundsOf(s.refunds, b) + (if SomeAccepted(steps, b) then [ids] else [])
  {
    if steps != [] {
      var front, last := steps[..|steps| - 1], steps[|steps| - 1];
      CancelLedger(s, front, isUuid, b);
      LedgerStep(Run(s, front, isUuid), last, isUuid, b);
      SomeAcceptedLast(steps, b);
    }
  }

  lemma RunOne(s: State, x: Step, isUuid: Id -> bool)
    ensures Run(s, [x], isUuid) == Next(s, x, isUuid)
  {
    assert [x][..0] == [];
  }

  lemma RunCancels(s: State, b: Id, first: CancelIO, second: CancelIO, isUuid: Id -> bool)
    ensures Run(s, [Cancel(b, first), Cancel(b, second)], isUuid) == CancelledState(CancelledState(s, b, first), b, second)
  {
    RunOne(s, Cancel(b, first), isUuid);
    assert [Cancel(b, first), Cancel(b, second)][..1] == [Cancel(b, first)];
  }

  /** An accepted refund is entered in the ledger; when the update that clears the record is lost, the
      transactions stay on it. */
  lemma UnclearedLedger(s: State, b: Id, io: CancelIO)
    requires s.Keyed() && b in s.batches && s.batches[b].transactionIds != []
    requires io.getOk && io.updateOk && io.billing == Some(true)
    ensures var t, ids := CancelledState(s, b, io), s.batches[b].transactionIds;
            && RefundsOf(t.refunds, b) == RefundsOf(s.refunds, b) + [ids]
            && (!io.clearOk ==> t.Keyed() && b in t.batches && t.batches[b].transactionIds == ids)
  {
    RefundsOfAppend(s.refunds, Refund(b, s.batches[b].transactionIds), b);
  }

  lemma TwoEntries(x: seq<seq<Id>>, y: seq<seq<Id>>, ids: seq<Id>)
    requires y == x + [ids]
    ensures y + [ids] == x + [ids, ids]
  {
  }

  /** The record must be cleared for that: when the update that clears it is lost, the next
      accepted cancellation returns the same transactions again. */
  lemma LostClearRefundsTwice(s: State, b: Id, first: CancelIO, second: CancelIO, isUuid: Id -> bool)
    requires s.Keyed() && b in s.batches && s.batches[b].transactionIds != []
    requires first.getOk && first.updateOk && first.billing == Some(true) && !first.clearOk
    requires second.getOk && second.updateOk && second.billing == Some(true)
    ensures var ids, t := s.batches[b].transactionIds, Run(s, [Cancel(b, first), Cancel(b, second)], isUuid);
            RefundsOf(t.refunds, b) == RefundsOf(s.refunds, b) + [ids, ids]
  {
    var mid := CancelledState(s, b, first);
    RunCancels(s, b, first, second, isUuid);
    UnclearedLedger(s, b, first);
    UnclearedLedger(mid, b, second);
    TwoEntries(RefundsOf(s.refunds, b), RefundsOf(mid.refunds, b), s.batches[b].transactionIds);
  }

  // ----- a confirmation and its cancellation ------------------------------------------------

  /** The reservation made it to the batch record. */
  predicate ReservationStored(env: ConfirmEnv) {
    env.hook.Some? && env.hook.value.Reserved? && env.hook.value.ids != [] && env.saveReadOk && env.saveWriteOk
  }

  /** What compensation returns: the ids assigned to the covered jobs, if a publication failed. */
  function ReturnedAtOnce(count: int, jobs: nat, env: ConfirmEnv, isUuid: Id -> bool): seq<Id>
    requires env.Reservation().Reserved?
  {
    if env.billing.Some? && env.refundOk && SomeFailed(env, Covered(count, jobs)) then
      Assigned(env.Reservation().ids, count, Covered(count, jobs), isUuid)
    else []
  }

  function RefundIfAny(b: Id, ids: seq<Id>): seq<Refund> {
    if ids == [] then [] else [Refund(b, ids)]
  }

  lemma DeliveredLedger(s: State, b: Id, jobs: seq<Job>, plan: Plan, env: ConfirmEnv, isUuid: Id -> bool)
    requires s.Keyed() && b in s.batches
    ensures var t, n := Delivered(s, b, jobs, plan, env, isUuid), Covered(plan.count, |jobs|);
            && t.Keyed() && b in t.batches && t.batches[b].transactionIds == s.batches[b].transactionIds
            && t.refunds == s.refunds + (if env.billing.Some? && env.refundOk && SomeFailed(env, n)
                                         then RefundIfAny(b, Assigned(plan.txIds, plan.count, n, isUuid)) else [])
  {
  }

  lemma ConfirmedLedger(s: State, b: Id, count: int, jobs: seq<Job>, env: ConfirmEnv, isUuid: Id -> bool)
    requires s.Keyed() && b in s.batches && ConfirmedResult(s, b, count, jobs, env).Confirmed?
    ensures var t := ConfirmedState(s, b, count, jobs, env, isUuid);
            && t.Keyed() && b in t.batches
            && t.refunds == s.refunds + RefundIfAny(b, ReturnedAtOnce(count, |jobs|, env, isUuid))
            && t.batches[b].transactionIds
               == if ReservationStored(env) then env.Reservation().ids else s.batches[b].transactionIds
  {
    var saved := IdsSaved(s, b, env);
    DeliveredLedger(saved, b, jobs, PlanFor(saved, b, count, env), env, isUuid);
  }

  lemma CancelledLedger(s: State, b: Id, io: CancelIO)
    requires s.Keyed() && b in s.batches && io.getOk && io.updateOk && io.billing == Some(true)
    ensures CancelledState(s, b, io).refunds == s.refunds + RefundIfAny(b, s.batches[b].transactionIds)
  {
  }

  /** The transactions on the record after a confirmation: a stored reservation replaces earlier ones. */
  function OnRecord(s: State, b: Id, env: ConfirmEnv): seq<Id>
    requires b in s.batches
  {
    if ReservationStored(env) then env.Reservation().ids else s.batches[b].transactionIds
  }

  /** What a confirmation and a later accepted cancellation return together, whatever the record held. */
  lemma ConfirmThenCancel(s: State, b: Id, count: int, jobs: seq<Job>, env: ConfirmEnv, io: CancelIO, isUuid: Id -> bool)
    requires s.Keyed() && b in s.batches && ConfirmedResult(s, b, count, jobs, env).Confirmed?
    requires io.getOk && io.updateOk && io.billing == Some(true)
    ensures Run(s, TwoSteps(b, count, jobs, env, io), isUuid).refunds
         == s.refunds + (RefundIfAny(b, ReturnedAtOnce(count, |jobs|, env, isUuid)) + RefundIfAny(b, OnRecord(s, b, env)))
  {
    var mid := ConfirmedState(s, b, count, jobs, env, isUuid);
    RunTwo(s, b, count, jobs, env, io, isUuid);
    ConfirmedLedger(s, b, count, jobs, env, isUuid);
    CancelledLedger(mid, b, io);
    Sequences.Joined(s.refunds, RefundIfAny(b, ReturnedAtOnce(count, |jobs|, env, isUuid)), RefundIfAny(b, OnRecord(s, b, env)));
  }

  function TwoSteps(b: Id, count: int, jobs: seq<Job>, env: ConfirmEnv, io: CancelIO): seq<Step> {
    [Confirmation(b, count, jobs, env), Cancel(b, io)]
  }

  lemma RunTwo(s: State, b: Id, count: int, jobs: seq<Job>, env: ConfirmEnv, io: CancelIO, isUuid: Id -> bool)
    ensures Run(s, TwoSteps(b, count, jobs, env, io), isUuid) == CancelledState(ConfirmedState(s, b, count, jobs, env, isUuid), b, io)
  {
    RunOne(s, Confirmation(b, count, jobs, env), isUuid);
    assert TwoSteps(b, count, jobs, env, io)[..1] == [Confirmation(b, count, jobs, env)];
  }

  /** After a confirmation that published everything, cancelling gives the reserved transactions back
      if and only if they came from the hook and reached the record, or the record held the very same
      ones before: those that the service reserved with billing itself are not returned otherwise. */
  lemma CancelReturnsReservationIff(s: State, b: Id, count: int, jobs: seq<Job>, env: ConfirmEnv, io: CancelIO, isUuid: Id -> bool)
    requires s.Keyed() && b in s.batches
    requires ConfirmedResult(s, b, count, jobs, env).Confirmed? && env.Reservation().ids != []
    requires !SomeFailed(env, Covered(count, |jobs|))
    requires io.getOk && io.updateOk && io.billing == Some(true)
    ensures Run(s, TwoSteps(b, count, jobs, env, io), isUuid).refunds == s.refunds + [Refund(b, env.Reservation().ids)]
            <==> (env.hook.Some? && env.saveReadOk && env.saveWriteOk) || s.batches[b].transactionIds == env.Reservation().ids
    ensures s.batches[b].transactionIds == [] && !(env.hook.Some? && env.saveReadOk && env.saveWriteOk)
            ==> Run(s, TwoSteps(b, count, jobs, env, io), isUuid).refunds == s.refunds
  {
    ConfirmThenCancel(s, b, count, jobs, env, io, isUuid);
    OneMoreRefund(s.refunds, b, OnRecord(s, b, env), env.Reservation().ids);
  }

  lemma OneMoreRefund(refunds: seq<Refund>, b: Id, returned: seq<Id>, ids: seq<Id>)
    requires ids != []
    ensures refunds + ([] + RefundIfAny(b, returned)) == refunds + [Refund(b, ids)] <==> returned == ids
    ensures returned == [] ==> refunds + ([] + RefundIfAny(b, returned)) == refunds
  {
    var x, y := refunds + ([] + RefundIfAny(b, returned)), refunds + [Refund(b, ids)];
    if x == y {
      assert x[|refunds|] == y[|refunds|];
    }
  }

  /** The refunds from position `first` of the ledger on return a transaction. */
  ghost predicate Returned(refunds: seq<Refund>, first: nat, id: Id) {
    exists p :: first <= p < |refunds| && id in refunds[p].ids
  }

  lemma {:induction false} AssignedFromReservation(txIds: seq<Id>, count: int, n: nat, isUuid: Id -> bool)
    requires n == 0 || n <= count
    ensures forall id :: id in Assigned(txIds, count, n, isUuid) ==> id in txIds
  {
    if n > 0 {
      AssignedFromReservation(txIds, count, n - 1, isUuid);
    }
  }

  /** A second reservation overwrites the first: a transaction that the record held before a
      confirmation is returned by a later accepted cancellation if and only if the new reservation was
      not stored, or has the transaction too. Otherwise it is lost. */
  lemma EarlierReservationReturnedIff(s: State, b: Id, count: int, jobs: seq<Job>, env: ConfirmEnv, io: CancelIO, isUuid: Id -> bool, id: Id)
    requires s.Keyed() && b in s.batches && id in s.batches[b].transactionIds
    requires ConfirmedResult(s, b, count, jobs, env).Confirmed?
    requires io.getOk && io.updateOk && io.billing == Some(true)
    ensures Returned(Run(s, TwoSteps(b, count, jobs, env, io), isUuid).refunds, |s.refunds|, id)
            <==> !ReservationStored(env) || id in env.Reservation().ids
  {
    ConfirmThenCancel(s, b, count, jobs, env, io, isUuid);
    AssignedFromReservation(env.Reservation().ids, count, Covered(count, |jobs|), isUuid);
    TwoRefunds(s.refunds, b, ReturnedAtOnce(count, |jobs|, env, isUuid), OnRecord(s, b, env), id);
  }

  /** What at most two refunds at the end of the ledger return, once and twice. */
  lemma TwoRefunds(refunds: seq<Refund>, b: Id, early: seq<Id>, late: seq<Id>, id: Id)
    ensures var all := refunds + (RefundIfAny(b, early) + RefundIfAny(b, late));
            && (Returned(all, |refunds|, id) <==> id in early || id in late)
            && (ReturnedTwice(all, |refunds|, id) <==> id in early && id in late)
  {
    var all, k := refunds + (RefundIfAny(b, early) + RefundIfAny(b, late)), |refunds|;
    if early != [] {
      assert all[k] == Refund(b, early);
    }
    if late != [] {
      assert all[|all| - 1] == Refund(b, late);
    }
    assert |all| <= k + 2;
    if id in early && id in late {
      assert id in all[k].ids && id in all[k + 1].ids;
    }
  }

  /** Two different refunds from position `first` on return it. */
  ghost predicate ReturnedTwice(refunds: seq<Refund>, first: nat, id: Id) {
    exists p, q :: first <= p < q < |refunds| && id in refunds[p].ids && id in refunds[q].ids
  }

  /** Compensation does not clear the record: a later accepted cancellation returns a transaction a
      second time if and only if the compensation had returned it and it was on the record. For a stored
      reservation these are all that the compensation returned. */
  lemma RefundedAgainIff(s: State, b: Id, count: int, jobs: seq<Job>, env: ConfirmEnv, io: CancelIO, isUuid: Id -> bool, id: Id)
    requires s.Keyed() && b in s.batches && ConfirmedResult(s, b, count, jobs, env).Confirmed?
    requires io.getOk && io.updateOk && io.billing == Some(true)
    ensures ReturnedTwice(Run(s, TwoSteps(b, count, jobs, env, io), isUuid).refunds, |s.refunds|, id)
            <==> id in ReturnedAtOnce(count, |jobs|, env, isUuid) && (ReservationStored(env) || id in s.batches[b].transactionIds)
  {
    ConfirmThenCancel(s, b, count, jobs, env, io, isUuid);
    AssignedFromReservation(env.Reservation().ids, count, Covered(count, |jobs|), isUuid);
    TwoRefunds(s.refunds, b, ReturnedAtOnce(count, |jobs|, env, isUuid), OnRecord(s, b, env), id);
  }
}
