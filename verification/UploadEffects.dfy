/** What an upload stores and reports, row by row and field by field. */
module UploadEffects {
  import opened Domain
  import opened SheetParser
  import Validation
  import opened Upload

  /** An environment setting replaces the configured limit for the parser. A file must keep both size
      limits, so that the setting can only lower what is accepted; columns are not limited. */
  lemma SettingsLimit(file: File, limits: FileLimits)
    ensures Readable(file, limits)
       <==> && file.readOk && file.size <= limits.maxFileSize && file.sheet.Some? && file.sheet.value != []
            && (var bytes := if limits.bytesSetting.Some? then limits.bytesSetting.value else limits.maxFileSize;
                bytes <= 0 || file.size <= bytes)
            && (var rows := if limits.rowsSetting.Some? then limits.rowsSetting.value else limits.maxRows;
                rows <= 0 || |file.sheet.value| <= rows + 1)
  {
  }

  /** The stored record: a pending batch of the revision, without an owner, with one row for each data
      row and nothing counted; with the valid rows and the file once these could be stored. */
  lemma RecordTells(io: UploadIO, revision: string, total: nat, result: UploadResult)
    ensures var r := LastRecord(io, revision, total, result);
            && r.id == io.batchId && r.status == BatchPending && r.revision == revision && r.userId == ""
            && r.totalRows == total && r.createdAt == io.createdAt && r.completedAt == None
            && r.approvedCount == 0 && r.completedCount == 0 && r.failedCount == 0 && r.transactionIds == []
            && r.validRows == (if result.Uploaded? && io.updateOk then result.gathered.valid else total)
            && r.fileStorageId == (if result.Uploaded? && io.updateOk && io.storage.Some? && io.storage.value.Some?
                                   then io.storage.value.value else "")
  {
  }

  /** A new job: that of some row, pending, numbered from 2, with the fields of the row but its number. */
  lemma JobTells(jobs: map<Id, Job>, batch: Id, rows: seq<SheetRow>, n: nat, io: JobIO, id: Id) returns (i: nat)
    requires n <= |rows| && id in Created(jobs, batch, rows, n, io)
    ensures i < n && id == io.jobId(i)
    ensures var j := Created(jobs, batch, rows, n, io)[id];
            && j.id == id && j.batchId == batch && j.rowNumber == i + 2 && j.status == Pending
            && j.billingTx == None && j.outcome == NO_OUTCOME
            && (forall key :: key in j.fields <==> key in rows[i] && key != "_row")
            && (forall key :: key in j.fields ==> j.fields[key] == rows[i][key])
  {
    i := CreatedFor(jobs, batch, rows, n, io, id);
  }

  /** When a row counts as valid: no field but its number fails a rule, and the remote validator, if there
      is one, answers that it is valid. */
  lemma AcceptedIff(judge: Judge, rows: seq<SheetRow>, i: nat)
    requires i < |rows|
    ensures Accepted(judge, rows)(i)
       <==> && (forall key :: key in rows[i] && key != "_row" ==> Validation.Validate(judge.rules, key, rows[i][key]) == None)
            && (judge.remote.Some? ==> judge.remote.value(i).Answered? && judge.remote.value(i).valid)
  {
    LocallyValidIff(judge, rows[i]);
  }

  lemma LocallyValidIff(judge: Judge, row: SheetRow)
    ensures LocallyValid(judge, row)
       <==> forall key :: key in row && key != "_row" ==> Validation.Validate(judge.rules, key, row[key]) == None
  {
    var failing := Validation.Failing(judge.rules, FieldsOf(row));
    if LocallyValid(judge, row) {
      forall key | key in row && key != "_row" ensures Validation.Validate(judge.rules, key, row[key]) == None {
        assert key !in failing;
      }
    }
  }

  lemma {:induction false} PartAt(judge: Judge, rows: seq<SheetRow>, n: nat, parts: seq<seq<RowError>>, i: nat)
    requires i < n <= |rows| && AreParts(judge, rows, n, parts)
    ensures i < |parts| && IsPart(judge, rows[i], i, parts[i])
  {
    if i < n - 1 {
      PartAt(judge, rows, n - 1, parts[..n - 1], i);
    }
  }

  /** The errors reported for a row that the local rules let through: the failure of the call, the lack of
      an answer, or the errors of the answer, under the index of the row. */
  lemma RemoteErrorsTold(judge: Judge, rows: seq<SheetRow>, g: Gathered, turns: Turns, i: nat)
    requires Account(judge, rows, |rows|, g, turns) && i < |rows| && LocallyValid(judge, rows[i])
    ensures i < |turns.parts| && g.errors == Flat(turns.parts)
    ensures judge.remote == None ==> turns.parts[i] == []
    ensures judge.remote.Some? ==>
              match judge.remote.value(i)
              case CallFailed(text) => turns.parts[i] == [RowError(i, Validation.OtherCode("VALIDATOR_ERROR"), text)]
              case Silent => turns.parts[i] == [RowError(i, Validation.OtherCode("INVALID_ROW"), "row validation failed")]
              case Answered(valid, errors) =>
                if valid then turns.parts[i] == []
                else |turns.parts[i]| == |errors|
                     && forall k :: 0 <= k < |errors| ==> turns.parts[i][k] == RowError(i, errors[k].code, errors[k].message)
  {
    PartAt(judge, rows, |rows|, turns.parts, i);
  }

  /** Each error reported for a row that they reject is that of one of its failing fields. */
  lemma LocalErrorsTold(judge: Judge, rows: seq<SheetRow>, g: Gathered, turns: Turns, i: nat, k: nat) returns (field: string)
    requires Account(judge, rows, |rows|, g, turns) && i < |rows| && !LocallyValid(judge, rows[i])
    requires i < |turns.parts| && k < |turns.parts[i]|
    ensures field in rows[i] && field != "_row"
    ensures var error := Validation.Validate(judge.rules, field, rows[i][field]);
            error.Some? && turns.parts[i][k] == RowError(i, error.value.code, error.value.message)
  {
    PartAt(judge, rows, |rows|, turns.parts, i);
    var errors, order :| Validation.IsReport(judge.rules, FieldsOf(rows[i]), errors, order) && turns.parts[i] == At(i, errors);
    field := order[k];
    assert field in FieldsOf(rows[i]);
  }
}
