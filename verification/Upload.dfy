/** Turning an uploaded file into a batch: parse it, validate every row in two stages, and create
    the batch record with a job for every row. */
module Upload {
  import opened Domain
  import Flags
  import Numerals
  import Columns
  import opened SheetParser
  import Validation
  import opened Backend
  import Lifecycle

  /** What the remote validator answers for a row; Silent is an answer without a result. */
  datatype Remote = CallFailed(text: string) | Silent | Answered(valid: bool, errors: seq<Validation.ValidationError>)

  datatype RowError = RowError(row: nat, code: Validation.Code, message: string)

  /** The field rules of the revision and, if one is configured, the remote validator, which answers
      for the row at an index. */
  datatype Judge = Judge(rules: Validation.Rules, remote: Option<nat -> Remote>)

  type SheetRow = map<string, string>

  // ----- judging a row ----------------------------------------------------------------------

  function FieldsOf(row: SheetRow): SheetRow {
    map key | key in row && key != ROW_KEY :: row[key]
  }

  predicate LocallyValid(judge: Judge, row: SheetRow) {
    Validation.Passes(judge.rules, FieldsOf(row))
  }

  predicate RemoteAccepts(judge: Judge, i: nat) {
    judge.remote.Some? ==> judge.remote.value(i).Answered? && judge.remote.value(i).valid
  }

  function Accepted(judge: Judge, rows: seq<SheetRow>): nat -> bool {
    (i: nat) => i < |rows| && LocallyValid(judge, rows[i]) && RemoteAccepts(judge, i)
  }

  function RemoteErrors(answer: Remote): seq<Validation.ValidationError> {
    match answer
    case CallFailed(text) => [Validation.ValidationError(Validation.OtherCode("VALIDATOR_ERROR"), text)]
    case Silent => [Validation.ValidationError(Validation.OtherCode("INVALID_ROW"), "row validation failed")]
    case Answered(valid, errors) => if valid then [] else errors
  }

  function At(i: nat, errors: seq<Validation.ValidationError>): seq<RowError> {
    seq(|errors|, k requires 0 <= k < |errors| => RowError(i, errors[k].code, errors[k].message))
  }

  /** The errors of one row: of the local stage if that rejects it, otherwise of the remote stage. */
  ghost predicate IsPart(judge: Judge, row: SheetRow, i: nat, part: seq<RowError>) {
    if LocallyValid(judge, row) then
      part == At(i, if judge.remote.Some? then RemoteErrors(judge.remote.value(i)) else [])
    else
      exists errors, order :: Validation.IsReport(judge.rules, FieldsOf(row), errors, order) && part == At(i, errors)
  }

  /** `asked` tells whether the remote validator was called. */
  method JudgeRow(judge: Judge, row: SheetRow, i: nat) returns (valid: bool, part: seq<RowError>, ghost asked: bool)
    ensures valid <==> LocallyValid(judge, row) && RemoteAccepts(judge, i)
    ensures asked <==> LocallyValid(judge, row) && judge.remote.Some?
    ensures IsPart(judge, row, i, part)
  {
    var fields := FieldsOf(row);
    var errors;
    ghost var order;
    valid, errors, order := Validation.ValidateRow(judge.rules, fields);
    part, asked := [], false;
    if !valid {
      part := At(i, errors);
    }
    if valid && judge.remote.Some? {
      asked := true;
      var answer := judge.remote.value(i);
      match answer {
        case CallFailed(text) =>
          valid := false;
          part := [RowError(i, Validation.OtherCode("VALIDATOR_ERROR"), text)];
        case Silent =>
          valid := false;
          part := [RowError(i, Validation.OtherCode("INVALID_ROW"), "row validation failed")];
        case Answered(good, remoteErrors) =>
          if !good {
            valid := false;
            part := At(i, remoteErrors);
          }
      }
    }
  }

  // ----- all rows ---------------------------------------------------------------------------

  function Flat(parts: seq<seq<RowError>>): seq<RowError> {
    if parts == [] then [] else Flat(parts[..|parts| - 1]) + parts[|parts| - 1]
  }

  /** The errors of the first n rows, one part for each row. */
  ghost predicate AreParts(judge: Judge, rows: seq<SheetRow>, n: nat, parts: seq<seq<RowError>>)
    requires n <= |rows|
  {
    if n == 0 then parts == []
    else |parts| == n && AreParts(judge, rows, n - 1, parts[..n - 1]) && IsPart(judge, rows[n - 1], n - 1, parts[n - 1])
  }

  lemma OnePartMore(judge: Judge, rows: seq<SheetRow>, n: nat, parts: seq<seq<RowError>>, part: seq<RowError>)
    requires n < |rows| && AreParts(judge, rows, n, parts) && IsPart(judge, rows[n], n, part)
    ensures AreParts(judge, rows, n + 1, parts + [part])
    ensures Flat(parts + [part]) == Flat(parts) + part
  {
    assert (parts + [part])[..n] == parts;
  }

  /** The positions below n where f says yes, in order. */
  function Positions(f: nat -> bool, n: nat): seq<nat> {
    if n == 0 then [] else Positions(f, n - 1) + (if f(n - 1) then [n - 1] else [])
  }

  /** The rows for which the remote validator is to be called. */
  function ToAsk(judge: Judge, rows: seq<SheetRow>): nat -> bool {
    (i: nat) => i < |rows| && LocallyValid(judge, rows[i]) && judge.remote.Some?
  }

  /** Answers while jobs are created. */
  datatype JobIO = JobIO(jobId: nat -> Id, jobOk: nat -> bool)

  /** The job of the row at index i; its number is the one the parser noted. */
  function JobOf(batch: Id, row: SheetRow, i: nat, io: JobIO): Job {
    Job(io.jobId(i), batch, i + 2, Pending, FieldsOf(row), None, NO_OUTCOME)
  }

  function AddJob(jobs: map<Id, Job>, j: Job, up: bool): map<Id, Job> {
    if up && j.id !in jobs then jobs[j.id := j] else jobs
  }

  function JobsFrom(jobs: map<Id, Job>, batch: Id, rows: seq<SheetRow>, n: nat, io: JobIO): map<Id, Job>
    requires n <= |rows|
  {
    if n == 0 then jobs else AddJob(JobsFrom(jobs, batch, rows, n - 1, io), JobOf(batch, rows[n - 1], n - 1, io), io.jobOk(n - 1))
  }

  /** Rows as the parser makes them: the row at index i notes the number i + 2. */
  ghost predicate Numbered(rows: seq<SheetRow>) {
    forall i :: 0 <= i < |rows| ==> ROW_KEY in rows[i] && rows[i][ROW_KEY] == Numerals.Itoa(i + 2)
  }

  /** A noted number reads back, or is too large to be read at all. */
  lemma NotedNumber(n: nat)
    ensures Numerals.Atoi(Numerals.Itoa(n)) == None || Numerals.Atoi(Numerals.Itoa(n)) == Some(n)
  {
    if n < Numerals.INT_LIMIT {
      Numerals.AtoiOfItoa(n);
    } else {
      Numerals.AtoiTooLarge(n);
    }
  }

  method CreateRowJob(w: Services, batch: Id, row: SheetRow, i: nat, io: JobIO)
    requires batch in w.batches && ROW_KEY in row && row[ROW_KEY] == Numerals.Itoa(i + 2)
    modifies w`jobs
    ensures w.jobs == AddJob(old(w.jobs), JobOf(batch, row, i, io), io.jobOk(i))
  {
    var number := i + 2;
    if ROW_KEY in row {
      var noted := Numerals.Atoi(row[ROW_KEY]);
      if noted.Some? {
        number := noted.value;
      }
    }
    NotedNumber(i + 2);
    var _ := w.CreateJob(Job(io.jobId(i), batch, number, Pending, FieldsOf(row), None, NO_OUTCOME), io.jobOk(i));
  }

  /** What the row loop has gathered. */
  datatype Gathered = Gathered(valid: nat, invalid: nat, errors: seq<RowError>)

  /** The turns of the loop so far: the errors of each row, and the rows the remote validator saw. */
  datatype Turns = Turns(parts: seq<seq<RowError>>, asked: seq<nat>)

  /** What has been gathered from the first n rows, and how. */
  ghost predicate Account(judge: Judge, rows: seq<SheetRow>, n: nat, g: Gathered, turns: Turns)
    requires n <= |rows|
  {
    && g.valid == Flags.CountTrue(Accepted(judge, rows), n) && g.valid + g.invalid == n
    && AreParts(judge, rows, n, turns.parts) && g.errors == Flat(turns.parts)
    && turns.asked == Positions(ToAsk(judge, rows), n)
  }

  lemma AccountStarts(judge: Judge, rows: seq<SheetRow>)
    ensures Account(judge, rows, 0, Gathered(0, 0, []), Turns([], []))
  {
  }

  lemma AccountGrows(judge: Judge, rows: seq<SheetRow>, n: nat, g: Gathered, turns: Turns, valid: bool, part: seq<RowError>, asked: bool)
    requires n < |rows| && Account(judge, rows, n, g, turns)
    requires valid <==> LocallyValid(judge, rows[n]) && RemoteAccepts(judge, n)
    requires asked <==> LocallyValid(judge, rows[n]) && judge.remote.Some?
    requires IsPart(judge, rows[n], n, part)
    ensures Account(judge, rows, n + 1, Added(g, valid, part), Turned(turns, n, part, asked))
  {
    OnePartMore(judge, rows, n, turns.parts, part);
  }

  function Added(g: Gathered, valid: bool, part: seq<RowError>): Gathered {
    Gathered(if valid then g.valid + 1 else g.valid, if valid then g.invalid else g.invalid + 1, g.errors + part)
  }

  ghost function Turned(turns: Turns, n: nat, part: seq<RowError>, asked: bool): Turns {
    Turns(turns.parts + [part], if asked then turns.asked + [n] else turns.asked)
  }

  /** One turn of the row loop. */
  method ProcessRow(w: Services, batch: Id, rows: seq<SheetRow>, i: nat, judge: Judge, io: JobIO,
                    g: Gathered, ghost turns: Turns, ghost before: map<Id, Job>)
    returns (more: Gathered, ghost later: Turns)
    requires batch in w.batches && i < |rows| && Numbered(rows)
    requires Account(judge, rows, i, g, turns) && w.jobs == JobsFrom(before, batch, rows, i, io)
    modifies w`jobs
    ensures Account(judge, rows, i + 1, more, later)
    ensures w.jobs == JobsFrom(before, batch, rows, i + 1, io)
  {
    ghost var asked;
    var good, part;
    good, part, asked := JudgeRow(judge, rows[i], i);
    AccountGrows(judge, rows, i, g, turns, good, part, asked);
    more := g.(errors := g.errors + part);
    if good {
      more := more.(valid := more.valid + 1);
    } else {
      more := more.(invalid := more.invalid + 1);
    }
    later := Turned(turns, i, part, asked);
    CreateRowJob(w, batch, rows[i], i, io);
  }

  /** Where the row loop stands after n rows. */
  ghost predicate LoopAt(judge: Judge, batch: Id, rows: seq<SheetRow>, n: nat, io: JobIO, g: Gathered, turns: Turns,
                         before: map<Id, Job>, now: map<Id, Job>)
  {
    n <= |rows| && Account(judge, rows, n, g, turns) && now == JobsFrom(before, batch, rows, n, io)
  }

  /** The row loop of CreateBatchFromFile. */
  method ProcessRows(w: Services, batch: Id, rows: seq<SheetRow>, judge: Judge, io: JobIO)
    returns (g: Gathered, ghost turns: Turns)
    requires batch in w.batches && Numbered(rows)
    modifies w`jobs
    ensures Account(judge, rows, |rows|, g, turns)
    ensures w.jobs == JobsFrom(old(w.jobs), batch, rows, |rows|, io)
  {
    g, turns := Gathered(0, 0, []), Turns([], []);
    AccountStarts(judge, rows);
    ghost var before := w.jobs;
    for i := 0 to |rows|
      invariant LoopAt(judge, batch, rows, i, io, g, turns, before, w.jobs)
      modifies w`jobs
    {
      g, turns := ProcessRow(w, batch, rows, i, judge, io, g, turns, before);
    }
  }

  // ----- what was gathered ------------------------------------------------------------------

  /** The errors of row i among all errors. */
  function CountRow(errors: seq<RowError>, i: nat): nat {
    if errors == [] then 0 else CountRow(errors[..|errors| - 1], i) + (if errors[|errors| - 1].row == i then 1 else 0)
  }

  lemma {:induction false} CountRowConcat(x: seq<RowError>, y: seq<RowError>, i: nat)
    ensures CountRow(x + y, i) == CountRow(x, i) + CountRow(y, i)
  {
    if y == [] {
      assert x + y == x;
    } else {
      assert (x + y)[..|x + y| - 1] == x + y[..|y| - 1];
      CountRowConcat(x, y[..|y| - 1], i);
    }
  }

  lemma {:induction false} CountRowUniform(errors: seq<RowError>, i: nat, j: nat)
    requires forall k :: 0 <= k < |errors| ==> errors[k].row == j
    ensures CountRow(errors, i) == if i == j then |errors| else 0
  {
    if errors != [] {
      CountRowUniform(errors[..|errors| - 1], i, j);
    }
  }

  lemma PartRows(judge: Judge, row: SheetRow, i: nat, part: seq<RowError>)
    requires IsPart(judge, row, i, part)
    ensures forall k :: 0 <= k < |part| ==> part[k].row == i
    ensures !LocallyValid(judge, row) ==> |part| == |Validation.Failing(judge.rules, FieldsOf(row))|
    ensures LocallyValid(judge, row) && RemoteAccepts(judge, i) ==> part == []
  {
    if !LocallyValid(judge, row) {
      var errors, order :| Validation.IsReport(judge.rules, FieldsOf(row), errors, order) && part == At(i, errors);
      Validation.ReportSize(judge.rules, FieldsOf(row), errors, order);
    }
  }

  /** Errors stand in the order of their rows. */
  lemma {:induction false} ErrorsInRowOrder(judge: Judge, rows: seq<SheetRow>, n: nat, parts: seq<seq<RowError>>)
    requires n <= |rows| && AreParts(judge, rows, n, parts)
    ensures forall k :: 0 <= k < |Flat(parts)| ==> Flat(parts)[k].row < n
    ensures forall j, k :: 0 <= j < k < |Flat(parts)| ==> Flat(parts)[j].row <= Flat(parts)[k].row
  {
    if n > 0 {
      ErrorsInRowOrder(judge, rows, n - 1, parts[..n - 1]);
      PartRows(judge, rows[n - 1], n - 1, parts[n - 1]);
    }
  }

  /** A row rejected locally has one error for each failing field, and an accepted row has none. */
  lemma {:induction false} ErrorsOfRow(judge: Judge, rows: seq<SheetRow>, n: nat, parts: seq<seq<RowError>>, i: nat)
    requires n <= |rows| && AreParts(judge, rows, n, parts)
    ensures i < n && !LocallyValid(judge, rows[i]) ==>
              CountRow(Flat(parts), i) == |Validation.Failing(judge.rules, FieldsOf(rows[i]))|
    ensures i < n && Accepted(judge, rows)(i) ==> CountRow(Flat(parts), i) == 0
    ensures i >= n ==> CountRow(Flat(parts), i) == 0
  {
    if n > 0 {
      var front, last := parts[..n - 1], parts[n - 1];
      ErrorsOfRow(judge, rows, n - 1, front, i);
      PartRows(judge, rows[n - 1], n - 1, last);
      CountRowConcat(Flat(front), last, i);
      CountRowUniform(last, i, n - 1);
    }
  }

  lemma {:induction false} PositionsAre(f: nat -> bool, n: nat)
    ensures forall i: nat :: i in Positions(f, n) <==> i < n && f(i)
    ensures forall j, k :: 0 <= j < k < |Positions(f, n)| ==> Positions(f, n)[j] < Positions(f, n)[k]
  {
    if n > 0 {
      PositionsAre(f, n - 1);
      var before := Positions(f, n - 1);
      assert forall k :: 0 <= k < |before| ==> before[k] in before;
    }
  }

  /** The account of a whole upload: the remote validator saw exactly the locally valid rows, in
      order and once each; errors are in row order; every failing field of a locally rejected row has
      its error, and the rows counted as valid are those both stages accepted. */
  lemma AccountTells(judge: Judge, rows: seq<SheetRow>, g: Gathered, turns: Turns)
    requires Account(judge, rows, |rows|, g, turns)
    ensures forall i: nat :: i in turns.asked <==> i < |rows| && LocallyValid(judge, rows[i]) && judge.remote.Some?
    ensures forall j, k :: 0 <= j < k < |turns.asked| ==> turns.asked[j] < turns.asked[k]
    ensures forall j, k :: 0 <= j < k < |g.errors| ==> g.errors[j].row <= g.errors[k].row
    ensures forall i :: 0 <= i < |rows| && !LocallyValid(judge, rows[i])
              ==> CountRow(g.errors, i) == |Validation.Failing(judge.rules, FieldsOf(rows[i]))|
    ensures forall i :: 0 <= i < |rows| && Accepted(judge, rows)(i) ==> CountRow(g.errors, i) == 0
  {
    PositionsAre(ToAsk(judge, rows), |rows|);
    ErrorsInRowOrder(judge, rows, |rows|, turns.parts);
    forall i | 0 <= i < |rows|
      ensures !LocallyValid(judge, rows[i]) ==> CountRow(g.errors, i) == |Validation.Failing(judge.rules, FieldsOf(rows[i]))|
      ensures Accepted(judge, rows)(i) ==> CountRow(g.errors, i) == 0
    {
      ErrorsOfRow(judge, rows, |rows|, turns.parts, i);
    }
  }

  // ----- the jobs ---------------------------------------------------------------------------

  /** The jobs that the upload adds. */
  function Created(jobs: map<Id, Job>, batch: Id, rows: seq<SheetRow>, n: nat, io: JobIO): map<Id, Job>
    requires n <= |rows|
  {
    if n == 0 then map[]
    else
      var before, j := Created(jobs, batch, rows, n - 1, io), JobOf(batch, rows[n - 1], n - 1, io);
      if io.jobOk(n - 1) && j.id !in jobs && j.id !in before then before[j.id := j] else before
  }

  lemma {:induction false} JobsAreAdded(jobs: map<Id, Job>, batch: Id, rows: seq<SheetRow>, n: nat, io: JobIO)
    requires n <= |rows|
    ensures JobsFrom(jobs, batch, rows, n, io) == jobs + Created(jobs, batch, rows, n, io)
  {
    if n > 0 {
      JobsAreAdded(jobs, batch, rows, n - 1, io);
    }
  }

  /** At most one new job for each row, all of the new batch. */
  lemma {:induction false} CreatedJobs(jobs: map<Id, Job>, batch: Id, rows: seq<SheetRow>, n: nat, io: JobIO)
    requires n <= |rows|
    ensures var created := Created(jobs, batch, rows, n, io);
            && |created| <= n && created.Keys !! jobs.Keys
            && forall id :: id in created ==> created[id].id == id && created[id].batchId == batch
  {
    if n > 0 {
      CreatedJobs(jobs, batch, rows, n - 1, io);
    }
  }

  /** The row a new job comes from. */
  lemma {:induction false} CreatedFor(jobs: map<Id, Job>, batch: Id, rows: seq<SheetRow>, n: nat, io: JobIO, id: Id) returns (i: nat)
    requires n <= |rows| && id in Created(jobs, batch, rows, n, io)
    ensures i < n && id == io.jobId(i) && Created(jobs, batch, rows, n, io)[id] == JobOf(batch, rows[i], i, io)
  {
    if id in Created(jobs, batch, rows, n - 1, io) {
      i := CreatedFor(jobs, batch, rows, n - 1, io, id);
    } else {
      i := n - 1;
    }
  }

  /** When every job can be created and their ids are new, there are as many new jobs as rows, and
      the row at index i has the job numbered i + 2. */
  lemma {:induction false} EveryRowHasItsJob(jobs: map<Id, Job>, batch: Id, rows: seq<SheetRow>, n: nat, io: JobIO, i: nat)
    requires i < n <= |rows|
    requires forall k: nat :: k < n ==> io.jobOk(k) && io.jobId(k) !in jobs
    requires forall j: nat, k: nat :: j < k < n ==> io.jobId(j) != io.jobId(k)
    ensures var created := Created(jobs, batch, rows, n, io);
            |created| == n && io.jobId(i) in created && created[io.jobId(i)] == JobOf(batch, rows[i], i, io)
  {
    if n > 1 {
      EveryRowHasItsJob(jobs, batch, rows, n - 1, io, if i < n - 1 then i else 0);
    }
    if io.jobId(n - 1) in Created(jobs, batch, rows, n - 1, io) {
      var k := CreatedFor(jobs, batch, rows, n - 1, io, io.jobId(n - 1));
      assert false;
    }
  }

  // ----- the whole upload -------------------------------------------------------------------

  /** The configured limits, and the two environment settings that replace them after the file has
      been read; a size setting is in bytes here. */
  datatype FileLimits = FileLimits(maxFileSize: int, maxRows: int, rowsSetting: Option<int>, bytesSetting: Option<int>) {
    /** The limits for the parser; the number of columns is not limited. */
    function ForParser(): Limits {
      Limits(if rowsSetting.Some? then rowsSetting.value else maxRows, 0,
             if bytesSetting.Some? then bytesSetting.value else maxFileSize)
    }
  }

  /** An uploaded file: its length, whether it could be read that far, and its cells. */
  datatype File = File(size: nat, readOk: bool, sheet: Option<seq<seq<string>>>)

  /** `storage` is None when no file storage is configured, and Some(None) when it fails. */
  datatype UploadIO = UploadIO(
    batchId: Id,
    createdAt: Time,
    createOk: bool,
    jobIO: JobIO,
    storage: Option<Option<string>>,
    updateOk: bool)

  datatype UploadError = ReadFailed | FileTooLarge | Unparsable(error: ParseError) | CreateFailed | StoreFailed

  datatype UploadResult =
    | Aborted(error: UploadError)
    | Uploaded(totalRows: nat, gathered: Gathered)

  /** The record as it is first stored: every row counts as valid until all have been judged. */
  function FirstRecord(io: UploadIO, revision: string, total: nat): Batch {
    Batch(io.batchId, "", BatchPending, revision, "", total, total, 0, 0, 0, io.createdAt, None, [], "", 0)
  }

  function FileId(io: UploadIO): string {
    if io.storage.Some? && io.storage.value.Some? then io.storage.value.value else ""
  }

  /** The record an upload leaves behind. */
  function LastRecord(io: UploadIO, revision: string, total: nat, result: UploadResult): Batch {
    var first := FirstRecord(io, revision, total);
    if result.Uploaded? && io.updateOk then first.(validRows := result.gathered.valid, fileStorageId := FileId(io)) else first
  }

  /** An upload as a step of a run: its record, and its jobs. */
  function UploadStep(s: State, revision: string, rows: seq<SheetRow>, io: UploadIO, result: UploadResult): Lifecycle.Step {
    Lifecycle.NewBatch(LastRecord(io, revision, |rows|, result), Created(s.jobs, io.batchId, rows, |rows|, io.jobIO))
  }

  /** The state that an upload leaves behind. */
  function After(s: State, revision: string, rows: seq<SheetRow>, io: UploadIO, result: UploadResult): State {
    s.(batches := s.batches[io.batchId := LastRecord(io, revision, |rows|, result)],
       jobs := s.jobs + Created(s.jobs, io.batchId, rows, |rows|, io.jobIO))
  }

  lemma AfterIs(s: State, revision: string, rows: seq<SheetRow>, io: UploadIO, result: UploadResult)
    ensures After(s, revision, rows, io, result)
         == s.(batches := s.batches[io.batchId := LastRecord(io, revision, |rows|, result)],
               jobs := JobsFrom(s.jobs, io.batchId, rows, |rows|, io.jobIO))
  {
    JobsAreAdded(s.jobs, io.batchId, rows, |rows|, io.jobIO);
  }

  /** For a new batch it is a step of a run. */
  lemma UploadFitsRun(s: State, revision: string, rows: seq<SheetRow>, io: UploadIO, result: UploadResult, isUuid: Id -> bool)
    requires io.batchId !in s.batches
    ensures Lifecycle.Possible(s, UploadStep(s, revision, rows, io, result))
    ensures Lifecycle.Next(s, UploadStep(s, revision, rows, io, result), isUuid) == After(s, revision, rows, io, result)
  {
    CreatedJobs(s.jobs, io.batchId, rows, |rows|, io.jobIO);
  }

  /** Storing the file, if there is a storage, and then the counts. */
  method StoreFile(w: Services, first: Batch, valid: nat, io: UploadIO) returns (stored: bool)
    requires first.id in w.batches && first.fileStorageId == ""
    modifies w`batches
    ensures stored == (io.storage != Some(None))
    ensures w.batches == if stored && io.updateOk
                         then old(w.batches)[first.id := Persisted(old(w.batches)[first.id],
                                                                   first.(validRows := valid, fileStorageId := FileId(io)))]
                         else old(w.batches)
  {
    var record := first.(validRows := valid);
    if io.storage.Some? {
      if io.storage.value.None? {
        return false;
      }
      record := record.(fileStorageId := io.storage.value.value);
    }
    var _ := w.UpdateBatch(record, io.updateOk);
    stored := true;
  }

  /** Everything after parsing. */
  method StoreBatch(w: Services, revision: string, rows: seq<SheetRow>, judge: Judge, io: UploadIO)
    returns (result: UploadResult, ghost turns: Turns)
    requires Numbered(rows)
    modifies w`batches, w`jobs
    ensures result == Aborted(CreateFailed) <==> !io.createOk || io.batchId in old(w.batches)
    ensures result == Aborted(StoreFailed) <==> io.createOk && io.batchId !in old(w.batches) && io.storage == Some(None)
    ensures Stored(result) || result.error == CreateFailed
    ensures result.Uploaded? ==> result.totalRows == |rows| && Account(judge, rows, |rows|, result.gathered, turns)
    ensures w.View() == if Stored(result) then After(old(w.View()), revision, rows, io, result) else old(w.View())
  {
    turns := Turns([], []);
    ghost var before := w.View();
    var record := FirstRecord(io, revision, |rows|);
    var ok := w.CreateBatch(record, io.createOk);
    if !ok {
      return Aborted(CreateFailed), turns;
    }
    var g;
    g, turns := ProcessRows(w, io.batchId, rows, judge, io.jobIO);
    var stored := StoreFile(w, record, g.valid, io);
    result := if stored then Uploaded(|rows|, g) else Aborted(StoreFailed);
    AfterIs(before, revision, rows, io, result);
  }

  /** A file that gets as far as having its headers looked at. */
  predicate Readable(file: File, limits: FileLimits) {
    file.readOk && file.size <= limits.maxFileSize && WithinLimits(file.size, file.sheet, limits.ForParser())
  }

  /** Nothing was stored, or the batch was. */
  predicate Stored(result: UploadResult) {
    result.Uploaded? || result.error == StoreFailed
  }

  /** An upload. One that fails before its batch is stored leaves nothing behind. Otherwise it leaves
      one batch record with the jobs of its rows: with the counts of the account when it succeeds, and
      with every row counted as valid when storing the file fails. */
  method CreateBatchFromFile(w: Services, file: File, revision: string, limits: FileLimits, text: Columns.TextFunctions,
                             judge: Judge, io: UploadIO)
    returns (result: UploadResult, ghost columns: map<string, string>, ghost rows: seq<SheetRow>, ghost turns: Turns)
    modifies w`batches, w`jobs
    ensures Readable(file, limits) ==> IsDetection(columns, file.sheet.value[0], revision, text)
    ensures Stored(result) || result.error == CreateFailed <==> Readable(file, limits) && SomeRecognised(file.sheet.value[0], columns)
    ensures Stored(result) || result.error == CreateFailed ==> AreRows(rows, file.sheet.value, columns, text.trim)
    ensures result == Aborted(ReadFailed) <==> !file.readOk
    ensures result == Aborted(FileTooLarge) <==> file.readOk && file.size > limits.maxFileSize
    ensures result.Uploaded? ==> result.totalRows == |rows| && Account(judge, rows, |rows|, result.gathered, turns)
    ensures result.Uploaded? ==> !Exceeds(result.totalRows, limits.ForParser().maxRows)
    ensures Stored(result) ==> Lifecycle.Possible(old(w.View()), UploadStep(old(w.View()), revision, rows, io, result))
    ensures w.View() == if Stored(result) then After(old(w.View()), revision, rows, io, result) else old(w.View())
  {
    columns, rows, turns := map[], [], Turns([], []);
    if !file.readOk {
      return Aborted(ReadFailed), columns, rows, turns;
    }
    var n := if file.size < limits.maxFileSize + 1 then file.size else limits.maxFileSize + 1;
    if n > limits.maxFileSize {
      return Aborted(FileTooLarge), columns, rows, turns;
    }
    var parsed;
    parsed, columns := Parse(file.size, file.sheet, revision, limits.ForParser(), text);
    if parsed.Rejected? {
      return Aborted(Unparsable(parsed.error)), columns, rows, turns;
    }
    rows := parsed.rows;
    result, turns := StoreBatch(w, revision, parsed.rows, judge, io);
    if result != Aborted(CreateFailed) {
      UploadFitsRun(old(w.View()), revision, rows, io, result, _ => true);
    }
  }
}
