/** From the cells of a sheet to rows keyed by field code. */
module SheetParser {
  import opened Domain
  import Numerals
  import Columns

  datatype ParseError = InvalidFormat | EmptyFile | TooManyColumns | TooManyRows | InvalidHeaders

  datatype ParseResult = Parsed(rows: seq<map<string, string>>) | Rejected(error: ParseError)

  /** A limit that is not positive is no limit. */
  datatype Limits = Limits(maxRows: int, maxCols: int, maxFileSize: int)

  const ROW_KEY := "_row"

  predicate Exceeds(size: int, limit: int) {
    limit > 0 && size > limit
  }

  // ----- one row ----------------------------------------------------------------------------

  /** Column c of a row holds the field with that code. */
  predicate Holds(headers: seq<string>, cells: seq<string>, columns: map<string, string>, c: nat, code: string)
    requires forall h :: h in headers ==> h in columns
  {
    c < |headers| && c < |cells| && columns[headers[c]] == code && code != ""
  }

  /** The map of a row: each code that some column present in the row stands for, with the trimmed
      cell of the last such column; the row number; and nothing else. */
  ghost predicate IsRowData(data: map<string, string>, headers: seq<string>, cells: seq<string>, columns: map<string, string>,
                            trim: string -> string, number: nat)
    requires forall h :: h in headers ==> h in columns
  {
    && ROW_KEY in data && data[ROW_KEY] == Numerals.Itoa(number)
    && (forall code :: code in data && code != ROW_KEY ==> exists c: nat :: Holds(headers, cells, columns, c, code))
    && (forall c: nat, code :: Holds(headers, cells, columns, c, code) && code != ROW_KEY
          && (forall d: nat :: d > c ==> !Holds(headers, cells, columns, d, code))
          ==> code in data && data[code] == trim(cells[c]))
  }

  /** The last of the first n columns that holds the field with that code. */
  function LastColumn(headers: seq<string>, cells: seq<string>, columns: map<string, string>, n: nat, code: string): (c: Option<nat>)
    requires forall h :: h in headers ==> h in columns
    ensures c.Some? ==> c.value < |cells|
  {
    if n == 0 then None
    else if Holds(headers, cells, columns, n - 1, code) then Some(n - 1)
    else LastColumn(headers, cells, columns, n - 1, code)
  }

  lemma {:induction false} LastColumnIs(headers: seq<string>, cells: seq<string>, columns: map<string, string>, n: nat, code: string, d: nat)
    requires forall h :: h in headers ==> h in columns
    ensures var c := LastColumn(headers, cells, columns, n, code);
            && (c.Some? ==> c.value < n && Holds(headers, cells, columns, c.value, code))
            && (d < n && Holds(headers, cells, columns, d, code) ==> c.Some? && d <= c.value)
  {
    if n > 0 {
      LastColumnIs(headers, cells, columns, n - 1, code, d);
    }
  }

  lemma RowDataAgree(x: map<string, string>, y: map<string, string>, headers: seq<string>, cells: seq<string>,
                     columns: map<string, string>, trim: string -> string, number: nat, code: string)
    requires forall h :: h in headers ==> h in columns
    requires IsRowData(x, headers, cells, columns, trim, number) && IsRowData(y, headers, cells, columns, trim, number)
    requires code in x
    ensures code in y && x[code] == y[code]
  {
    if code != ROW_KEY {
      var c: nat :| Holds(headers, cells, columns, c, code);
      LastColumnIs(headers, cells, columns, |headers|, code, c);
      var last := LastColumn(headers, cells, columns, |headers|, code).value;
      forall d: nat | d > last ensures !Holds(headers, cells, columns, d, code) {
        LastColumnIs(headers, cells, columns, |headers|, code, d);
      }
    }
  }

  /** That determines the map of a row. */
  lemma RowDataUnique(x: map<string, string>, y: map<string, string>, headers: seq<string>, cells: seq<string>,
                      columns: map<string, string>, trim: string -> string, number: nat)
    requires forall h :: h in headers ==> h in columns
    requires IsRowData(x, headers, cells, columns, trim, number) && IsRowData(y, headers, cells, columns, trim, number)
    ensures x == y
  {
    forall code | code in x ensures code in y && x[code] == y[code] {
      RowDataAgree(x, y, headers, cells, columns, trim, number, code);
    }
    forall code | code in y ensures code in x {
      RowDataAgree(y, x, headers, cells, columns, trim, number, code);
    }
  }

  /** The map after the first n columns. */
  ghost predicate IsFilled(data: map<string, string>, headers: seq<string>, cells: seq<string>, columns: map<string, string>,
                           trim: string -> string, n: nat)
    requires forall h :: h in headers ==> h in columns
  {
    forall code ::
      var c := LastColumn(headers, cells, columns, n, code);
      if c.Some? then code in data && data[code] == trim(cells[c.value]) else code !in data
  }

  lemma FilledIsRowData(data: map<string, string>, headers: seq<string>, cells: seq<string>, columns: map<string, string>,
                        trim: string -> string, number: nat)
    requires forall h :: h in headers ==> h in columns
    requires IsFilled(data, headers, cells, columns, trim, |headers|)
    ensures IsRowData(data[ROW_KEY := Numerals.Itoa(number)], headers, cells, columns, trim, number)
  {
    var after := data[ROW_KEY := Numerals.Itoa(number)];
    forall code | code in after && code != ROW_KEY ensures exists c: nat :: Holds(headers, cells, columns, c, code) {
      LastColumnIs(headers, cells, columns, |headers|, code, 0);
    }
    forall c: nat, code | Holds(headers, cells, columns, c, code) && code != ROW_KEY
        && (forall d: nat :: d > c ==> !Holds(headers, cells, columns, d, code))
      ensures code in after && after[code] == trim(cells[c])
    {
      LastColumnIs(headers, cells, columns, |headers|, code, c);
    }
  }

  method MapRow(headers: seq<string>, cells: seq<string>, columns: map<string, string>, maxCols: int,
                trim: string -> string, number: nat)
    returns (data: map<string, string>)
    requires forall h :: h in headers ==> h in columns
    requires !Exceeds(|headers|, maxCols)
    ensures IsRowData(data, headers, cells, columns, trim, number)
  {
    data := map[];
    var c: nat := 0;
    while c < |headers|
      invariant c <= |headers| && IsFilled(data, headers, cells, columns, trim, c)
    {
      if maxCols > 0 && c >= maxCols {
        break;
      }
      if c < |cells| {
        var code := columns[headers[c]];
        if code != "" {
          data := data[code := trim(cells[c])];
        }
      }
      c := c + 1;
    }
    FilledIsRowData(data, headers, cells, columns, trim, number);
    data := data[ROW_KEY := Numerals.Itoa(number)];
  }

  // ----- the sheet --------------------------------------------------------------------------

  predicate SomeRecognised(headers: seq<string>, columns: map<string, string>)
    requires forall h :: h in headers ==> h in columns
  {
    exists i :: 0 <= i < |headers| && columns[headers[i]] != ""
  }

  method CountRecognised(headers: seq<string>, columns: map<string, string>) returns (recognised: nat)
    requires forall h :: h in headers ==> h in columns
    ensures recognised > 0 <==> SomeRecognised(headers, columns)
  {
    recognised := 0;
    for i := 0 to |headers|
      invariant recognised > 0 <==> exists k :: 0 <= k < i && columns[headers[k]] != ""
    {
      if columns[headers[i]] != "" {
        recognised := recognised + 1;
      }
    }
  }

  /** A sheet that can be read, is not empty and is within the limits. */
  predicate WithinLimits(size: nat, sheet: Option<seq<seq<string>>>, limits: Limits) {
    && !Exceeds(size, limits.maxFileSize) && sheet.Some? && |sheet.value| > 0
    && !Exceeds(|sheet.value[0]|, limits.maxCols) && !Exceeds(|sheet.value| - 1, limits.maxRows)
  }

  /** A positive limit may be met exactly but not exceeded; any other is none. */
  lemma LimitsMean(size: nat, sheet: Option<seq<seq<string>>>, limits: Limits)
    ensures WithinLimits(size, sheet, limits)
       <==> && (limits.maxFileSize <= 0 || size <= limits.maxFileSize)
            && sheet.Some? && sheet.value != []
            && (limits.maxCols <= 0 || |sheet.value[0]| <= limits.maxCols)
            && (limits.maxRows <= 0 || |sheet.value| <= limits.maxRows + 1)
  {
  }

  ghost predicate AreRows(rows: seq<map<string, string>>, sheet: seq<seq<string>>, columns: map<string, string>, trim: string -> string)
    requires |sheet| > 0 && forall h :: h in sheet[0] ==> h in columns
  {
    && |rows| == |sheet| - 1
    && forall i :: 0 <= i < |rows| ==> IsRowData(rows[i], sheet[0], sheet[i + 1], columns, trim, i + 2)
  }

  /** The row loop of Parse. */
  method MapRows(cells: seq<seq<string>>, columns: map<string, string>, maxCols: int, trim: string -> string)
    returns (rows: seq<map<string, string>>)
    requires |cells| > 0 && !Exceeds(|cells[0]|, maxCols) && forall h :: h in cells[0] ==> h in columns
    ensures AreRows(rows, cells, columns, trim)
  {
    rows := [];
    for i := 0 to |cells| - 1
      invariant |rows| == i
      invariant forall k :: 0 <= k < i ==> IsRowData(rows[k], cells[0], cells[k + 1], columns, trim, k + 2)
    {
      var data := MapRow(cells[0], cells[i + 1], columns, maxCols, trim, i + 2);
      rows := rows + [data];
    }
  }

  ghost predicate IsDetection(columns: map<string, string>, headers: seq<string>, revision: string, text: Columns.TextFunctions) {
    && (forall h :: h in columns <==> h in headers)
    && (forall h :: h in columns ==> Columns.MayDetect(Columns.AliasTable(revision), h, columns[h], text))
  }

  /** `sheet` is what the spreadsheet reader makes of the file, None when it cannot read it.
      `columns` is the detection that was used. */
  method Parse(size: nat, sheet: Option<seq<seq<string>>>, revision: string, limits: Limits, text: Columns.TextFunctions)
    returns (result: ParseResult, ghost columns: map<string, string>)
    ensures WithinLimits(size, sheet, limits) ==> IsDetection(columns, sheet.value[0], revision, text)
    ensures result.Parsed? <==> WithinLimits(size, sheet, limits) && SomeRecognised(sheet.value[0], columns)
    ensures result.Parsed? ==> AreRows(result.rows, sheet.value, columns, text.trim)
    ensures result == Rejected(InvalidFormat) <==> Exceeds(size, limits.maxFileSize) || sheet.None?
    ensures result == Rejected(EmptyFile) <==> !Exceeds(size, limits.maxFileSize) && sheet == Some([])
    ensures result == Rejected(InvalidHeaders) <==> WithinLimits(size, sheet, limits) && !SomeRecognised(sheet.value[0], columns)
    ensures result == Rejected(TooManyColumns) ==> sheet.Some? && |sheet.value| > 0 && Exceeds(|sheet.value[0]|, limits.maxCols)
    ensures result == Rejected(TooManyRows) ==>
      sheet.Some? && |sheet.value| > 0 && !Exceeds(|sheet.value[0]|, limits.maxCols) && Exceeds(|sheet.value| - 1, limits.maxRows)
  {
    columns := map[];
    if limits.maxFileSize > 0 && size > limits.maxFileSize {
      return Rejected(InvalidFormat), columns;
    }
    if sheet.None? {
      return Rejected(InvalidFormat), columns;
    }
    var cells := sheet.value;
    if |cells| == 0 {
      return Rejected(EmptyFile), columns;
    }
    var headers := cells[0];
    if limits.maxCols > 0 && |headers| > limits.maxCols {
      return Rejected(TooManyColumns), columns;
    }
    if limits.maxRows > 0 && |cells| - 1 > limits.maxRows {
      return Rejected(TooManyRows), columns;
    }
    var detected := Columns.DetectColumns(headers, revision, text);
    columns := detected;
    var recognised := CountRecognised(headers, detected);
    if recognised == 0 {
      return Rejected(InvalidHeaders), columns;
    }
    var rows := MapRows(cells, detected, limits.maxCols, text.trim);
    result := Parsed(rows);
  }

  /** With a table of disjoint aliases, as every revision has, a file has one parse. */
  lemma ParseIsDetermined(sheet: seq<seq<string>>, revision: string, text: Columns.TextFunctions,
                          columns1: map<string, string>, columns2: map<string, string>,
                          rows1: seq<map<string, string>>, rows2: seq<map<string, string>>)
    requires |sheet| > 0 && Columns.OrderIndependent(Columns.AliasTable(revision), text)
    requires IsDetection(columns1, sheet[0], revision, text) && IsDetection(columns2, sheet[0], revision, text)
    requires AreRows(rows1, sheet, columns1, text.trim) && AreRows(rows2, sheet, columns2, text.trim)
    ensures columns1 == columns2 && rows1 == rows2
  {
    assert columns1 == columns2;
    forall i | 0 <= i < |rows1| ensures rows1[i] == rows2[i] {
      RowDataUnique(rows1[i], rows2[i], sheet[0], sheet[i + 1], columns1, text.trim, i + 2);
    }
  }
}
