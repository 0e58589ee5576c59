/** The list query of the batches table: built clause by clause with numbered placeholders. */
module BatchQuery {
  import opened Domain

  /** A row as far as listing reads it; NULL columns are None. */
  datatype Row = Row(id: Id, userId: Option<string>, status: string, revision: string, createdAt: Time, completedAt: Option<Time>)

  datatype Column = StatusColumn | UserColumn | RevisionColumn | CreatedColumn | CompletedColumn

  datatype Comparison = Equal | AtLeast | AtMost | Below | Above

  /** `column comparison $placeholder` */
  datatype Condition = Condition(column: Column, comparison: Comparison, placeholder: nat)

  datatype Argument = Text(text: string) | Stamp(time: Time) | Number(n: int)

  /** `WHERE 1=1 AND ... ORDER BY order dir LIMIT $limitAt OFFSET $offsetAt` */
  datatype Query = Query(where: seq<Condition>, order: Column, desc: bool, limitAt: nat, offsetAt: nat)

  /** The supplied filters: an empty text or None is not a filter. */
  datatype Filter = Filter(
    status: string, userId: string, revision: string,
    since: Option<Time>, until: Option<Time>,
    sortBy: string, desc: bool, cursor: Option<Time>)

  // ----- meaning of a query -----------------------------------------------------------------

  function Cell(row: Row, column: Column): Option<Argument> {
    match column
    case StatusColumn => Some(Text(row.status))
    case UserColumn => if row.userId.Some? then Some(Text(row.userId.value)) else None
    case RevisionColumn => Some(Text(row.revision))
    case CreatedColumn => Some(Stamp(row.createdAt))
    case CompletedColumn => if row.completedAt.Some? then Some(Stamp(row.completedAt.value)) else None
  }

  predicate Compare(x: Argument, comparison: Comparison, y: Argument) {
    match comparison
    case Equal => x == y
    case AtLeast => x.Stamp? && y.Stamp? && x.time >= y.time
    case AtMost => x.Stamp? && y.Stamp? && x.time <= y.time
    case Below => x.Stamp? && y.Stamp? && x.time < y.time
    case Above => x.Stamp? && y.Stamp? && x.time > y.time
  }

  /** A comparison with NULL is not true; a placeholder without an argument is not either. */
  predicate Holds(c: Condition, args: seq<Argument>, row: Row) {
    && 1 <= c.placeholder <= |args|
    && Cell(row, c.column).Some?
    && Compare(Cell(row, c.column).value, c.comparison, args[c.placeholder - 1])
  }

  ghost predicate Satisfies(where: seq<Condition>, args: seq<Argument>, row: Row) {
    forall i :: 0 <= i < |where| ==> Holds(where[i], args, row)
  }

  // ----- meaning of the filters -------------------------------------------------------------

  function OrderColumn(sortBy: string): Column {
    if sortBy == "completedAt" then CompletedColumn else CreatedColumn
  }

  /** The sort key of a row. */
  function Key(row: Row, order: Column): Option<Time> {
    if order == CompletedColumn then row.completedAt else Some(row.createdAt)
  }

  predicate Beyond(key: Option<Time>, cursor: Time, desc: bool) {
    key.Some? && if desc then key.value < cursor else key.value > cursor
  }

  /** The plain conjunction of the supplied filters. */
  predicate Matches(row: Row, f: Filter) {
    && (f.status != "" ==> row.status == f.status)
    && (f.userId != "" ==> row.userId == Some(f.userId))
    && (f.revision != "" ==> row.revision == f.revision)
    && (f.since.Some? ==> row.createdAt >= f.since.value)
    && (f.until.Some? ==> row.createdAt <= f.until.value)
    && (f.cursor.Some? ==> Beyond(Key(row, OrderColumn(f.sortBy)), f.cursor.value, f.desc))
  }

  /** Both the order and the cursor of a listing go by the completion time if that is asked for, and by
      the creation time otherwise; a cursor shows what comes after it in the direction of the order. */
  lemma SortedBy(row: Row, f: Filter)
    ensures Key(row, OrderColumn(f.sortBy)) == if f.sortBy == "completedAt" then row.completedAt else Some(row.createdAt)
    ensures f.cursor.Some? && Matches(row, f) ==>
              var key := if f.sortBy == "completedAt" then row.completedAt else Some(row.createdAt);
              key.Some? && if f.desc then key.value < f.cursor.value else key.value > f.cursor.value
  {
  }

  // ----- the builder ------------------------------------------------------------------------

  /** Placeholders count 1, 2, ... in step with the arguments. */
  ghost predicate Numbered(where: seq<Condition>, args: seq<Argument>) {
    |args| == |where| && forall i :: 0 <= i < |where| ==> where[i].placeholder == i + 1
  }

  /** The list arguments come after those of the conditions, so both queries select the same rows. */
  lemma SameSelection(where: seq<Condition>, args: seq<Argument>, more: seq<Argument>, row: Row)
    requires Numbered(where, args)
    ensures Satisfies(where, args + more, row) <==> Satisfies(where, args, row)
  {
    forall i | 0 <= i < |where| ensures Holds(where[i], args + more, row) <==> Holds(where[i], args, row) {
      assert (args + more)[i] == args[i];
    }
    if Satisfies(where, args + more, row) {
      forall i | 0 <= i < |where| ensures Holds(where[i], args, row) {
        assert Holds(where[i], args + more, row);
      }
    }
    if Satisfies(where, args, row) {
      forall i | 0 <= i < |where| ensures Holds(where[i], args + more, row) {
        assert Holds(where[i], args, row);
      }
    }
  }

  lemma SatisfiesOneMore(where: seq<Condition>, c: Condition, args: seq<Argument>, row: Row)
    ensures Satisfies(where + [c], args, row) <==> Satisfies(where, args, row) && Holds(c, args, row)
  {
    var w := where + [c];
    assert forall i :: 0 <= i < |where| ==> w[i] == where[i];
    if Satisfies(w, args, row) {
      forall i | 0 <= i < |where| ensures Holds(where[i], args, row) {
        assert Holds(w[i], args, row);
      }
      assert Holds(w[|where|], args, row);
    }
  }

  /** Appending a clause with the next number and its argument adds exactly that condition. */
  lemma Appended(where: seq<Condition>, args: seq<Argument>, column: Column, comparison: Comparison, arg: Argument, row: Row)
    requires Numbered(where, args)
    ensures var c := Condition(column, comparison, |args| + 1);
            && (Satisfies(where + [c], args + [arg], row) <==>
                  Satisfies(where, args, row) && Cell(row, column).Some? && Compare(Cell(row, column).value, comparison, arg))
  {
    SatisfiesOneMore(where, Condition(column, comparison, |args| + 1), args + [arg], row);
    SameSelection(where, args, [arg], row);
  }

  /** One clause of the builder, added when its filter is supplied. */
  method AddClause(where: seq<Condition>, args: seq<Argument>, given: bool, column: Column, comparison: Comparison, arg: Argument)
    returns (w: seq<Condition>, a: seq<Argument>)
    requires Numbered(where, args)
    ensures Numbered(w, a)
    ensures forall row :: Satisfies(w, a, row) <==>
      Satisfies(where, args, row) && (given ==> Cell(row, column).Some? && Compare(Cell(row, column).value, comparison, arg))
  {
    w, a := where, args;
    if given {
      w := w + [Condition(column, comparison, |args| + 1)];
      a := a + [arg];
      forall row ensures Satisfies(w, a, row) <==>
        Satisfies(where, args, row) && Cell(row, column).Some? && Compare(Cell(row, column).value, comparison, arg)
      {
        Appended(where, args, column, comparison, arg, row);
      }
    }
  }

  /** The clauses for the three text filters. */
  method AddTextClauses(f: Filter) returns (w: seq<Condition>, a: seq<Argument>)
    ensures Numbered(w, a)
    ensures forall row :: Satisfies(w, a, row) <==>
      && (f.status != "" ==> row.status == f.status)
      && (f.userId != "" ==> row.userId == Some(f.userId))
      && (f.revision != "" ==> row.revision == f.revision)
  {
    w, a := AddClause([], [], f.status != "", StatusColumn, Equal, Text(f.status));
    w, a := AddClause(w, a, f.userId != "", UserColumn, Equal, Text(f.userId));
    w, a := AddClause(w, a, f.revision != "", RevisionColumn, Equal, Text(f.revision));
  }

  /** The clauses for the date range and the cursor. */
  method AddTimeClauses(where: seq<Condition>, args: seq<Argument>, f: Filter) returns (w: seq<Condition>, a: seq<Argument>)
    requires Numbered(where, args)
    ensures Numbered(w, a)
    ensures forall row :: Satisfies(w, a, row) <==>
      && Satisfies(where, args, row)
      && (f.since.Some? ==> row.createdAt >= f.since.value)
      && (f.until.Some? ==> row.createdAt <= f.until.value)
      && (f.cursor.Some? ==> Beyond(Key(row, OrderColumn(f.sortBy)), f.cursor.value, f.desc))
  {
    w, a := AddClause(where, args, f.since.Some?, CreatedColumn, AtLeast, Stamp(if f.since.Some? then f.since.value else 0));
    w, a := AddClause(w, a, f.until.Some?, CreatedColumn, AtMost, Stamp(if f.until.Some? then f.until.value else 0));
    var column := if f.sortBy == "completedAt" then CompletedColumn else CreatedColumn;
    var comparison := if f.desc then Below else Above;
    w, a := AddClause(w, a, f.cursor.Some?, column, comparison, Stamp(if f.cursor.Some? then f.cursor.value else 0));
  }

  /** The built query selects the rows that match the supplied filters, for any combination of
      them. Placeholders are 1 to k in order, each bound to its own argument; limit and offset are
      k + 1 and k + 2; the count query binds the first k arguments. */
  method BuildQuery(f: Filter, limit: int, offset: int) returns (q: Query, args: seq<Argument>, countArgs: seq<Argument>)
    ensures Numbered(q.where, countArgs)
    ensures args == countArgs + [Number(limit), Number(offset)]
    ensures q.limitAt == |countArgs| + 1 && q.offsetAt == |countArgs| + 2
    ensures q.order == (if f.sortBy == "completedAt" then CompletedColumn else CreatedColumn) && q.desc == f.desc
    ensures forall row :: Satisfies(q.where, countArgs, row) <==> Matches(row, f)
  {
    var where, a := AddTextClauses(f);
    where, a := AddTimeClauses(where, a, f);
    countArgs := a;
    q := Query(where, if f.sortBy == "completedAt" then CompletedColumn else CreatedColumn, f.desc, |a| + 1, |a| + 2);
    args := a + [Number(limit), Number(offset)];
  }
}
