/** Listing page by page: numbered pages and cursors over a table that does not change meanwhile. */
module Paging {
  import opened Domain
  import opened BatchQuery

  // ----- what the database may answer -------------------------------------------------------

  /** Whether a row with key x may stand before one with key y: NULLs come last when ascending and
      first when descending; rows with equal keys may stand either way. */
  predicate MayPrecede(x: Option<Time>, y: Option<Time>, desc: bool) {
    if desc then x == None || (y.Some? && x.value >= y.value)
    else y == None || (x.Some? && x.value <= y.value)
  }

  /** One of the orders in which the database may return a set of rows. */
  ghost predicate IsOrdering(list: seq<Row>, rows: set<Row>, order: Column, desc: bool) {
    && (forall r :: r in rows <==> r in list)
    && (forall i, j :: 0 <= i < j < |list| ==> list[i] != list[j])
    && (forall i, j :: 0 <= i < j < |list| ==> MayPrecede(Key(list[i], order), Key(list[j], order), desc))
  }

  function Slice<T>(list: seq<T>, offset: nat, limit: nat): seq<T> {
    if offset >= |list| then []
    else if offset + limit >= |list| then list[offset..]
    else list[offset..offset + limit]
  }

  ghost function Chosen(table: set<Row>, where: seq<Condition>, args: seq<Argument>): set<Row> {
    set r | r in table && Satisfies(where, args, r)
  }

  /** A possible answer to a query. */
  ghost predicate IsAnswer(q: Query, args: seq<Argument>, table: set<Row>, rows: seq<Row>) {
    && 1 <= q.limitAt <= |args| && args[q.limitAt - 1].Number? && args[q.limitAt - 1].n >= 0
    && 1 <= q.offsetAt <= |args| && args[q.offsetAt - 1].Number? && args[q.offsetAt - 1].n >= 0
    && exists list :: IsOrdering(list, Chosen(table, q.where, args), q.order, q.desc)
                      && rows == Slice(list, args[q.offsetAt - 1].n, args[q.limitAt - 1].n)
  }

  function Selected(table: set<Row>, f: Filter): set<Row> {
    set r | r in table && Matches(r, f)
  }

  /** Plainly: filter, sort, drop the offset, take the limit. */
  ghost predicate IsPage(table: set<Row>, f: Filter, limit: nat, offset: nat, rows: seq<Row>) {
    exists list :: IsOrdering(list, Selected(table, f), OrderColumn(f.sortBy), f.desc) && rows == Slice(list, offset, limit)
  }

  /** Whatever BuildQuery promises of a query makes its answers the plain pages, and its count the
      number of matching rows. */
  lemma QueryMeansPage(f: Filter, limit: nat, offset: nat, q: Query, args: seq<Argument>, countArgs: seq<Argument>, table: set<Row>, rows: seq<Row>)
    requires Numbered(q.where, countArgs) && args == countArgs + [Number(limit), Number(offset)]
    requires q.limitAt == |countArgs| + 1 && q.offsetAt == |countArgs| + 2
    requires q.order == OrderColumn(f.sortBy) && q.desc == f.desc
    requires forall row :: Satisfies(q.where, countArgs, row) <==> Matches(row, f)
    ensures IsAnswer(q, args, table, rows) <==> IsPage(table, f, limit, offset, rows)
    ensures |Chosen(table, q.where, countArgs)| == |Selected(table, f)|
  {
    forall r: Row ensures Satisfies(q.where, args, r) <==> Matches(r, f) {
      SameSelection(q.where, countArgs, [Number(limit), Number(offset)], r);
    }
    assert Chosen(table, q.where, args) == Selected(table, f);
    assert Chosen(table, q.where, countArgs) == Selected(table, f);
  }

  /** On every table the answers of the query are the plain pages, and the count query, which binds
      `countArgs`, counts the matching rows. */
  ghost predicate Faithful(q: Query, args: seq<Argument>, countArgs: seq<Argument>, f: Filter, limit: nat, offset: nat) {
    && (forall table, rows :: IsAnswer(q, args, table, rows) <==> IsPage(table, f, limit, offset, rows))
    && (forall table :: |Chosen(table, q.where, countArgs)| == |Selected(table, f)|)
  }

  lemma QueryIsFaithful(f: Filter, limit: nat, offset: nat, q: Query, args: seq<Argument>, countArgs: seq<Argument>)
    requires Numbered(q.where, countArgs) && args == countArgs + [Number(limit), Number(offset)]
    requires q.limitAt == |countArgs| + 1 && q.offsetAt == |countArgs| + 2
    requires q.order == OrderColumn(f.sortBy) && q.desc == f.desc
    requires forall row :: Satisfies(q.where, countArgs, row) <==> Matches(row, f)
    ensures Faithful(q, args, countArgs, f, limit, offset)
  {
    forall table, rows ensures IsAnswer(q, args, table, rows) <==> IsPage(table, f, limit, offset, rows) {
      QueryMeansPage(f, limit, offset, q, args, countArgs, table, rows);
    }
    forall table ensures |Chosen(table, q.where, countArgs)| == |Selected(table, f)| {
      QueryMeansPage(f, limit, offset, q, args, countArgs, table, []);
    }
  }

  // ----- requests ---------------------------------------------------------------------------

  /** `cursor` is the text of a timestamp, empty when there is none. */
  datatype Request = Request(filter: Filter, page: int, limit: int, cursor: string)

  /** What a request asks for: page 1 and 20 rows where a number is not positive; the cursor is a filter
      unless it is empty or does not parse. */
  ghost predicate AsksFor(r: Request, parse: string -> Option<Time>, f: Filter, limit: nat, offset: nat) {
    && f == r.filter.(cursor := if r.cursor == "" then None else parse(r.cursor))
    && limit == (if r.limit <= 0 then 20 else r.limit)
    && offset == (if r.page <= 0 then 0 else (r.page - 1) * limit)
  }

  method List(r: Request, parse: string -> Option<Time>)
    returns (q: Query, args: seq<Argument>, countArgs: seq<Argument>, ghost f: Filter, ghost limit: nat, ghost offset: nat)
    ensures AsksFor(r, parse, f, limit, offset) && Faithful(q, args, countArgs, f, limit, offset)
  {
    var page, size := r.page, r.limit;
    if page <= 0 {
      page := 1;
    }
    if size <= 0 {
      size := 20;
    }
    var skipped := (page - 1) * size;
    var cursor := None;
    if r.cursor != "" {
      cursor := parse(r.cursor);
    }
    var filter := r.filter.(cursor := cursor);
    q, args, countArgs := BuildQuery(filter, size, skipped);
    f, limit, offset := filter, size, skipped;
    QueryIsFaithful(f, limit, offset, q, args, countArgs);
  }

  // ----- uniqueness of the order ------------------------------------------------------------

  /** Every row has a sort key and no two rows share one. */
  ghost predicate DistinctKeys(rows: set<Row>, order: Column) {
    && (forall r :: r in rows ==> Key(r, order).Some?)
    && (forall r, s :: r in rows && s in rows && r != s ==> Key(r, order) != Key(s, order))
  }

  /** Two rows that each come no later than the other are the same. */
  lemma SameHere(a: seq<Row>, b: seq<Row>, rows: set<Row>, order: Column, desc: bool, i: nat, p: nat, q: nat)
    requires IsOrdering(a, rows, order, desc) && IsOrdering(b, rows, order, desc) && DistinctKeys(rows, order)
    requires i <= p < |b| && i <= q < |a| && b[p] == a[i] && a[q] == b[i]
    ensures a[i] == b[i]
  {
    assert a[i] in rows && b[i] in rows;
    assert MayPrecede(Key(a[i], order), Key(a[q], order), desc);
    assert MayPrecede(Key(b[i], order), Key(b[p], order), desc);
  }

  lemma Placed(a: seq<Row>, b: seq<Row>, rows: set<Row>, order: Column, desc: bool, i: nat) returns (p: nat)
    requires IsOrdering(a, rows, order, desc) && IsOrdering(b, rows, order, desc)
    requires i < |a| && i <= |b| && a[..i] == b[..i]
    ensures i <= p < |b| && b[p] == a[i]
  {
    forall k | 0 <= k < i ensures a[k] == b[k] {
      assert a[..i][k] == b[..i][k];
    }
    assert a[i] in rows;
    p :| 0 <= p < |b| && b[p] == a[i];
  }

  lemma {:induction false} SamePrefix(a: seq<Row>, b: seq<Row>, rows: set<Row>, order: Column, desc: bool, n: nat)
    requires IsOrdering(a, rows, order, desc) && IsOrdering(b, rows, order, desc) && DistinctKeys(rows, order)
    requires n <= |a|
    ensures n <= |b| && a[..n] == b[..n]
  {
    if n > 0 {
      var i := n - 1;
      SamePrefix(a, b, rows, order, desc, i);
      var p := Placed(a, b, rows, order, desc, i);
      var q := Placed(b, a, rows, order, desc, i);
      SameHere(a, b, rows, order, desc, i, p, q);
      assert a[..n] == a[..i] + [a[i]] && b[..n] == b[..i] + [b[i]];
    }
  }

  /** With distinct sort keys there is only one order. */
  lemma OneOrdering(a: seq<Row>, b: seq<Row>, rows: set<Row>, order: Column, desc: bool)
    requires IsOrdering(a, rows, order, desc) && IsOrdering(b, rows, order, desc) && DistinctKeys(rows, order)
    ensures a == b
  {
    SamePrefix(a, b, rows, order, desc, |a|);
    SamePrefix(b, a, rows, order, desc, |b|);
    assert a[..|a|] == a && b[..|b|] == b;
  }

  /** Some order always exists. */
  lemma {:induction false} SomeOrdering(rows: set<Row>, order: Column, desc: bool) returns (list: seq<Row>)
    ensures IsOrdering(list, rows, order, desc)
    decreases |rows|
  {
    if rows == {} {
      list := [];
    } else {
      var first := FirstRow(rows, order, desc);
      var rest := SomeOrdering(rows - {first}, order, desc);
      list := [first] + rest;
      forall r ensures r in rows <==> r in list {
      }
      forall j | 0 <= j < |rest| ensures rest[j] in rows && rest[j] != first {
        assert rest[j] in rows - {first};
      }
    }
  }

  lemma {:induction false} FirstRow(rows: set<Row>, order: Column, desc: bool) returns (first: Row)
    requires rows != {}
    ensures first in rows && forall r :: r in rows ==> MayPrecede(Key(first, order), Key(r, order), desc)
    decreases |rows|
  {
    first :| first in rows;
    if rows != {first} {
      var rest := rows - {first};
      assert rows == {first} + rest;
      var other := FirstRow(rest, order, desc);
      forall r | r in rows ensures r == first || r in rest {
      }
      if MayPrecede(Key(other, order), Key(first, order), desc) {
        first := other;
      }
    }
  }

  // ----- numbered pages ---------------------------------------------------------------------

  function Flatten(pages: seq<seq<Row>>): seq<Row> {
    if pages == [] then [] else Flatten(pages[..|pages| - 1]) + pages[|pages| - 1]
  }

  function Least(x: nat, y: nat): nat {
    if x < y then x else y
  }

  /** The rows of n full pages. */
  function Rows(n: nat, limit: nat): nat {
    if n == 0 then 0 else Rows(n - 1, limit) + limit
  }

  lemma {:induction false} RowsIs(n: nat, limit: nat)
    ensures Rows(n, limit) == n * limit
  {
    if n > 0 {
      RowsIs(n - 1, limit);
      assert n * limit == (n - 1) * limit + limit;
    }
  }

  /** The pages are the beginning of the order. */
  predicate Begins(pages: seq<seq<Row>>, limit: nat, list: seq<Row>) {
    Flatten(pages) == list[..Least(Rows(|pages|, limit), |list|)]
  }

  /** The slice after the rows seen extends them by one page. */
  lemma BeginsLonger(pages: seq<seq<Row>>, limit: nat, list: seq<Row>)
    requires pages != [] && Begins(pages[..|pages| - 1], limit, list)
    requires pages[|pages| - 1] == Slice(list, Rows(|pages| - 1, limit), limit)
    ensures Begins(pages, limit, list)
  {
    SliceExtends(list, Rows(|pages| - 1, limit), limit);
  }

  lemma SliceExtends(list: seq<Row>, seen: nat, limit: nat)
    ensures list[..Least(seen, |list|)] + Slice(list, seen, limit) == list[..Least(seen + limit, |list|)]
    ensures Slice(list, Least(seen, |list|), limit) == Slice(list, seen, limit)
    ensures limit >= 1 ==> (Slice(list, seen, limit) == [] <==> seen >= |list|)
  {
  }

  /** Pages 1, 2, ... are the consecutive slices of the one order: together they are its beginning,
      and all of it once there are enough of them. */
  lemma NumberedPagesComplete(table: set<Row>, f: Filter, limit: nat, pages: seq<seq<Row>>, list: seq<Row>)
    requires limit >= 1 && DistinctKeys(Selected(table, f), OrderColumn(f.sortBy))
    requires IsOrdering(list, Selected(table, f), OrderColumn(f.sortBy), f.desc)
    requires forall p :: 0 <= p < |pages| ==> IsPage(table, f, limit, p * limit, pages[p])
    ensures Flatten(pages) == list[..Least(|pages| * limit, |list|)]
  {
    forall p | 0 <= p < |pages| ensures pages[p] == Slice(list, Rows(p, limit), limit) {
      RowsIs(p, limit);
      NumberedPage(table, f, limit, p * limit, pages[p], list);
    }
    SlicesBegin(pages, limit, list);
    RowsIs(|pages|, limit);
  }

  lemma {:induction false} SlicesBegin(pages: seq<seq<Row>>, limit: nat, list: seq<Row>)
    requires forall p :: 0 <= p < |pages| ==> pages[p] == Slice(list, Rows(p, limit), limit)
    ensures Begins(pages, limit, list)
  {
    if pages != [] {
      SlicesBegin(pages[..|pages| - 1], limit, list);
      BeginsLonger(pages, limit, list);
    }
  }

  lemma NumberedPage(table: set<Row>, f: Filter, limit: nat, offset: nat, page: seq<Row>, list: seq<Row>)
    requires DistinctKeys(Selected(table, f), OrderColumn(f.sortBy))
    requires IsOrdering(list, Selected(table, f), OrderColumn(f.sortBy), f.desc)
    requires IsPage(table, f, limit, offset, page)
    ensures page == Slice(list, offset, limit)
  {
    var other :| IsOrdering(other, Selected(table, f), OrderColumn(f.sortBy), f.desc) && page == Slice(other, offset, limit);
    OneOrdering(list, other, Selected(table, f), OrderColumn(f.sortBy), f.desc);
  }

  /** Rows that may be answered to a request. */
  ghost predicate IsListed(table: set<Row>, r: Request, parse: string -> Option<Time>, rows: seq<Row>) {
    exists f, limit: nat, offset: nat :: AsksFor(r, parse, f, limit, offset) && IsPage(table, f, limit, offset, rows)
  }

  /** Requests that differ in their page numbers 1, 2, ... only: their answers put together are the first
      rows of the one order, 20 for each when the limit is not positive. */
  lemma RequestedPagesComplete(table: set<Row>, r: Request, parse: string -> Option<Time>, pages: seq<seq<Row>>, list: seq<Row>, f: Filter, limit: nat)
    requires f == r.filter.(cursor := if r.cursor == "" then None else parse(r.cursor))
    requires limit == if r.limit <= 0 then 20 else r.limit
    requires DistinctKeys(Selected(table, f), OrderColumn(f.sortBy)) && IsOrdering(list, Selected(table, f), OrderColumn(f.sortBy), f.desc)
    requires forall p :: 0 <= p < |pages| ==> IsListed(table, r.(page := p + 1), parse, pages[p])
    ensures Flatten(pages) == list[..Least(|pages| * limit, |list|)]
  {
    RequestedPages(table, r, parse, pages, f, limit);
    NumberedPagesComplete(table, f, limit, pages, list);
  }

  lemma RequestedPages(table: set<Row>, r: Request, parse: string -> Option<Time>, pages: seq<seq<Row>>, f: Filter, limit: nat)
    requires f == r.filter.(cursor := if r.cursor == "" then None else parse(r.cursor))
    requires limit == if r.limit <= 0 then 20 else r.limit
    requires forall p :: 0 <= p < |pages| ==> IsListed(table, r.(page := p + 1), parse, pages[p])
    ensures forall p :: 0 <= p < |pages| ==> IsPage(table, f, limit, p * limit, pages[p])
  {
    forall p | 0 <= p < |pages| ensures IsPage(table, f, limit, p * limit, pages[p]) {
      RequestedPage(table, r, parse, p, pages[p], f, limit);
    }
  }

  lemma RequestedPage(table: set<Row>, r: Request, parse: string -> Option<Time>, p: nat, rows: seq<Row>, f: Filter, limit: nat)
    requires f == r.filter.(cursor := if r.cursor == "" then None else parse(r.cursor))
    requires limit == if r.limit <= 0 then 20 else r.limit
    requires IsListed(table, r.(page := p + 1), parse, rows)
    ensures IsPage(table, f, limit, p * limit, rows)
  {
    var g, size: nat, offset: nat :| AsksFor(r.(page := p + 1), parse, g, size, offset) && IsPage(table, g, size, offset, rows);
    assert g == f && size == limit && offset == p * limit;
  }

  /** A page number that is not positive is answered as page 1, a limit that is not positive as 20. */
  lemma DefaultsOfRequest(table: set<Row>, r: Request, parse: string -> Option<Time>, rows: seq<Row>)
    ensures r.page <= 0 ==> (IsListed(table, r, parse, rows) <==> IsListed(table, r.(page := 1), parse, rows))
    ensures r.limit <= 0 ==> (IsListed(table, r, parse, rows) <==> IsListed(table, r.(limit := 20), parse, rows))
  {
    forall f, limit: nat, offset: nat
      ensures r.page <= 0 ==> (AsksFor(r, parse, f, limit, offset) <==> AsksFor(r.(page := 1), parse, f, limit, offset))
      ensures r.limit <= 0 ==> (AsksFor(r, parse, f, limit, offset) <==> AsksFor(r.(limit := 20), parse, f, limit, offset))
    {
    }
  }

  // ----- cursors ----------------------------------------------------------------------------

  /** Page p of a client that follows the cursor: the first page without one, then, while the page
      before was not empty, the page after the key of its last row. */
  ghost predicate IsLink(table: set<Row>, f: Filter, limit: nat, pages: seq<seq<Row>>, p: nat)
    requires p < |pages|
  {
    if p == 0 then IsPage(table, f.(cursor := None), limit, 0, pages[0])
    else
      && pages[p - 1] != []
      && var key := LastKey(pages[p - 1], f);
         key.Some? && IsPage(table, f.(cursor := key), limit, 0, pages[p])
  }

  function LastKey(page: seq<Row>, f: Filter): Option<Time>
    requires page != []
  {
    Key(page[|page| - 1], OrderColumn(f.sortBy))
  }

  ghost predicate IsChain(table: set<Row>, f: Filter, limit: nat, pages: seq<seq<Row>>) {
    forall p: nat :: p < |pages| ==> IsLink(table, f, limit, pages, p)
  }

  lemma ChainPrefix(table: set<Row>, f: Filter, limit: nat, pages: seq<seq<Row>>)
    requires pages != []
    ensures IsChain(table, f, limit, pages)
       <==> IsChain(table, f, limit, pages[..|pages| - 1]) && IsLink(table, f, limit, pages, |pages| - 1)
  {
    var front := pages[..|pages| - 1];
    forall p: nat | p < |front| ensures IsLink(table, f, limit, front, p) <==> IsLink(table, f, limit, pages, p) {
    }
    if IsChain(table, f, limit, pages) {
      forall p: nat | p < |front| ensures IsLink(table, f, limit, front, p) {
        assert IsLink(table, f, limit, pages, p);
      }
    }
    if IsChain(table, f, limit, front) && IsLink(table, f, limit, pages, |pages| - 1) {
      forall p: nat | p < |pages| ensures IsLink(table, f, limit, pages, p) {
        assert p < |front| ==> IsLink(table, f, limit, front, p);
      }
    }
  }

  lemma AfterIsBeyond(table: set<Row>, f: Filter, list: seq<Row>, m: nat, i: nat)
    requires f.cursor == None && DistinctKeys(Selected(table, f), OrderColumn(f.sortBy))
    requires IsOrdering(list, Selected(table, f), OrderColumn(f.sortBy), f.desc) && m < i < |list|
    ensures list[i] in Selected(table, f.(cursor := Key(list[m], OrderColumn(f.sortBy))))
  {
    assert list[m] in Selected(table, f) && list[i] in Selected(table, f);
    assert MayPrecede(Key(list[m], OrderColumn(f.sortBy)), Key(list[i], OrderColumn(f.sortBy)), f.desc);
  }

  lemma BeyondIsAfter(table: set<Row>, f: Filter, list: seq<Row>, m: nat, r: Row) returns (i: nat)
    requires f.cursor == None && m < |list| && Key(list[m], OrderColumn(f.sortBy)).Some?
    requires IsOrdering(list, Selected(table, f), OrderColumn(f.sortBy), f.desc)
    requires r in Selected(table, f.(cursor := Key(list[m], OrderColumn(f.sortBy))))
    ensures m < i < |list| && list[i] == r
  {
    assert r in Selected(table, f);
    i :| 0 <= i < |list| && list[i] == r;
    assert i < m ==> MayPrecede(Key(list[i], OrderColumn(f.sortBy)), Key(list[m], OrderColumn(f.sortBy)), f.desc);
  }

  /** The rows after position m of the order are those beyond the key at m. */
  lemma BeyondIsSuffix(table: set<Row>, f: Filter, list: seq<Row>, m: nat)
    requires f.cursor == None && DistinctKeys(Selected(table, f), OrderColumn(f.sortBy))
    requires IsOrdering(list, Selected(table, f), OrderColumn(f.sortBy), f.desc) && m < |list|
    ensures var key := Key(list[m], OrderColumn(f.sortBy));
            && key.Some?
            && IsOrdering(list[m + 1..], Selected(table, f.(cursor := key)), OrderColumn(f.sortBy), f.desc)
            && DistinctKeys(Selected(table, f.(cursor := key)), OrderColumn(f.sortBy))
  {
    assert list[m] in Selected(table, f);
    var key, rest := Key(list[m], OrderColumn(f.sortBy)), list[m + 1..];
    var after := Selected(table, f.(cursor := key));
    forall r | r in after ensures r in rest && r in Selected(table, f) {
      var i := BeyondIsAfter(table, f, list, m, r);
      assert rest[i - m - 1] == r;
    }
    forall j | 0 <= j < |rest| ensures rest[j] in after {
      AfterIsBeyond(table, f, list, m, m + 1 + j);
    }
  }

  lemma {:induction false} ChainBegins(table: set<Row>, f: Filter, limit: nat, pages: seq<seq<Row>>, list: seq<Row>)
    requires limit >= 1 && f.cursor == None && DistinctKeys(Selected(table, f), OrderColumn(f.sortBy))
    requires IsOrdering(list, Selected(table, f), OrderColumn(f.sortBy), f.desc)
    requires IsChain(table, f, limit, pages)
    ensures Begins(pages, limit, list)
  {
    if pages != [] {
      ChainPrefix(table, f, limit, pages);
      ChainBegins(table, f, limit, pages[..|pages| - 1], list);
      NextPage(table, f, limit, pages, list);
      BeginsLonger(pages, limit, list);
    }
  }

  /** Following the cursor visits the order from its beginning without gap or repetition, and stops:
      page p is the slice after the pages before it, empty just when those already hold every row. */
  lemma CursorPagesComplete(table: set<Row>, f: Filter, limit: nat, pages: seq<seq<Row>>, list: seq<Row>)
    requires limit >= 1 && f.cursor == None && DistinctKeys(Selected(table, f), OrderColumn(f.sortBy))
    requires IsOrdering(list, Selected(table, f), OrderColumn(f.sortBy), f.desc)
    requires IsChain(table, f, limit, pages)
    ensures Flatten(pages) == list[..Least(|pages| * limit, |list|)]
    ensures forall p :: 0 <= p < |pages| ==> (pages[p] == [] <==> p * limit >= |list|)
  {
    ChainBegins(table, f, limit, pages, list);
    RowsIs(|pages|, limit);
    forall p: nat | p < |pages| ensures pages[p] == [] <==> p * limit >= |list| {
      CursorPageAt(table, f, limit, pages, list, p);
      RowsIs(p, limit);
    }
  }

  lemma {:induction false} CursorPageAt(table: set<Row>, f: Filter, limit: nat, pages: seq<seq<Row>>, list: seq<Row>, p: nat)
    requires limit >= 1 && f.cursor == None && DistinctKeys(Selected(table, f), OrderColumn(f.sortBy))
    requires IsOrdering(list, Selected(table, f), OrderColumn(f.sortBy), f.desc)
    requires IsChain(table, f, limit, pages) && p < |pages|
    ensures pages[p] == [] <==> Rows(p, limit) >= |list|
    decreases |pages|
  {
    var n := |pages| - 1;
    ChainPrefix(table, f, limit, pages);
    if p < n {
      CursorPageAt(table, f, limit, pages[..n], list, p);
    } else {
      ChainBegins(table, f, limit, pages[..n], list);
      EmptyNextPageIff(table, f, limit, pages, list);
    }
  }

  lemma EmptyNextPageIff(table: set<Row>, f: Filter, limit: nat, pages: seq<seq<Row>>, list: seq<Row>)
    requires limit >= 1 && f.cursor == None && DistinctKeys(Selected(table, f), OrderColumn(f.sortBy))
    requires IsOrdering(list, Selected(table, f), OrderColumn(f.sortBy), f.desc)
    requires pages != [] && IsLink(table, f, limit, pages, |pages| - 1) && Begins(pages[..|pages| - 1], limit, list)
    ensures pages[|pages| - 1] == [] <==> Rows(|pages| - 1, limit) >= |list|
  {
    NextPage(table, f, limit, pages, list);
    SliceExtends(list, Rows(|pages| - 1, limit), limit);
  }

  lemma LastOfPrefix(list: seq<Row>, m: nat, before: seq<Row>, page: seq<Row>)
    requires m <= |list| && list[..m] == before + page && page != []
    ensures m > 0 && list[m - 1] == page[|page| - 1]
  {
    assert list[m - 1] == list[..m][m - 1];
  }

  lemma SliceFrom(list: seq<Row>, m: nat, limit: nat)
    requires m <= |list|
    ensures Slice(list[m..], 0, limit) == Slice(list, m, limit)
  {
  }

  /** The page after the key of the row at m - 1 is the slice from m on. */
  lemma PageAfter(table: set<Row>, f: Filter, limit: nat, page: seq<Row>, list: seq<Row>, m: nat)
    requires limit >= 1 && f.cursor == None && DistinctKeys(Selected(table, f), OrderColumn(f.sortBy))
    requires IsOrdering(list, Selected(table, f), OrderColumn(f.sortBy), f.desc) && 0 < m <= |list|
    requires IsPage(table, f.(cursor := Key(list[m - 1], OrderColumn(f.sortBy))), limit, 0, page)
    ensures page == Slice(list, m, limit)
  {
    BeyondIsSuffix(table, f, list, m - 1);
    NumberedPage(table, f.(cursor := Key(list[m - 1], OrderColumn(f.sortBy))), limit, 0, page, list[m..]);
    SliceFrom(list, m, limit);
  }

  /** The last page of a chain is the slice after the rows seen before it. */
  lemma NextPage(table: set<Row>, f: Filter, limit: nat, pages: seq<seq<Row>>, list: seq<Row>)
    requires limit >= 1 && f.cursor == None && DistinctKeys(Selected(table, f), OrderColumn(f.sortBy))
    requires IsOrdering(list, Selected(table, f), OrderColumn(f.sortBy), f.desc)
    requires pages != [] && IsLink(table, f, limit, pages, |pages| - 1) && Begins(pages[..|pages| - 1], limit, list)
    ensures pages[|pages| - 1] == Slice(list, Rows(|pages| - 1, limit), limit)
  {
    var n, m := |pages| - 1, Least(Rows(|pages| - 1, limit), |list|);
    SliceExtends(list, Rows(n, limit), limit);
    if n == 0 {
      assert f.(cursor := None) == f;
      NumberedPage(table, f, limit, 0, pages[0], list);
    } else {
      assert pages[..n][n - 1] == pages[n - 1];
      LastOfPrefix(list, m, Flatten(pages[..n][..n - 1]), pages[n - 1]);
      PageAfter(table, f, limit, pages[n], list, m);
    }
  }

  // ----- the end of a chain -----------------------------------------------------------------

  /** The rows of a page match, and on any page but the first they have keys beyond the cursor. */
  lemma PageRow(table: set<Row>, f: Filter, limit: nat, pages: seq<seq<Row>>, p: nat, r: Row)
    requires f.cursor == None && IsChain(table, f, limit, pages) && p < |pages| && r in pages[p]
    ensures r in Selected(table, f)
    ensures p > 0 ==>
              && pages[p - 1] != [] && LastKey(pages[p - 1], f).Some?
              && r in Selected(table, f.(cursor := LastKey(pages[p - 1], f)))
              && Beyond(Key(r, OrderColumn(f.sortBy)), LastKey(pages[p - 1], f).value, f.desc)
  {
    assert IsLink(table, f, limit, pages, p);
    var g := f.(cursor := if p == 0 then None else LastKey(pages[p - 1], f));
    var list :| IsOrdering(list, Selected(table, g), OrderColumn(g.sortBy), g.desc) && pages[p] == Slice(list, 0, limit);
    assert r in list;
  }

  /** A row without a sort key is shown on the first page or not at all. */
  lemma NoKeyOnFirstPageOnly(table: set<Row>, f: Filter, limit: nat, pages: seq<seq<Row>>, p: nat, r: Row)
    requires f.cursor == None && IsChain(table, f, limit, pages) && p < |pages| && r in pages[p]
    requires Key(r, OrderColumn(f.sortBy)) == None
    ensures p == 0
  {
    PageRow(table, f, limit, pages, p, r);
  }

  /** The rows a client may still meet after a page. */
  function Left(table: set<Row>, f: Filter, page: seq<Row>): set<Row> {
    if page == [] then {}
    else
      var key := LastKey(page, f);
      set r | r in Selected(table, f) && key.Some? && Beyond(Key(r, OrderColumn(f.sortBy)), key.value, f.desc)
  }

  lemma LeftShrinks(table: set<Row>, f: Filter, last: seq<Row>, next: seq<Row>)
    requires f.cursor == None && last != [] && LastKey(last, f).Some?
    requires forall r :: r in next ==> r in Selected(table, f.(cursor := LastKey(last, f)))
    ensures next != [] ==> |Left(table, f, next)| < |Left(table, f, last)|
    ensures next == [] ==> |Left(table, f, next)| <= |Left(table, f, last)|
  {
    if next != [] {
      var r := next[|next| - 1];
      assert r in next && r in Left(table, f, last) && r !in Left(table, f, next);
      Smaller(Left(table, f, next), Left(table, f, last), r);
    }
  }

  lemma Smaller(a: set<Row>, b: set<Row>, r: Row)
    requires a <= b && r in b && r !in a
    ensures |a| < |b|
  {
    assert b == a + (b - a) && r in b - a;
    assert |b| == |a| + |b - a|;
  }

  /** Each page that is not empty leaves fewer rows. */
  lemma {:induction false} LeftAfter(table: set<Row>, f: Filter, limit: nat, pages: seq<seq<Row>>, p: nat)
    requires f.cursor == None && IsChain(table, f, limit, pages) && p < |pages| && pages[p] != []
    ensures |Left(table, f, pages[p])| + p + 1 <= |Selected(table, f)|
    decreases p
  {
    var r := pages[p][|pages[p]| - 1];
    assert r in pages[p];
    PageRow(table, f, limit, pages, p, r);
    if p == 0 {
      Smaller(Left(table, f, pages[0]), Selected(table, f), r);
    } else {
      LeftAfter(table, f, limit, pages, p - 1);
      forall x | x in pages[p] ensures x in Selected(table, f.(cursor := LastKey(pages[p - 1], f))) {
        PageRow(table, f, limit, pages, p, x);
      }
      LeftShrinks(table, f, pages[p - 1], pages[p]);
    }
  }

  /** A client always comes to the end: no chain has more pages than there are matching rows, but for an
      empty last one, for any page size and however the database breaks ties. */
  lemma ChainIsShort(table: set<Row>, f: Filter, limit: nat, pages: seq<seq<Row>>)
    requires f.cursor == None && IsChain(table, f, limit, pages)
    ensures |pages| <= |Selected(table, f)| + 1
    ensures |pages| == |Selected(table, f)| + 1 ==> pages[|pages| - 1] == []
  {
    var n := |pages|;
    if n > 0 && pages[n - 1] != [] {
      LeftAfter(table, f, limit, pages, n - 1);
    } else if n > 1 {
      assert IsLink(table, f, limit, pages, n - 1);
      LeftAfter(table, f, limit, pages, n - 2);
    }
  }

  /** There is nothing to follow: the last page is empty, or its last row has no sort key. */
  predicate Ended(f: Filter, pages: seq<seq<Row>>) {
    pages != [] && (pages[|pages| - 1] == [] || LastKey(pages[|pages| - 1], f) == None)
  }

  lemma FirstPage(table: set<Row>, f: Filter, limit: nat) returns (pages: seq<seq<Row>>)
    requires f.cursor == None
    ensures IsChain(table, f, limit, pages) && |pages| == 1
  {
    var list := SomeOrdering(Selected(table, f), OrderColumn(f.sortBy), f.desc);
    assert f.(cursor := None) == f;
    assert IsPage(table, f, limit, 0, Slice(list, 0, limit));
    pages := [Slice(list, 0, limit)];
  }

  /** Any chain can be followed to its end. */
  lemma {:induction false} FinishChain(table: set<Row>, f: Filter, limit: nat, seen: seq<seq<Row>>) returns (pages: seq<seq<Row>>)
    requires f.cursor == None && IsChain(table, f, limit, seen) && seen != []
    ensures IsChain(table, f, limit, pages) && Ended(f, pages) && seen <= pages
    decreases |Selected(table, f)| + 1 - |seen|
  {
    ChainIsShort(table, f, limit, seen);
    if Ended(f, seen) {
      pages := seen;
    } else {
      var g := f.(cursor := LastKey(seen[|seen| - 1], f));
      var list := SomeOrdering(Selected(table, g), OrderColumn(g.sortBy), g.desc);
      assert IsPage(table, g, limit, 0, Slice(list, 0, limit));
      var more := seen + [Slice(list, 0, limit)];
      assert more[..|more| - 1] == seen;
      ChainPrefix(table, f, limit, more);
      pages := FinishChain(table, f, limit, more);
    }
  }

  // ----- ties -------------------------------------------------------------------------------

  lemma PageSize(table: set<Row>, f: Filter, pages: seq<seq<Row>>, p: nat)
    requires IsChain(table, f, 1, pages) && p < |pages|
    ensures |pages[p]| <= 1
  {
    assert IsLink(table, f, 1, pages, p);
  }

  /** The rows of a chain of pages of one row have ever farther keys. */
  lemma {:induction false} SingleRowKeys(table: set<Row>, f: Filter, pages: seq<seq<Row>>, p: nat, q: nat)
    requires f.cursor == None && IsChain(table, f, 1, pages) && p < q < |pages| && pages[q] != []
    ensures pages[p] != [] && Key(pages[p][0], OrderColumn(f.sortBy)).Some?
    ensures Beyond(Key(pages[q][0], OrderColumn(f.sortBy)), Key(pages[p][0], OrderColumn(f.sortBy)).value, f.desc)
    decreases q
  {
    PageRow(table, f, 1, pages, q, pages[q][0]);
    PageSize(table, f, pages, q - 1);
    if p < q - 1 {
      SingleRowKeys(table, f, pages, p, q - 1);
    }
  }

  lemma {:induction false} InSomePage(pages: seq<seq<Row>>, r: Row) returns (p: nat)
    requires r in Flatten(pages)
    ensures p < |pages| && r in pages[p]
  {
    if r in pages[|pages| - 1] {
      p := |pages| - 1;
    } else {
      p := InSomePage(pages[..|pages| - 1], r);
    }
  }

  /** Two rows that a cursor can tell apart: both have a sort key, and not the same. */
  predicate ToldApart(r: Row, s: Row, order: Column) {
    Key(r, order).Some? && Key(s, order).Some? && Key(r, order) != Key(s, order)
  }

  /** Two rows that share a key, or one of which has none, are never both visited when the client
      follows the cursor row by row. */
  lemma TiesAreLost(table: set<Row>, f: Filter, pages: seq<seq<Row>>, r: Row, s: Row)
    requires f.cursor == None && IsChain(table, f, 1, pages)
    requires r != s && !ToldApart(r, s, OrderColumn(f.sortBy))
    ensures !(r in Flatten(pages) && s in Flatten(pages))
  {
    if r in Flatten(pages) && s in Flatten(pages) {
      var p := InSomePage(pages, r);
      var q := InSomePage(pages, s);
      PageSize(table, f, pages, p);
      PageSize(table, f, pages, q);
      assert pages[p] == [r] && pages[q] == [s];
      if p < q {
        SingleRowKeys(table, f, pages, p, q);
      } else {
        assert q < p;
        SingleRowKeys(table, f, pages, q, p);
      }
    }
  }

  ghost predicate Covers(table: set<Row>, f: Filter, pages: seq<seq<Row>>) {
    forall r :: r in Selected(table, f) ==> r in Flatten(pages)
  }

  /** For every page size, and however the database breaks ties. */
  ghost predicate AlwaysCovers(table: set<Row>, f: Filter) {
    forall limit: nat, pages :: limit >= 1 && IsChain(table, f, limit, pages) && Ended(f, pages) ==> Covers(table, f, pages)
  }

  lemma DistinctCovers(table: set<Row>, f: Filter, limit: nat, pages: seq<seq<Row>>)
    requires f.cursor == None && limit >= 1 && DistinctKeys(Selected(table, f), OrderColumn(f.sortBy))
    requires IsChain(table, f, limit, pages) && Ended(f, pages)
    ensures Covers(table, f, pages)
  {
    var n := |pages| - 1;
    if pages[n] != [] {
      PageRow(table, f, limit, pages, n, pages[n][|pages[n]| - 1]);
    }
    var list := SomeOrdering(Selected(table, f), OrderColumn(f.sortBy), f.desc);
    CursorPagesComplete(table, f, limit, pages, list);
    assert |pages| * limit == n * limit + limit;
    assert Flatten(pages) == list;
  }

  /** A single row is on the first page. */
  lemma SingleCovers(table: set<Row>, f: Filter, limit: nat, pages: seq<seq<Row>>, only: Row)
    requires f.cursor == None && limit >= 1 && Selected(table, f) == {only}
    requires IsChain(table, f, limit, pages) && pages != []
    ensures Covers(table, f, pages)
  {
    assert IsLink(table, f, limit, pages, 0);
    assert f.(cursor := None) == f;
    var list :| IsOrdering(list, Selected(table, f), OrderColumn(f.sortBy), f.desc) && pages[0] == Slice(list, 0, limit);
    forall i | 0 <= i < |list| ensures list[i] == only {
      assert list[i] in Selected(table, f);
    }
    assert only in Selected(table, f) && only in list;
    assert pages[0][0] == list[0] == only;
    InFlatten(pages, 0, only);
  }

  lemma {:induction false} InFlatten(pages: seq<seq<Row>>, p: nat, r: Row)
    requires p < |pages| && r in pages[p]
    ensures r in Flatten(pages)
  {
    if p < |pages| - 1 {
      InFlatten(pages[..|pages| - 1], p, r);
    }
  }

  lemma UntoldIsLost(table: set<Row>, f: Filter, r: Row, s: Row)
    requires f.cursor == None && r in Selected(table, f) && s in Selected(table, f)
    requires r != s && !ToldApart(r, s, OrderColumn(f.sortBy))
    ensures !AlwaysCovers(table, f)
  {
    var seen := FirstPage(table, f, 1);
    var pages := FinishChain(table, f, 1, seen);
    TiesAreLost(table, f, pages, r, s);
    assert !Covers(table, f, pages);
  }

  /** Following the cursor to the end shows every matching row, for every page size and however the
      database breaks ties, if and only if any two of them have sort keys, and different ones. */
  lemma CursorCompleteIff(table: set<Row>, f: Filter)
    requires f.cursor == None
    ensures AlwaysCovers(table, f)
            <==> forall r, s :: r in Selected(table, f) && s in Selected(table, f) && r != s ==> ToldApart(r, s, OrderColumn(f.sortBy))
  {
    var rows, order := Selected(table, f), OrderColumn(f.sortBy);
    if r, s :| r in rows && s in rows && r != s && !ToldApart(r, s, order) {
      UntoldIsLost(table, f, r, s);
    } else {
      forall limit: nat, pages | limit >= 1 && IsChain(table, f, limit, pages) && Ended(f, pages) ensures Covers(table, f, pages) {
        if only :| only in rows && Key(only, order) == None {
          assert forall r :: r in rows ==> r == only;
          assert rows == {only};
          SingleCovers(table, f, limit, pages, only);
        } else {
          DistinctCovers(table, f, limit, pages);
        }
      }
    }
  }
}
