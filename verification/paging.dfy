/** The page-at-a-time document list shared by both administration screens
    (`loadDocuments` in `src/app/admin/upload/page.js` and
    `src/app/admin/documents/page.js`). The query result is an input. */
module Paging {
  import opened Options

  const PageSize: nat := 5

  /** The inclusive bounds handed to `.range(from, to)`. */
  datatype RangeRequest = RangeRequest(from: nat, to: nat)

  datatype QueryOutcome<T> = QueryFailed | Rows(rows: seq<T>)

  datatype ListState<T> = ListState(items: seq<T>, hasMore: bool, loading: bool)

  /** A list state and the range it requested, if a load ran. */
  datatype Loaded<T> = Loaded(state: ListState<T>, request: Option<RangeRequest>)

  function InitialList<T>(): ListState<T> {
    ListState([], true, false)
  }

  function Min(a: nat, b: nat): nat {
    if a <= b then a else b
  }

  /** `loadDocuments(cid, start)`: nothing while a load is running;
      otherwise ask for the page starting at `start`, replace the list when
      `start` is 0 and append otherwise, and expect more exactly when the page
      came back full. A failed query keeps the list and stops paging. */
  function Load<T>(s: ListState<T>, start: nat, outcome: QueryOutcome<T>): (r: Loaded<T>)
    ensures s.loading ==> r == Loaded(s, None)
    ensures !s.loading ==> !r.state.loading
    ensures !s.loading ==> r.request == Some(RangeRequest(start, start + PageSize - 1))
    ensures !s.loading && outcome.QueryFailed? ==> r.state.items == s.items && !r.state.hasMore
    ensures !s.loading && outcome.Rows? ==> r.state.hasMore == (|outcome.rows| == PageSize)
    ensures !s.loading && outcome.Rows? && start == 0 ==> r.state.items == outcome.rows
    ensures !s.loading && outcome.Rows? && start != 0 ==> r.state.items == s.items + outcome.rows
  {
    if s.loading then Loaded(s, None)
    else
      var request := Some(RangeRequest(start, start + PageSize - 1));
      match outcome
      case QueryFailed => Loaded(s.(hasMore := false), request)
      case Rows(rows) =>
        var items := if start == 0 then rows else s.items + rows;
        Loaded(ListState(items, |rows| == PageSize, false), request)
  }

  /** The rows a `.range(from, from + count - 1)` query returns from a table
      already in the query's order. */
  function Window<T>(table: seq<T>, from: nat, count: nat): (w: seq<T>)
    ensures |w| <= count
    ensures from <= |table| ==> w <= table[from..]
    ensures from + count <= |table| ==> |w| == count
    ensures from + count > |table| ==> from + |w| >= |table|
    ensures from >= |table| ==> w == []
  {
    table[Min(from, |table|)..Min(from + count, |table|)]
  }

  /** Loading the next page of an unchanged table keeps the shown list an
      initial segment of the table: nothing skipped, repeated or reordered. */
  lemma LoadKeepsPrefix<T>(s: ListState<T>, table: seq<T>, start: nat)
    requires !s.loading && s.items <= table
    requires start == 0 || start == |s.items|
    ensures var r := Load(s, start, Rows(Window(table, start, PageSize)));
            r.state.items <= table
  {
    var w := Window(table, start, PageSize);
    if start != 0 {
      assert s.items + w == table[..|s.items| + |w|];
    }
  }

  /** A short page means the end was reached: the list is then the whole table. */
  lemma ShortPageMeansComplete<T>(s: ListState<T>, table: seq<T>, start: nat)
    requires !s.loading && s.items <= table
    requires start == 0 || start == |s.items|
    ensures var r := Load(s, start, Rows(Window(table, start, PageSize)));
            !r.state.hasMore ==> r.state.items == table
  {
    var w := Window(table, start, PageSize);
    LoadKeepsPrefix(s, table, start);
    if |w| != PageSize {
      if start != 0 {
        assert |s.items + w| == |table|;
      }
    }
  }
}
