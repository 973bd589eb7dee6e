/** The document management screen (`src/app/admin/documents/page.js`):
    the same append-only listing as the upload screen, plus a page counter
    used to decide where to reload after a delete. */
module DocumentsPage {
  import opened Options
  import opened Paging
  import opened DocumentStore

  datatype DocsState = DocsState(companyId: string, list: ListState<Row>, currentPage: int)

  datatype Step = Step(state: DocsState, request: Option<RangeRequest>)

  const Initial: DocsState := DocsState([], InitialList(), 1)

  /** The mount effect once the profile names a company. */
  function Start(s: DocsState, companyId: string, outcome: QueryOutcome<Row>): (r: Step)
    requires companyId != []
    ensures r.state.companyId == companyId && r.state.currentPage == s.currentPage
    ensures !s.list.loading ==> r.request == Some(RangeRequest(0, PageSize - 1))
  {
    var l := Load(s.list, 0, outcome);
    Step(s.(companyId := companyId, list := l.state), l.request)
  }

  predicate CanLoadMore(s: DocsState) {
    s.companyId != [] && s.list.hasMore && !s.list.loading
  }

  /** `loadMore`: under the same guard as the upload screen, count one more
      page and ask for the rows after those shown. */
  function LoadMore(s: DocsState, outcome: QueryOutcome<Row>): (r: Step)
    ensures !CanLoadMore(s) ==> r == Step(s, None)
    ensures CanLoadMore(s) ==> r.state.currentPage == s.currentPage + 1
    ensures CanLoadMore(s) ==> r.request == Some(RangeRequest(|s.list.items|, |s.list.items| + PageSize - 1))
    ensures CanLoadMore(s) && outcome.Rows? ==> r.state.list.items == s.list.items + outcome.rows
  {
    if !CanLoadMore(s) then Step(s, None)
    else
      var l := Load(s.list, |s.list.items|, outcome);
      Step(s.(list := l.state, currentPage := s.currentPage + 1), l.request)
  }

  /** `Math.max(1, currentPage - (documents.length === PAGE_SIZE ? 0 : 1))`:
      stay on the page when exactly one full page is shown, else step back
      one, never below the first. */
  function NewPage(currentPage: int, shown: nat): (p: int)
    ensures p >= 1
    ensures currentPage >= 1 ==> p <= currentPage
    ensures p >= currentPage - 1
    ensures currentPage >= 1 && shown == PageSize ==> p == currentPage
    ensures currentPage >= 2 && shown != PageSize ==> p == currentPage - 1
  {
    var back := if shown == PageSize then 0 else 1;
    if currentPage - back > 1 then currentPage - back else 1
  }

  /** `(newPage - 1) * PAGE_SIZE`: the first row of page `page`. */
  function PageOffset(page: int): (offset: nat)
    requires page >= 1
    ensures offset % PageSize == 0
    ensures offset / PageSize == page - 1
  {
    (page - 1) * PageSize
  }

  /** The delete handler's reload AS WRITTEN: set the page counter to the
      new page and load one page at its offset. A non-zero offset appends
      to the list already shown, which still holds the deleted row. */
  function ReloadAfterDeleteAsWritten(s: DocsState, reload: QueryOutcome<Row>): (r: Step)
    ensures var p := NewPage(s.currentPage, |s.list.items|);
            r.state.currentPage == p
            && (!s.list.loading ==> r.request == Some(RangeRequest(PageOffset(p), PageOffset(p) + PageSize - 1)))
            && (!s.list.loading && reload.Rows? && p >= 2 ==> r.state.list.items == s.list.items + reload.rows)
  {
    var p := NewPage(s.currentPage, |s.list.items|);
    var l := Load(s.list, PageOffset(p), reload);
    Step(s.(list := l.state, currentPage := p), l.request)
  }

  /** The reload corrected: keep the page count `p` but fetch all of its
      rows, `[0, p * PAGE_SIZE - 1]`, replacing the list. */
  function ReloadAfterDelete(s: DocsState, reload: QueryOutcome<Row>): (r: Step)
    ensures var p := NewPage(s.currentPage, |s.list.items|);
            && r.state.currentPage == p
            && (s.list.loading ==> r.state.list == s.list && r.request.None?)
            && (!s.list.loading ==> r.request == Some(RangeRequest(0, p * PageSize - 1)) && !r.state.list.loading)
            && (!s.list.loading && reload.Rows? ==>
                  (r.state.list.items == reload.rows && (r.state.list.hasMore <==> |reload.rows| == p * PageSize)))
            && (!s.list.loading && reload.QueryFailed? ==> r.state.list.items == s.list.items && !r.state.list.hasMore)
  {
    var p := NewPage(s.currentPage, |s.list.items|);
    if s.list.loading then Step(s.(currentPage := p), None)
    else
      var request := Some(RangeRequest(0, p * PageSize - 1));
      match reload
      case QueryFailed => Step(s.(list := s.list.(hasMore := false), currentPage := p), request)
      case Rows(rows) => Step(s.(list := ListState(rows, |rows| == p * PageSize, false), currentPage := p), request)
  }

  /** `handleDelete`, using the corrected reload. */
  function Delete(s: DocsState, fileUrl: string, steps: DeleteSteps, reload: QueryOutcome<Row>): (r: Step)
    ensures !Deleted(steps) ==> r == Step(s, None)
    ensures Deleted(steps) ==> r == ReloadAfterDelete(s, reload)
  {
    if Deleted(steps) then ReloadAfterDelete(s, reload) else Step(s, None)
  }

  /** `handleUpload`'s reset: a complete upload reloads the first page and
      puts the counter back on page 1; a failed one changes nothing. */
  function AfterUpload(s: DocsState, result: UploadResult, reload: QueryOutcome<Row>): (r: Step)
    ensures result.error.Some? ==> r == Step(s, None)
    ensures result.error.None? ==> r.state.currentPage == 1
    ensures result.error.None? && !s.list.loading ==> r.request == Some(RangeRequest(0, PageSize - 1))
  {
    if result.error.Some? then Step(s, None)
    else
      var l := Load(s.list, 0, reload);
      Step(s.(list := l.state, currentPage := 1), l.request)
  }

  /** The listing is faithful to the table: an initial segment of it, no
      more rows than the pages counted, the whole table once paging stops. */
  predicate Faithful(s: DocsState, table: seq<Row>) {
    && s.currentPage >= 1
    && s.list.items <= table
    && |s.list.items| <= s.currentPage * PageSize
    && !s.list.loading
    && (!s.list.hasMore ==> s.list.items == table)
  }

  lemma StartFaithful(companyId: string, table: seq<Row>)
    requires companyId != []
    ensures Faithful(Start(Initial, companyId, Rows(Window(table, 0, PageSize))).state, table)
  {
    LoadKeepsPrefix(InitialList(), table, 0);
    ShortPageMeansComplete(InitialList<Row>(), table, 0);
  }

  /** Scrolling keeps the listing faithful to an unchanged table. */
  lemma LoadMoreFaithful(s: DocsState, table: seq<Row>)
    requires Faithful(s, table)
    ensures Faithful(LoadMore(s, Rows(Window(table, |s.list.items|, PageSize))).state, table)
  {
    if CanLoadMore(s) {
      var start := |s.list.items|;
      LoadKeepsPrefix(s.list, table, start);
      ShortPageMeansComplete(s.list, table, start);
    }
  }

  /** After a delete the corrected reload lists the table as it now is:
      the listing was faithful to the table before the delete, and the
      reload reads the table after it, so the deleted row is no longer
      listed and no row is listed twice unless the table repeats it. */
  lemma DeleteFaithful(s: DocsState, before: seq<Row>, after: seq<Row>)
    requires Faithful(s, before)
    ensures var p := NewPage(s.currentPage, |s.list.items|);
            var r := ReloadAfterDelete(s, Rows(Window(after, 0, p * PageSize))).state;
            && Faithful(r, after)
            && (forall d :: d !in after ==> d !in r.list.items)
  {
    var p := NewPage(s.currentPage, |s.list.items|);
    var w := Window(after, 0, p * PageSize);
    if |w| != p * PageSize {
      assert w == after;
    }
    var r := ReloadAfterDelete(s, Rows(w)).state;
    assert r.list.items <= after;
  }

  /** A complete upload resets the listing to the first page of the table as
      it is after the upload, whatever the listing showed before. */
  lemma UploadFaithful(s: DocsState, result: UploadResult, before: seq<Row>, after: seq<Row>)
    requires Faithful(s, before) && result.error.None?
    ensures Faithful(AfterUpload(s, result, Rows(Window(after, 0, PageSize))).state, after)
  {
    var w := Window(after, 0, PageSize);
    if |w| != PageSize {
      assert w == after;
    }
  }

  function TestRow(id: string): Row {
    Row(id, [], [], [], "ready")
  }

  /** The defect, on a company with exactly five documents: the first page
      comes back full, scrolling finds nothing more (counter now 2), then
      the third document is deleted. The reload as written stays on page 2,
      fetches rows from offset 5 of the four remaining, gets none, and the
      deleted document is still listed; the listing is no longer an initial
      segment of the table. The corrected reload shows the four survivors. */
  lemma DeletedRowStaysListed()
    ensures var table := [TestRow("1"), TestRow("2"), TestRow("3"), TestRow("4"), TestRow("5")];
            var after := [TestRow("1"), TestRow("2"), TestRow("4"), TestRow("5")];
            var s1 := Start(Initial, "c", Rows(Window(table, 0, PageSize))).state;
            var s2 := LoadMore(s1, Rows(Window(table, 5, PageSize))).state;
            var asWritten := ReloadAfterDeleteAsWritten(s2, Rows(Window(after, 5, PageSize))).state;
            var corrected := ReloadAfterDelete(s2, Rows(Window(after, 0, 2 * PageSize))).state;
            && Faithful(s2, table)
            && s2.currentPage == 2
            && TestRow("3") in asWritten.list.items
            && !(asWritten.list.items <= after)
            && TestRow("3") !in corrected.list.items
            && corrected.list.items == after
  {
    var table := [TestRow("1"), TestRow("2"), TestRow("3"), TestRow("4"), TestRow("5")];
    var after := [TestRow("1"), TestRow("2"), TestRow("4"), TestRow("5")];
    assert Window(table, 0, PageSize) == table;
    assert Window(table, 5, PageSize) == [];
    assert Window(after, 5, PageSize) == [];
    assert Window(after, 0, 2 * PageSize) == after;
    var s1 := Start(Initial, "c", Rows(table)).state;
    assert s1.list == ListState(table, true, false);
    var s2 := LoadMore(s1, Rows([])).state;
    assert s2.list.items == table + [] == table;
    assert NewPage(2, 5) == 2;
    var asWritten := ReloadAfterDeleteAsWritten(s2, Rows([])).state;
    assert asWritten.list.items == table;
    assert table[2] == TestRow("3");
    assert TestRow("3") != TestRow("4") by { assert "3"[0] != "4"[0]; }
    assert table[2] != after[2];
  }
}
