/** The upload screen (`src/app/admin/upload/page.js`): an append-only
    listing of the company's documents with upload and delete. */
module UploadPage {
  import opened Options
  import opened Paging
  import opened DocumentStore

  datatype PageState = PageState(companyId: string, list: ListState<Row>)

  /** A screen state and the listing range it requested, if any. */
  datatype Step = Step(state: PageState, request: Option<RangeRequest>)

  /** Before the profile is read: no company, nothing listed. */
  const Initial: PageState := PageState([], InitialList())

  /** The mount effect once the profile names a company: remember it and
      load the first page. */
  function Start(s: PageState, companyId: string, outcome: QueryOutcome<Row>): (r: Step)
    requires companyId != []
    ensures r.state.companyId == companyId
    ensures r.request == Load(s.list, 0, outcome).request
    ensures !s.list.loading ==> r.request == Some(RangeRequest(0, PageSize - 1))
  {
    var l := Load(s.list, 0, outcome);
    Step(PageState(companyId, l.state), l.request)
  }

  /** `loadMore`: fires only with a company, more to fetch and no load
      running, and asks for the rows after those already shown. */
  predicate CanLoadMore(s: PageState) {
    s.companyId != [] && s.list.hasMore && !s.list.loading
  }

  function LoadMore(s: PageState, outcome: QueryOutcome<Row>): (r: Step)
    ensures !CanLoadMore(s) ==> r == Step(s, None)
    ensures CanLoadMore(s) ==> r.request == Some(RangeRequest(|s.list.items|, |s.list.items| + PageSize - 1))
    ensures CanLoadMore(s) && outcome.Rows? ==> r.state.list.items == s.list.items + outcome.rows
    ensures CanLoadMore(s) && outcome.QueryFailed? ==> r.state.list.items == s.list.items && !r.state.list.hasMore
  {
    if !CanLoadMore(s) then Step(s, None)
    else
      var l := Load(s.list, |s.list.items|, outcome);
      Step(s.(list := l.state), l.request)
  }

  /** The screen shows an initial segment of the company's table (in the
      query's order) and, when it stops paging, the whole of it. */
  predicate ShowsTable(s: PageState, table: seq<Row>) {
    && s.list.items <= table
    && !s.list.loading
    && (!s.list.hasMore ==> s.list.items == table)
  }

  /** Scrolling an unchanged table keeps the listing faithful to it. */
  lemma LoadMoreShowsTable(s: PageState, table: seq<Row>)
    requires ShowsTable(s, table)
    ensures ShowsTable(LoadMore(s, Rows(Window(table, |s.list.items|, PageSize))).state, table)
  {
    if CanLoadMore(s) {
      var start := |s.list.items|;
      if start == 0 {
        assert Load(s.list, start, Rows(Window(table, start, PageSize))).state.items
               == Window(table, 0, PageSize);
      }
      LoadKeepsPrefix(s.list, table, start);
      ShortPageMeansComplete(s.list, table, start);
    }
  }

  /** What a delete did: the object it asked storage to remove, and the
      listing reload it triggered. */
  datatype DeleteResult = DeleteResult(removed: Option<string>, step: Step)

  /** `handleDelete`: after a confirmed, successful delete the list reloads
      from the first page; any failure leaves the list alone. */
  function Delete(s: PageState, fileUrl: string, steps: DeleteSteps, reload: QueryOutcome<Row>): (r: DeleteResult)
    ensures r.removed == RemovalRequest(fileUrl, steps)
    ensures !Deleted(steps) ==> r.step == Step(s, None)
    ensures Deleted(steps) && !s.list.loading ==> r.step.request == Some(RangeRequest(0, PageSize - 1))
    ensures Deleted(steps) && !s.list.loading && reload.Rows? ==> r.step.state.list.items == reload.rows
  {
    var removed := RemovalRequest(fileUrl, steps);
    if !Deleted(steps) then DeleteResult(removed, Step(s, None))
    else
      var l := Load(s.list, 0, reload);
      DeleteResult(removed, Step(s.(list := l.state), l.request))
  }

  /** `handleUpload` as far as the listing is concerned: a complete upload
      reloads from the first page, a failed one leaves the list. */
  function AfterUpload(s: PageState, result: UploadResult, reload: QueryOutcome<Row>): (r: Step)
    ensures result.error.Some? ==> r == Step(s, None)
    ensures result.error.None? && !s.list.loading ==> r.request == Some(RangeRequest(0, PageSize - 1))
  {
    if result.error.Some? then Step(s, None)
    else
      var l := Load(s.list, 0, reload);
      Step(s.(list := l.state), l.request)
  }

  /** Reloading from the first page after a delete or an upload lists the
      new table faithfully. */
  lemma ReloadShowsTable(s: PageState, table: seq<Row>)
    requires !s.list.loading
    ensures ShowsTable(s.(list := Load(s.list, 0, Rows(Window(table, 0, PageSize))).state), table)
  {
    var l := s.list.(items := []);
    LoadKeepsPrefix(l, table, 0);
    ShortPageMeansComplete(l, table, 0);
  }
}
