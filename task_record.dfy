/**
 * The task record: every user task, latest start first, filtered live by username,
 * product id and status, in pages of 500.
 */
module TaskRecord {
  import opened Wrappers
  import opened Text
  import opened Collections
  import opened Paging

  /** A user task; `taskStart` is None when `new Date(item.taskStart)` is an invalid date. */
  datatype Record = Record(username: string, productId: string, status: string, taskStart: Option<int>)

  datatype Filters = Filters(username: string, productId: string, status: string)

  const NoFilters := Filters("", "", "")

  const PageSize: nat := 500

  /** The page state: the loaded records, the page number, the filter inputs and the spinner. */
  datatype View = View(data: seq<Record>, page: int, filters: Filters, loading: bool)

  const Initial := View([], 1, NoFilters, true)

  /** The comparator `new Date(b.taskStart) - new Date(a.taskStart)`, an invalid date a tie. */
  predicate StartedLater(a: Record, b: Record) {
    a.taskStart.None? || b.taskStart.None? || a.taskStart.value >= b.taskStart.value
  }

  function Newest(data: seq<Record>): seq<Record> {
    SortWith(data, StartedLater)
  }

  /** The fetch stores the records latest first; a failure stores nothing; the spinner stops either way. */
  function Load(v: View, fetched: Option<seq<Record>>): (r: View)
    ensures fetched.Some? ==> r.data == Newest(fetched.value)
    ensures fetched.None? ==> r.data == v.data
    ensures !r.loading && r.page == v.page && r.filters == v.filters
  {
    v.(data := if fetched.Some? then Newest(fetched.value) else v.data, loading := false)
  }

  /** The loaded records are the fetched ones, each as often, and neighbours with dates run latest first. */
  lemma LoadedNewestFirst(data: seq<Record>)
    ensures multiset(Newest(data)) == multiset(data)
    ensures forall i :: 0 <= i < |Newest(data)| - 1 ==>
      (Newest(data)[i].taskStart.Some? && Newest(data)[i + 1].taskStart.Some? ==>
        Newest(data)[i].taskStart.value >= Newest(data)[i + 1].taskStart.value)
  {
    assert Total(StartedLater);
    SortWithSorted(data, StartedLater);
  }

  /** Each filter is empty or contained in its field, ignoring case. */
  predicate Matches(r: Record, f: Filters) {
    (f.username == "" || ContainsCI(r.username, f.username))
    && (f.productId == "" || ContainsCI(r.productId, f.productId))
    && (f.status == "" || ContainsCI(r.status, f.status))
  }

  function Matcher(f: Filters): Record -> bool {
    r => Matches(r, f)
  }

  function FilteredData(v: View): seq<Record> {
    Filter(v.data, Matcher(v.filters))
  }

  function PaginatedData(v: View): seq<Record> {
    Page(FilteredData(v), v.page, PageSize)
  }

  function TotalPages(v: View): nat {
    CeilDiv(|FilteredData(v)|, PageSize)
  }

  /** The page buttons `1..totalPages`. */
  function Buttons(v: View): seq<int> {
    PageRange(TotalPages(v))
  }

  /** The view holds exactly the records passing all three filters, in their order. */
  lemma FilterFinds(v: View)
    ensures forall r :: r in FilteredData(v) <==> r in v.data && Matches(r, v.filters)
  {
  }

  /** An empty filter is no constraint, since every text contains "". */
  lemma EmptyFilterNoConstraint(r: Record, f: Filters)
    ensures Matches(r, f) <==>
      ContainsCI(r.username, f.username) && ContainsCI(r.productId, f.productId) && ContainsCI(r.status, f.status)
  {
    ContainsEmpty(Lower(r.username));
    ContainsEmpty(Lower(r.productId));
    ContainsEmpty(Lower(r.status));
  }

  /**
   * A page holds at most 500 records, those that follow the earlier pages, and the
   * pages `1..totalPages` together are the whole filtered list.
   */
  lemma PagesShape(v: View)
    requires v.page >= 1
    ensures |PaginatedData(v)| <= PageSize
    ensures forall i :: 0 <= i < |PaginatedData(v)| ==>
      PaginatedData(v)[i] == FilteredData(v)[(v.page - 1) * PageSize + i]
    ensures PagesUpTo(FilteredData(v), PageSize, TotalPages(v)) == FilteredData(v)
  {
    PageContents(FilteredData(v), v.page, PageSize);
    PagesCoverAll(FilteredData(v), PageSize);
  }

  /** Editing one filter input. */
  function EditFilters(v: View, f: Filters): (r: View)
    ensures r.filters == f && r.data == v.data && r.page == v.page
  {
    v.(filters := f)
  }

  /** A page button. */
  function GoTo(v: View, page: int): (r: View)
    ensures r.page == page && r.data == v.data && r.filters == v.filters
  {
    v.(page := page)
  }

  /** `handleReset`: all three filters empty; the page number stays. */
  function Reset(v: View): (r: View)
    ensures r.filters == NoFilters && r.page == v.page && r.data == v.data
  {
    v.(filters := NoFilters)
  }

  /** After a reset every loaded record is shown again. */
  lemma ResetShowsAll(v: View)
    ensures FilteredData(Reset(v)) == v.data
  {
    FilterAllPass(v.data, Matcher(NoFilters));
  }
}
