/**
 * The fill report: successful deposits (other than balance deductions) and successful
 * withdrawals merged into one list, newest first, with a search by username, amount,
 * type and dates, ten rows per page and a pager of the neighbours of the current page.
 */
module FillReport {
  import opened Wrappers
  import opened Text
  import opened Collections
  import opened Paging
  import opened Clock

  // ---------------------------------------------------------------- data

  /** A fetched deposit; `time` is None when `depositTime` is no readable date. */
  datatype DepositItem = DepositItem(username: string, amount: string, status: string, depositType: string, time: Option<int>)

  /** A fetched withdrawal. */
  datatype WithdrawItem = WithdrawItem(username: string, amount: string, status: string, time: Option<int>)

  datatype Kind = Deposit | Withdraw

  /** A report row; `amount` is the text `toString` gives the amount. */
  datatype Entry = Entry(username: string, amount: string, time: Option<int>, kind: Kind)

  /** The search form; `kind` None is the 'all' option. */
  datatype SearchInput = SearchInput(username: string, amount: string, kind: Option<Kind>, startDate: Bound, endDate: Bound)

  const NoSearch := SearchInput("", "", None, Unset, Unset)

  const PageSize: nat := 10

  // ---------------------------------------------------------------- merge

  predicate Successful(status: string) {
    status == "Success" || status == "Approved"
  }

  predicate KeepDeposit(d: DepositItem) {
    Successful(d.status) && d.depositType != "Deductbalance"
  }

  predicate KeepWithdraw(w: WithdrawItem) {
    Successful(w.status)
  }

  function FromDeposit(d: DepositItem): Entry {
    Entry(d.username, d.amount, d.time, Deposit)
  }

  function FromWithdraw(w: WithdrawItem): Entry {
    Entry(w.username, w.amount, w.time, Withdraw)
  }

  /** `new Date(b.time) - new Date(a.time)`: newer rows first, an unreadable time a tie. */
  predicate NewerFirst(a: Entry, b: Entry) {
    a.time.None? || b.time.None? || a.time.value >= b.time.value
  }

  /** The kept deposits, then the kept withdrawals, before the sort. */
  function Combined(deposits: seq<DepositItem>, withdraws: seq<WithdrawItem>): seq<Entry> {
    Map(Filter(deposits, KeepDeposit), FromDeposit) + Map(Filter(withdraws, KeepWithdraw), FromWithdraw)
  }

  /** The report as loaded. */
  function Merged(deposits: seq<DepositItem>, withdraws: seq<WithdrawItem>): seq<Entry> {
    SortWith(Combined(deposits, withdraws), NewerFirst)
  }

  /** Before the sort, every deposit row comes from a kept deposit. */
  lemma CombinedDeposits(deposits: seq<DepositItem>, withdraws: seq<WithdrawItem>)
    ensures forall e :: e in Combined(deposits, withdraws) && e.kind == Deposit ==>
      exists d :: d in deposits && KeepDeposit(d) && e == FromDeposit(d)
  {
    var c := Combined(deposits, withdraws);
    var ds := Filter(deposits, KeepDeposit);
    var md := Map(ds, FromDeposit);
    var mw := Map(Filter(withdraws, KeepWithdraw), FromWithdraw);
    assert c == md + mw;
    assert forall j :: 0 <= j < |mw| ==> mw[j].kind == Withdraw;
    forall e | e in c && e.kind == Deposit ensures exists d :: d in deposits && KeepDeposit(d) && e == FromDeposit(d) {
      var k :| 0 <= k < |c| && c[k] == e;
      assert k < |md|;
      assert ds[k] in deposits && md[k] == FromDeposit(ds[k]);
    }
  }

  /** Before the sort, every withdraw row comes from a kept withdrawal. */
  lemma CombinedWithdraws(deposits: seq<DepositItem>, withdraws: seq<WithdrawItem>)
    ensures forall e :: e in Combined(deposits, withdraws) && e.kind == Withdraw ==>
      exists w :: w in withdraws && KeepWithdraw(w) && e == FromWithdraw(w)
  {
    var c := Combined(deposits, withdraws);
    var md := Map(Filter(deposits, KeepDeposit), FromDeposit);
    var ws := Filter(withdraws, KeepWithdraw);
    var mw := Map(ws, FromWithdraw);
    assert c == md + mw;
    assert forall j :: 0 <= j < |md| ==> md[j].kind == Deposit;
    forall e | e in c && e.kind == Withdraw ensures exists w :: w in withdraws && KeepWithdraw(w) && e == FromWithdraw(w) {
      assert e !in md;
      assert e in mw;
      var j :| 0 <= j < |mw| && mw[j] == e;
      assert ws[j] in withdraws && KeepWithdraw(ws[j]) && mw[j] == FromWithdraw(ws[j]);
    }
  }

  /** Before the sort, every kept record has its row. */
  lemma CombinedKeepsAll(deposits: seq<DepositItem>, withdraws: seq<WithdrawItem>)
    ensures forall d :: d in deposits && KeepDeposit(d) ==> FromDeposit(d) in Combined(deposits, withdraws)
    ensures forall w :: w in withdraws && KeepWithdraw(w) ==> FromWithdraw(w) in Combined(deposits, withdraws)
  {
    var c := Combined(deposits, withdraws);
    var ds := Filter(deposits, KeepDeposit);
    var ws := Filter(withdraws, KeepWithdraw);
    var md := Map(ds, FromDeposit);
    var mw := Map(ws, FromWithdraw);
    assert c == md + mw;
    forall d | d in deposits && KeepDeposit(d) ensures FromDeposit(d) in c {
      assert d in ds;
      var j :| 0 <= j < |ds| && ds[j] == d;
      assert c[j] == md[j];
    }
    forall w | w in withdraws && KeepWithdraw(w) ensures FromWithdraw(w) in c {
      assert w in ws;
      var j :| 0 <= j < |ws| && ws[j] == w;
      assert c[|md| + j] == mw[j];
    }
  }

  /**
   * A deposit row comes from a successful deposit that is no deduction, a withdraw row
   * from a successful withdrawal, each such record gives a row, and the rows are newest
   * first wherever neighbours both have a time.
   */
  lemma MergedRows(deposits: seq<DepositItem>, withdraws: seq<WithdrawItem>)
    ensures forall e :: e in Merged(deposits, withdraws) && e.kind == Deposit ==>
      exists d :: d in deposits && KeepDeposit(d) && e == FromDeposit(d)
    ensures forall e :: e in Merged(deposits, withdraws) && e.kind == Withdraw ==>
      exists w :: w in withdraws && KeepWithdraw(w) && e == FromWithdraw(w)
    ensures forall d :: d in deposits && KeepDeposit(d) ==> FromDeposit(d) in Merged(deposits, withdraws)
    ensures forall w :: w in withdraws && KeepWithdraw(w) ==> FromWithdraw(w) in Merged(deposits, withdraws)
    ensures |Merged(deposits, withdraws)| == |Filter(deposits, KeepDeposit)| + |Filter(withdraws, KeepWithdraw)|
    ensures forall i :: 0 <= i < |Merged(deposits, withdraws)| - 1 ==>
      NewerFirst(Merged(deposits, withdraws)[i], Merged(deposits, withdraws)[i + 1])
  {
    var c := Combined(deposits, withdraws);
    assert Total(NewerFirst);
    SortWithSorted(c, NewerFirst);
    SortWithMembers(c, NewerFirst);
    CombinedDeposits(deposits, withdraws);
    CombinedWithdraws(deposits, withdraws);
    CombinedKeepsAll(deposits, withdraws);
  }

  // ---------------------------------------------------------------- search

  predicate Matches(e: Entry, q: SearchInput) {
    (q.username == "" || ContainsCI(e.username, q.username))
    && (q.amount == "" || Contains(e.amount, q.amount))
    && (q.kind.None? || e.kind == q.kind.value)
    && InRange(e.time, q.startDate, q.endDate)
  }

  function Matcher(q: SearchInput): Entry -> bool {
    e => Matches(e, q)
  }

  function SearchResult(rows: seq<Entry>, q: SearchInput): seq<Entry> {
    Filter(rows, Matcher(q))
  }

  /** A row is found exactly when it passes all four criteria; a chosen type finds only that type. */
  lemma SearchFinds(rows: seq<Entry>, q: SearchInput)
    ensures forall e :: e in SearchResult(rows, q) <==> e in rows && Matches(e, q)
    ensures q.kind.Some? ==> forall i :: 0 <= i < |SearchResult(rows, q)| ==> SearchResult(rows, q)[i].kind == q.kind.value
  {
  }

  /** Deposits plus withdrawals (searched by type) are all the rows (searched for 'all'). */
  lemma KindsPartition(rows: seq<Entry>, q: SearchInput)
    requires q.kind.None?
    ensures |SearchResult(rows, q.(kind := Some(Deposit)))| + |SearchResult(rows, q.(kind := Some(Withdraw)))|
         == |SearchResult(rows, q)|
  {
    FilterSplit(rows, q);
  }

  lemma {:induction false} FilterSplit(rows: seq<Entry>, q: SearchInput)
    requires q.kind.None?
    ensures |Filter(rows, Matcher(q.(kind := Some(Deposit))))| + |Filter(rows, Matcher(q.(kind := Some(Withdraw))))|
         == |Filter(rows, Matcher(q))|
    decreases |rows|
  {
    if rows != [] {
      var d := Matcher(q.(kind := Some(Deposit)));
      var w := Matcher(q.(kind := Some(Withdraw)));
      var all := Matcher(q);
      FilterSplit(rows[1..], q);
      assert all(rows[0]) <==> d(rows[0]) || w(rows[0]);
      assert !(d(rows[0]) && w(rows[0]));
      assert |Filter(rows, d)| == (if d(rows[0]) then 1 else 0) + |Filter(rows[1..], d)|;
      assert |Filter(rows, w)| == (if w(rows[0]) then 1 else 0) + |Filter(rows[1..], w)|;
      assert |Filter(rows, all)| == (if all(rows[0]) then 1 else 0) + |Filter(rows[1..], all)|;
    }
  }

  lemma EmptySearchFindsAll(rows: seq<Entry>)
    ensures SearchResult(rows, NoSearch) == rows
  {
    FilterAllPass(rows, Matcher(NoSearch));
  }

  // ---------------------------------------------------------------- pager

  /** `{page-1, page, page+1}` within 1..totalPages, in order. */
  function Middle(page: int, total: nat): (r: seq<int>)
    ensures Increasing(r)
    ensures forall i :: 0 <= i < |r| ==> 1 <= r[i] <= total && page - 1 <= r[i] <= page + 1
    ensures forall p :: 1 <= p <= total && page - 1 <= p <= page + 1 ==> p in r
  {
    PagesKept(total, Near(page));
    Filter(PageRange(total), Near(page))
  }

  /** The neighbours of the current page, itself included. */
  function Near(page: int): int -> bool {
    p => page - 1 <= p <= page + 1
  }

  /** "1", with an ellipsis once the page is past 4, shown past page 3. */
  function Lead(page: int): seq<Button> {
    if page > 3 then [PageButton(1)] + (if page > 4 then [Dots] else []) else []
  }

  /** The last page, after an ellipsis while the page is below `totalPages - 3`, shown below `totalPages - 2`. */
  function Trail(page: int, total: nat): seq<Button> {
    if page < total - 2 then (if page < total - 3 then [Dots] else []) + [PageButton(total)] else []
  }

  function Pager(page: int, total: nat): seq<Button> {
    Lead(page) + Map(Middle(page, total), (p: int) => PageButton(p)) + Trail(page, total)
  }

  lemma LeadNumbers(page: int)
    ensures Numbers(Lead(page)) == if page > 3 then [1] else []
  {
    if page > 4 {
      NumbersTwo(PageButton(1), Dots);
      assert [PageButton(1)] + [Dots] == [PageButton(1), Dots];
    }
  }

  lemma TrailNumbers(page: int, total: nat)
    ensures Numbers(Trail(page, total)) == if page < total - 2 then [total] else []
  {
    if page < total - 3 {
      NumbersTwo(Dots, PageButton(total));
      assert [Dots] + [PageButton(total)] == [Dots, PageButton(total)];
    }
  }

  /** The page numbers shown: 1 past page 3, the neighbourhood, and the last while below `totalPages - 2`. */
  lemma PagerNumbers(page: int, total: nat)
    ensures Numbers(Pager(page, total))
      == (if page > 3 then [1] else []) + Middle(page, total) + (if page < total - 2 then [total] else [])
  {
    var mid := Map(Middle(page, total), (p: int) => PageButton(p));
    NumbersAppend(Lead(page) + mid, Trail(page, total));
    NumbersAppend(Lead(page), mid);
    NumbersOfPages(Middle(page, total));
    LeadNumbers(page);
    TrailNumbers(page, total);
  }

  /**
   * Whatever the current page, no number is shown twice: the numbers rise strictly, 1
   * shows exactly past page 3 (or as a neighbour), the last page exactly below
   * `totalPages - 2` (or as a neighbour), and every existing neighbour shows.
   */
  lemma PagerShowsEachOnce(page: int, total: nat)
    ensures Increasing(Numbers(Pager(page, total)))
    ensures forall p :: p in Numbers(Pager(page, total)) <==>
      (p == 1 && page > 3) || (p == total && page < total - 2) || (1 <= p <= total && page - 1 <= p <= page + 1)
  {
    PagerIncreasing(page, total);
    PagerMembers(page, total);
  }

  lemma PagerIncreasing(page: int, total: nat)
    ensures Increasing(Numbers(Pager(page, total)))
  {
    var h: seq<int> := if page > 3 then [1] else [];
    var w := Middle(page, total);
    var t: seq<int> := if page < total - 2 then [total] else [];
    assert forall i, j :: 0 <= i < |h| && 0 <= j < |w| ==> h[i] < w[j];
    assert forall i, j :: 0 <= i < |w| && 0 <= j < |t| ==> w[i] < t[j];
    assert forall i, j :: 0 <= i < |h| && 0 <= j < |t| ==> h[i] < t[j];
    IncreasingJoin(h, w, t);
    PagerNumbers(page, total);
  }

  lemma PagerMembers(page: int, total: nat)
    ensures forall p :: p in Numbers(Pager(page, total)) <==>
      (p == 1 && page > 3) || (p == total && page < total - 2) || (1 <= p <= total && page - 1 <= p <= page + 1)
  {
    var h: seq<int> := if page > 3 then [1] else [];
    var w := Middle(page, total);
    var t: seq<int> := if page < total - 2 then [total] else [];
    PagerNumbers(page, total);
    assert Numbers(Pager(page, total)) == h + w + t;
    forall p ensures p in h + w + t <==>
      (p == 1 && page > 3) || (p == total && page < total - 2) || (1 <= p <= total && page - 1 <= p <= page + 1)
    {
      assert p in h + w + t <==> p in h || p in w || p in t;
    }
  }

  /** Gluing a smaller part in front and a larger one behind keeps a sequence increasing. */
  lemma IncreasingJoin(h: seq<int>, w: seq<int>, t: seq<int>)
    requires Increasing(h) && Increasing(w) && Increasing(t)
    requires forall i, j :: 0 <= i < |h| && 0 <= j < |w| ==> h[i] < w[j]
    requires forall i, j :: 0 <= i < |w| && 0 <= j < |t| ==> w[i] < t[j]
    requires forall i, j :: 0 <= i < |h| && 0 <= j < |t| ==> h[i] < t[j]
    ensures Increasing(h + w + t)
  {
    var all := h + w + t;
    forall i, j | 0 <= i < j < |all| ensures all[i] < all[j] {
      if i < |h| && j >= |h| && j < |h| + |w| {
        assert all[j] == w[j - |h|];
      } else if i >= |h| && i < |h| + |w| && j < |h| + |w| {
        assert all[i] == w[i - |h|] && all[j] == w[j - |h|];
      } else if i >= |h| && i < |h| + |w| {
        assert all[i] == w[i - |h|];
      }
    }
  }

  /** On page 4 the pager starts 1 3: page 2 is left out with no ellipsis in its place. */
  lemma PageFourSkipsTwo(total: nat)
    requires total >= 4
    ensures |Pager(4, total)| >= 2 && Pager(4, total)[0] == PageButton(1) && Pager(4, total)[1] == PageButton(3)
    ensures 2 !in Numbers(Pager(4, total))
  {
    var w := Middle(4, total);
    assert 3 in w;
    var k :| 0 <= k < |w| && w[k] == 3;
    assert w[0] <= w[k];
    var mid := Map(w, (p: int) => PageButton(p));
    assert Pager(4, total) == [PageButton(1)] + mid + Trail(4, total);
    assert Pager(4, total)[1] == mid[0];
    PagerShowsEachOnce(4, total);
  }

  // ---------------------------------------------------------------- the page

  class ReportPage {
    var originalData: seq<Entry>
    var filteredData: seq<Entry>
    var searchInput: SearchInput
    var page: int
    var loading: bool

    constructor()
      ensures originalData == [] && filteredData == [] && searchInput == NoSearch && page == 1 && loading
    {
      originalData := [];
      filteredData := [];
      searchInput := NoSearch;
      page := 1;
      loading := true;
    }

    function PageRows(): seq<Entry>
      reads this
    {
      Page(filteredData, page, PageSize)
    }

    function TotalPages(): nat
      reads this
    {
      CeilDiv(|filteredData|, PageSize)
    }

    function Buttons(): seq<Button>
      reads this
    {
      Pager(page, TotalPages())
    }

    /**
     * `fetchData`, run only for an Admin (anyone else is sent away with nothing loaded):
     * `fetched` is None when either request or its decoding fails.
     */
    method Load(isAdmin: bool, fetched: Option<(seq<DepositItem>, seq<WithdrawItem>)>) returns (redirected: bool)
      modifies this`originalData, this`filteredData, this`loading
      ensures redirected == !isAdmin
      ensures isAdmin && fetched.Some? ==>
        originalData == Merged(fetched.value.0, fetched.value.1) && filteredData == originalData && !loading
      ensures isAdmin && fetched.None? ==>
        originalData == old(originalData) && filteredData == old(filteredData) && !loading
      ensures !isAdmin ==>
        originalData == old(originalData) && filteredData == old(filteredData) && loading == old(loading)
    {
      redirected := !isAdmin;
      if isAdmin {
        loading := true;
        if fetched.Some? {
          originalData := Merged(fetched.value.0, fetched.value.1);
          filteredData := originalData;
        }
        loading := false;
      }
    }

    method Edit(q: SearchInput)
      modifies this`searchInput
      ensures searchInput == q
    {
      searchInput := q;
    }

    /** `handleSearch`. */
    method Search()
      modifies this`filteredData, this`page
      ensures filteredData == SearchResult(originalData, searchInput) && page == 1
    {
      filteredData := SearchResult(originalData, searchInput);
      page := 1;
    }

    /** `handleReset`: empty criteria with type 'all', the whole report, page 1. */
    method Reset()
      modifies this`searchInput, this`filteredData, this`page
      ensures searchInput == NoSearch && filteredData == originalData && page == 1
    {
      searchInput := NoSearch;
      filteredData := originalData;
      page := 1;
    }

    /** A pager button. */
    method GoTo(p: int)
      modifies this`page
      ensures page == p
    {
      page := p;
    }
  }
}
