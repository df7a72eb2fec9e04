/**
 * The deposit record page: deposits newest first, a search by username, status and
 * date range, 25 rows per page and a seven-slot page window with ellipses.
 */
module DepositRecord {
  import opened Wrappers
  import opened Text
  import opened Collections
  import opened Paging
  import opened Clock

  // ---------------------------------------------------------------- data

  /** A deposit as the table reads it; `time` is None when `depositTime` is no readable date. */
  datatype Deposit = Deposit(id: string, username: string, depositType: string, amount: real,
                             status: string, time: Option<int>, operator: string)

  /** The search form; the date inputs are `Bound`s. */
  datatype Search = Search(username: string, transactionStatus: string, startDate: Bound, endDate: Bound)

  const NoSearch := Search("", "", Unset, Unset)

  /** Rows per page. */
  const RecordsPerPage: nat := 25

  // ---------------------------------------------------------------- load

  /**
   * `new Date(b) - new Date(a)`: later deposits first. A deposit without a readable date
   * compares as NaN, which `sort` takes as a tie with anything.
   */
  predicate NewerFirst(a: Deposit, b: Deposit) {
    a.time.None? || b.time.None? || a.time.value >= b.time.value
  }

  lemma NewerFirstTotal()
    ensures Total(NewerFirst)
  {
  }

  /** The fetched deposits in display order. */
  function Newest(data: seq<Deposit>): seq<Deposit> {
    SortWith(data, NewerFirst)
  }

  /** The sorted list holds the fetched deposits, each dated one no older than the dated one after it. */
  lemma SortedNewestFirst(data: seq<Deposit>)
    ensures multiset(Newest(data)) == multiset(data)
    ensures forall i :: 0 <= i < |Newest(data)| - 1 ==>
      (Newest(data)[i].time.Some? && Newest(data)[i + 1].time.Some? ==>
         Newest(data)[i].time.value >= Newest(data)[i + 1].time.value)
  {
    NewerFirstTotal();
    SortWithSorted(data, NewerFirst);
  }

  // ---------------------------------------------------------------- search

  /** The username criterion, trimmed and lowercased; a blank one asks for nothing. */
  predicate NameMatches(d: Deposit, q: Search) {
    var u := Lower(Trim(q.username));
    u == "" || Contains(Lower(d.username), u)
  }

  /** The status criterion, trimmed and lowercased, against the lowercased status. */
  predicate StatusMatches(d: Deposit, q: Search) {
    var s := Lower(Trim(q.transactionStatus));
    s == "" || Lower(d.status) == s
  }

  predicate Matches(d: Deposit, q: Search) {
    NameMatches(d, q) && StatusMatches(d, q) && InRange(d.time, q.startDate, q.endDate)
  }

  function Matcher(q: Search): Deposit -> bool {
    d => Matches(d, q)
  }

  /** `handleSearch`'s result. */
  function SearchResult(data: seq<Deposit>, q: Search): seq<Deposit> {
    Filter(data, Matcher(q))
  }

  /** A deposit is found exactly when it is in the list and passes all three criteria. */
  lemma SearchFinds(data: seq<Deposit>, q: Search)
    ensures forall d :: d in SearchResult(data, q) <==>
      d in data && NameMatches(d, q) && StatusMatches(d, q) && InRange(d.time, q.startDate, q.endDate)
    ensures multiset(SearchResult(data, q)) <= multiset(data)
  {
  }

  /** The search keeps the list order. */
  lemma SearchKeepsOrder(a: seq<Deposit>, b: seq<Deposit>, q: Search)
    ensures SearchResult(a + b, q) == SearchResult(a, q) + SearchResult(b, q)
  {
    FilterAppend(a, b, Matcher(q));
  }

  /** The case of the criteria does not matter. */
  lemma SearchIgnoresCase(data: seq<Deposit>, q: Search)
    ensures SearchResult(data, q.(username := Lower(q.username), transactionStatus := Lower(q.transactionStatus)))
         == SearchResult(data, q)
  {
    var q' := q.(username := Lower(q.username), transactionStatus := Lower(q.transactionStatus));
    LowerTrim(q.username);
    LowerTrim(q.transactionStatus);
    LowerIdempotent(Trim(q.username));
    LowerIdempotent(Trim(q.transactionStatus));
    assert Lower(Trim(q'.username)) == Lower(Trim(q.username));
    assert Lower(Trim(q'.transactionStatus)) == Lower(Trim(q.transactionStatus));
    forall i | 0 <= i < |data|
      ensures Matcher(q')(data[i]) == Matcher(q)(data[i])
    {
      assert NameMatches(data[i], q') == NameMatches(data[i], q);
      assert StatusMatches(data[i], q') == StatusMatches(data[i], q);
    }
    FilterCongruent(data, Matcher(q'), Matcher(q));
  }

  /** Criteria of white space only, with no dates, find every deposit. */
  lemma BlankSearchFindsAll(data: seq<Deposit>, q: Search)
    requires IsBlank(q.username) && IsBlank(q.transactionStatus) && q.startDate.Unset? && q.endDate.Unset?
    ensures SearchResult(data, q) == data
  {
    FilterAllPass(data, Matcher(q));
  }

  // ---------------------------------------------------------------- formatting

  /**
   * `formatDate`: the local date and time of a moment as `YYYY-MM-DD HH:MM:SS`; an
   * unreadable date prints NaN in every place.
   */
  function FormatDate(local: Option<DateTime>): (r: string)
    ensures local.Some? && ValidDateTime(local.value) ==> |r| == 19 && ParseDateTime(r) == local
  {
    match local
    case None => "NaN-NaN-NaN NaN:NaN:NaN"
    case Some(d) =>
      if ValidDateTime(d) then FormatDateTimeRoundTrip(d); FormatDateTime(d)
      else FormatDateTime(d)
  }

  // ---------------------------------------------------------------- page window

  /** Which page numbers the pager keeps. */
  function Keep(current: int, total: nat): int -> bool {
    p =>
      if total <= 7 then true
      else if current <= 4 then p <= 5 || p == total
      else if current >= total - 3 then p >= total - 4 || p == 1
      else p == 1 || p == total || (current - 1 <= p && p <= current + 1)
  }

  /** The page numbers shown. */
  function Window(current: int, total: nat): seq<int> {
    Filter(PageRange(total), Keep(current, total))
  }

  /**
   * The window lists pages of 1..total in increasing order: all of them when there are
   * at most 7, else at most 6 that always include the first, the last and the current page.
   */
  lemma WindowShape(current: int, total: nat)
    ensures Increasing(Window(current, total))
    ensures forall i :: 0 <= i < |Window(current, total)| ==> 1 <= Window(current, total)[i] <= total
    ensures total <= 7 ==> Window(current, total) == PageRange(total)
    ensures total > 7 ==> |Window(current, total)| <= 6
    ensures 1 <= current <= total ==>
      1 in Window(current, total) && total in Window(current, total) && current in Window(current, total)
  {
    var keep := Keep(current, total);
    PagesKept(total, keep);
    if total <= 7 {
      FilterAllPass(PageRange(total), keep);
    } else {
      WindowLength(current, total);
    }
  }

  lemma WindowLength(current: int, total: nat)
    requires total > 7
    ensures |Window(current, total)| <= 6
  {
    var keep := Keep(current, total);
    KeptUpToIsFilter(total, keep);
    if current <= 4 {
      EarlyWindowLength(current, total);
    } else if current >= total - 3 {
      LateWindowLength(current, total);
    } else {
      MiddleWindowLength(current, total);
    }
  }

  /** Near the start: pages 1..5 and the last. */
  lemma EarlyWindowLength(current: int, total: nat)
    requires total > 7 && current <= 4
    ensures |KeptUpTo(total, Keep(current, total))| <= 6
  {
    var keep := Keep(current, total);
    assert forall p :: 5 < p <= total - 1 ==> !keep(p);
    KeptGrowth(0, 5, keep);
    KeptGrowth(5, total - 1, keep);
    KeptGrowth(total - 1, total, keep);
  }

  /** Near the end: page 1 and the last five. */
  lemma LateWindowLength(current: int, total: nat)
    requires total > 7 && 4 < current && current >= total - 3
    ensures |KeptUpTo(total, Keep(current, total))| <= 6
  {
    var keep := Keep(current, total);
    assert forall p :: 1 < p <= total - 5 ==> !keep(p);
    KeptGrowth(0, 1, keep);
    KeptGrowth(1, total - 5, keep);
    KeptGrowth(total - 5, total, keep);
  }

  /** In between: page 1, the current page with its neighbours, and the last. */
  lemma MiddleWindowLength(current: int, total: nat)
    requires total > 7 && 4 < current < total - 3
    ensures |KeptUpTo(total, Keep(current, total))| <= 5
  {
    var keep := Keep(current, total);
    assert forall p :: 1 < p <= current - 2 ==> !keep(p);
    assert forall p :: current + 1 < p <= total - 1 ==> !keep(p);
    KeptGrowth(0, 1, keep);
    KeptGrowth(1, current - 2, keep);
    KeptGrowth(current - 2, current + 1, keep);
    KeptGrowth(current + 1, total - 1, keep);
    KeptGrowth(total - 1, total, keep);
  }

  /** Each page with an ellipsis in front when it skips pages after the one before it (`prev && page - prev > 1`). */
  function WithDots(arr: seq<int>): seq<Button> {
    if arr == [] then []
    else
      var init := arr[..|arr| - 1];
      var last := arr[|arr| - 1];
      WithDots(init)
      + (if |init| > 0 && init[|init| - 1] != 0 && last - init[|init| - 1] > 1 then [Dots] else [])
      + [PageButton(last)]
  }

  /** The ellipsis `WithDots` puts in front of the last page. */
  function Gap(arr: seq<int>): seq<Button>
    requires arr != []
  {
    var init := arr[..|arr| - 1];
    var last := arr[|arr| - 1];
    if |init| > 0 && init[|init| - 1] != 0 && last - init[|init| - 1] > 1 then [Dots] else []
  }

  lemma WithDotsSplit(arr: seq<int>)
    requires arr != []
    ensures WithDots(arr) == WithDots(arr[..|arr| - 1]) + Gap(arr) + [PageButton(arr[|arr| - 1])]
  {
  }

  /** One step of `WithDots` adds the new page to the numbers shown, and nothing else. */
  lemma NumbersOfStep(a: seq<Button>, g: seq<Button>, last: int)
    requires g == [] || g == [Dots]
    ensures Numbers(a + g + [PageButton(last)]) == Numbers(a) + [last]
  {
    assert Numbers(g) == [] by {
      if g != [] {
        assert g[1..] == [];
      }
    }
    assert Numbers([PageButton(last)]) == [last];
    NumbersAppend(a + g, [PageButton(last)]);
    NumbersAppend(a, g);
  }

  /** The rendered row shows exactly the pages, in order, and ends with the last one. */
  lemma {:induction false} DotsKeepPages(arr: seq<int>)
    ensures Numbers(WithDots(arr)) == arr
    ensures arr != [] ==> |WithDots(arr)| > 0 && WithDots(arr)[|WithDots(arr)| - 1] == PageButton(arr[|arr| - 1])
    decreases |arr|
  {
    if arr != [] {
      var init, last := arr[..|arr| - 1], arr[|arr| - 1];
      DotsKeepPages(init);
      WithDotsSplit(arr);
      NumbersOfStep(WithDots(init), Gap(arr), last);
      assert init + [last] == arr;
    }
  }

  /** Every ellipsis sits between two pages more than 1 apart. */
  lemma {:induction false} DotsOnlyAtGaps(arr: seq<int>)
    ensures forall k :: 0 <= k < |WithDots(arr)| && WithDots(arr)[k] == Dots ==>
      0 < k < |WithDots(arr)| - 1 && WithDots(arr)[k - 1].PageButton? && WithDots(arr)[k + 1].PageButton?
      && WithDots(arr)[k + 1].n - WithDots(arr)[k - 1].n > 1
    decreases |arr|
  {
    if arr != [] {
      var init := arr[..|arr| - 1];
      var head := WithDots(init);
      var r := WithDots(arr);
      DotsOnlyAtGaps(init);
      DotsKeepPages(init);
      WithDotsSplit(arr);
      forall k | 0 <= k < |r| && r[k] == Dots
        ensures 0 < k < |r| - 1 && r[k - 1].PageButton? && r[k + 1].PageButton? && r[k + 1].n - r[k - 1].n > 1
      {
        if k < |head| {
          assert r[k] == head[k];
          assert r[k + 1] == head[k + 1] && r[k - 1] == head[k - 1];
        } else {
          assert k == |head| && Gap(arr) == [Dots];
          assert r[k - 1] == head[|head| - 1];
        }
      }
    }
  }

  /** Two pages side by side, with no ellipsis between them, are consecutive or out of order. */
  lemma {:induction false} NoDotsNoGap(arr: seq<int>)
    requires forall i :: 0 <= i < |arr| ==> arr[i] >= 1
    ensures forall k :: 0 <= k < |WithDots(arr)| - 1 ==>
      (WithDots(arr)[k].PageButton? && WithDots(arr)[k + 1].PageButton? ==> WithDots(arr)[k + 1].n - WithDots(arr)[k].n <= 1)
    decreases |arr|
  {
    if arr != [] {
      var init := arr[..|arr| - 1];
      var head := WithDots(init);
      var r := WithDots(arr);
      assert forall i :: 0 <= i < |init| ==> init[i] == arr[i];
      NoDotsNoGap(init);
      DotsKeepPages(init);
      WithDotsSplit(arr);
      forall k | 0 <= k < |r| - 1 && r[k].PageButton? && r[k + 1].PageButton?
        ensures r[k + 1].n - r[k].n <= 1
      {
        if k + 1 < |head| {
          assert r[k] == head[k] && r[k + 1] == head[k + 1];
        } else {
          assert k + 1 == |head| && Gap(arr) == [];
          assert r[k] == head[|head| - 1];
        }
      }
    }
  }

  /**
   * For pages numbered from 1 the rendered row shows exactly those pages in order, and
   * has an ellipsis exactly between two neighbours more than 1 apart.
   */
  lemma DotsMarkGaps(arr: seq<int>)
    requires forall i :: 0 <= i < |arr| ==> arr[i] >= 1
    ensures Numbers(WithDots(arr)) == arr
    ensures forall k :: 0 <= k < |WithDots(arr)| && WithDots(arr)[k] == Dots ==>
      0 < k < |WithDots(arr)| - 1 && WithDots(arr)[k - 1].PageButton? && WithDots(arr)[k + 1].PageButton?
      && WithDots(arr)[k + 1].n - WithDots(arr)[k - 1].n > 1
    ensures forall k :: 0 <= k < |WithDots(arr)| - 1 ==>
      (WithDots(arr)[k].PageButton? && WithDots(arr)[k + 1].PageButton? ==> WithDots(arr)[k + 1].n - WithDots(arr)[k].n <= 1)
  {
    DotsKeepPages(arr);
    DotsOnlyAtGaps(arr);
    NoDotsNoGap(arr);
  }

  // ---------------------------------------------------------------- the page

  class DepositPage {
    var data: seq<Deposit>
    var filteredData: seq<Deposit>
    var search: Search
    var currentPage: int
    var loading: bool

    constructor()
      ensures data == [] && filteredData == [] && search == NoSearch && currentPage == 1 && loading
    {
      data := [];
      filteredData := [];
      search := NoSearch;
      currentPage := 1;
      loading := true;
    }

    /** `Math.ceil(filteredData.length / 25)`. */
    function TotalPages(): nat
      reads this
    {
      CeilDiv(|filteredData|, RecordsPerPage)
    }

    /** The rows of the current page. */
    function PageRows(): seq<Deposit>
      reads this
    {
      Page(filteredData, currentPage, RecordsPerPage)
    }

    /** The pager, rendered only when there is more than one page. */
    function Pager(): Option<seq<Button>>
      reads this
    {
      if TotalPages() > 1 then Some(WithDots(Window(currentPage, TotalPages()))) else None
    }

    /** The fetch: sorted deposits in both lists; a failed fetch only ends the spinner. */
    method Load(fetched: Option<seq<Deposit>>)
      modifies this`data, this`filteredData, this`loading
      ensures fetched.Some? ==> data == Newest(fetched.value) && filteredData == data
      ensures fetched.None? ==> data == old(data) && filteredData == old(filteredData)
      ensures !loading
    {
      if fetched.Some? {
        data := Newest(fetched.value);
        filteredData := data;
      }
      loading := false;
    }

    /** `handleChange`. */
    method Edit(q: Search)
      modifies this`search
      ensures search == q
    {
      search := q;
    }

    /** `handleSearch`: the matching deposits of the whole list, from page 1. */
    method DoSearch()
      modifies this`filteredData, this`currentPage
      ensures filteredData == SearchResult(data, search) && currentPage == 1
    {
      filteredData := SearchResult(data, search);
      currentPage := 1;
    }

    /** `handleReset`. */
    method Reset()
      modifies this`search, this`filteredData, this`currentPage
      ensures search == NoSearch && filteredData == data && currentPage == 1
    {
      search := NoSearch;
      filteredData := data;
      currentPage := 1;
    }

    /** The Prev button. */
    method Prev()
      modifies this`currentPage
      ensures currentPage == PrevPage(old(currentPage))
    {
      currentPage := PrevPage(currentPage);
    }

    /** The Next button. */
    method Next()
      modifies this`currentPage
      ensures currentPage == NextPage(old(currentPage), TotalPages())
    {
      currentPage := NextPage(currentPage, TotalPages());
    }

    /** A page button. */
    method GoTo(page: int)
      modifies this`currentPage
      ensures currentPage == page
    {
      currentPage := page;
    }
  }
}
