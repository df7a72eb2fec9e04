/**
 * The withdraw record page: fetched withdrawals numbered and sorted newest first, a
 * five-field search with whole-day date bounds, an adjustable page size, and the status
 * actions (hold, approve, cancel with a refund) that rewrite the matching row.
 */
module WithdrawRecord {
  import opened Wrappers
  import opened Text
  import opened Collections
  import opened Paging
  import opened Clock

  // ---------------------------------------------------------------- dates

  /**
   * `parseDateStr`: the text handed to `new Date`, or None (null) for an empty input.
   * A text with a comma is read as `DD/MM/YYYY, HH:mm:ss` and rearranged; a missing part
   * prints as "undefined".
   */
  function ParseDateStr(s: string): Option<string> {
    if s == "" then None
    else if Contains(s, ",") then
      var halves := Split(s, ", ");
      var date := Split(PartOr(halves, 0), "/");
      Some(PartOr(date, 2) + "-" + PartOr(date, 1) + "-" + PartOr(date, 0) + "T" + PartOr(halves, 1))
    else Some(s)
  }

  lemma HasComma(a: string, b: string)
    ensures Contains(a + ", " + b, ",")
  {
    var s := a + ", " + b;
    assert s[|a|..|a| + 1] == ",";
    assert OccursAt(s, ",", |a|);
    ContainsIffOccurs(s, ",");
  }

  lemma Halves(date: string, time: string)
    requires NoChar(date, ',') && NoChar(time, ',')
    ensures Split(date + ", " + time, ", ") == [date, time]
  {
    SplitAfterFirst(date, ", ", time);
    SplitWithoutSeparator(time, ", ");
  }

  lemma DateParts(day: string, month: string, year: string)
    requires NoChar(day, '/') && NoChar(month, '/') && NoChar(year, '/')
    ensures Split(day + "/" + month + "/" + year, "/") == [day, month, year]
  {
    SplitAfterFirst(month, "/", year);
    SplitWithoutSeparator(year, "/");
    assert day + "/" + month + "/" + year == day + "/" + (month + "/" + year);
    SplitAfterFirst(day, "/", month + "/" + year);
  }

  lemma NoCommaInDate(day: string, month: string, year: string)
    requires NoChar(day, ',') && NoChar(month, ',') && NoChar(year, ',')
    ensures NoChar(day + "/" + month + "/" + year, ',')
  {
  }

  /** `DD/MM/YYYY, HH:mm:ss` becomes `YYYY-MM-DDTHH:mm:ss`. */
  lemma ParseDateStrRearranges(day: string, month: string, year: string, time: string)
    requires NoChar(day, '/') && NoChar(month, '/') && NoChar(year, '/')
    requires NoChar(day, ',') && NoChar(month, ',') && NoChar(year, ',') && NoChar(time, ',')
    ensures ParseDateStr(day + "/" + month + "/" + year + ", " + time) == Some(year + "-" + month + "-" + day + "T" + time)
  {
    var date := day + "/" + month + "/" + year;
    HasComma(date, time);
    NoCommaInDate(day, month, year);
    Halves(date, time);
    DateParts(day, month, year);
  }

  /** An empty input has no date; any other one is handed on. */
  lemma ParseDateStrNull(s: string)
    ensures ParseDateStr(s).None? <==> s == ""
    ensures s != "" && !Contains(s, ",") ==> ParseDateStr(s) == Some(s)
  {
  }

  /**
   * What `parsedSubmissionTime` holds: null, a date, or a date object `new Date` could
   * not read (`read` is how `new Date` reads a text, None for an invalid date).
   */
  datatype When = Null | Moment(t: int) | InvalidDate

  function Parsed(s: string, read: string -> Option<int>): (r: When)
    ensures r.Null? <==> s == ""
  {
    match ParseDateStr(s)
    case None => Null
    case Some(text) => match read(text) case None => InvalidDate case Some(t) => Moment(t)
  }

  /** The moment a filter compares against: null and an invalid date both fail every comparison. */
  function FilterTime(w: When): Option<int> {
    if w.Moment? then Some(w.t) else None
  }

  /** The number `b - a` uses: null counts as 0, an invalid date as NaN (None). */
  function SortKey(w: When): Option<int> {
    match w
    case Null => Some(0)
    case Moment(t) => Some(t)
    case InvalidDate => None
  }

  /** `formatDate`: '-' for no text, a text with '/' as it is, else the locale form of a readable date. */
  function FormatDate(s: string, locale: string -> Option<string>): (r: string)
    ensures s == "" ==> r == "-"
    ensures s != "" && Contains(s, "/") ==> r == s
    ensures s != "" && !Contains(s, "/") ==> r == (if locale(s).None? then "-" else locale(s).value)
  {
    if s == "" then "-"
    else if Contains(s, "/") then s
    else match locale(s) case None => "-" case Some(t) => t
  }

  /**
   * A time in the custom "DD/MM/YYYY, time" form is shown as it is, whatever the locale
   * would make of it: it holds the '/' after the day.
   */
  lemma CustomFormatShownAsIs(day: string, month: string, year: string, time: string,
                              locale: string -> Option<string>)
    ensures var s := day + "/" + month + "/" + year + ", " + time;
      FormatDate(s, locale) == s
  {
    var s := day + "/" + month + "/" + year + ", " + time;
    assert s[|day|..|day| + 1] == "/";
    assert OccursAt(s, "/", |day|);
    ContainsIffOccurs(s, "/");
  }

  // ---------------------------------------------------------------- rows

  /** A withdrawal as fetched. `kind` is "" when the record has no type. */
  datatype Raw = Raw(id: string, username: string, phone: string, email: string, kind: string,
                     amount: real, submissionTime: string, auditTime: string, wallet: string,
                     status: string, operator: string)

  /** A row of the table. */
  datatype Row = Row(id: string, memberId: int, account: string, phone: string, email: string,
                     kind: string, cashWithdraw: real, paymentAmount: real, handlingFee: real,
                     submissionTime: string, parsed: When, auditTime: string, wallet: string,
                     status: string, operator: string)

  /** The row for the record at `index` of `n`. */
  function ToRow(item: Raw, index: nat, n: nat, read: string -> Option<int>): Row {
    Row(item.id, n - index, item.username, item.phone, item.email,
        if item.kind == "" then "TRX" else item.kind,
        item.amount, item.amount, item.amount * 0.05,
        item.submissionTime, Parsed(item.submissionTime, read), item.auditTime, item.wallet,
        Lower(item.status), if item.operator == "None" then "-" else item.operator)
  }

  /** `data.map(...)` before the sort. */
  function Mapped(data: seq<Raw>, read: string -> Option<int>): (r: seq<Row>)
    ensures |r| == |data|
  {
    seq(|data|, i requires 0 <= i < |data| => ToRow(data[i], i, |data|, read))
  }

  /**
   * The rows are numbered n down to 1 (so no two share a member id), charge a 5% fee,
   * carry the lowercased status and show '-' for the operator 'None'.
   */
  lemma MappedRows(data: seq<Raw>, read: string -> Option<int>)
    ensures forall i :: 0 <= i < |data| ==> Mapped(data, read)[i].memberId == |data| - i
    ensures forall i, j :: 0 <= i < j < |data| ==> Mapped(data, read)[i].memberId != Mapped(data, read)[j].memberId
    ensures forall i :: 0 <= i < |data| ==> 1 <= Mapped(data, read)[i].memberId <= |data|
    ensures forall i :: 0 <= i < |data| ==>
      Mapped(data, read)[i].handlingFee * 20.0 == data[i].amount
      && Mapped(data, read)[i].status == Lower(data[i].status)
      && (Mapped(data, read)[i].operator == "-" <==> data[i].operator == "None" || data[i].operator == "-")
  {
  }

  /** `b.parsedSubmissionTime - a.parsedSubmissionTime`: newer first, NaN a tie. */
  predicate NewerFirst(a: Row, b: Row) {
    SortKey(a.parsed).None? || SortKey(b.parsed).None? || SortKey(a.parsed).value >= SortKey(b.parsed).value
  }

  /** The rows fetched, in display order. */
  function Loaded(data: seq<Raw>, read: string -> Option<int>): seq<Row> {
    SortWith(Mapped(data, read), NewerFirst)
  }

  /** Loading keeps every mapped row and orders comparable neighbours newest first. */
  lemma LoadedOrder(data: seq<Raw>, read: string -> Option<int>)
    ensures multiset(Loaded(data, read)) == multiset(Mapped(data, read))
    ensures forall i :: 0 <= i < |Loaded(data, read)| - 1 ==> NewerFirst(Loaded(data, read)[i], Loaded(data, read)[i + 1])
  {
    assert Total(NewerFirst);
    SortWithSorted(Mapped(data, read), NewerFirst);
  }

  // ---------------------------------------------------------------- search

  /** The filter form; the date inputs are read by `new Date` into `Bound`s. */
  datatype Filters = Filters(memberId: string, account: string, status: string, startDate: Bound, endDate: Bound)

  const NoFilters := Filters("", "", "", Unset, Unset)

  /** `setHours(0, 0, 0, 0)` on the start date. */
  function StartOfDay(b: Bound): Bound {
    if b.At? then At(DayStart(b.t)) else b
  }

  /** `setHours(23, 59, 59, 999)` on the end date. */
  function EndOfDay(b: Bound): Bound {
    if b.At? then At(DayEnd(b.t)) else b
  }

  predicate Matches(r: Row, f: Filters) {
    (f.memberId == "" || Contains(IntToString(r.memberId), f.memberId))
    && (f.account == "" || ContainsCI(r.account, f.account))
    && (f.status == "" || r.status == f.status)
    && InRange(FilterTime(r.parsed), StartOfDay(f.startDate), EndOfDay(f.endDate))
  }

  function Matcher(f: Filters): Row -> bool {
    r => Matches(r, f)
  }

  function SearchResult(rows: seq<Row>, f: Filters): seq<Row> {
    Filter(rows, Matcher(f))
  }

  /**
   * A row is found exactly when every filled-in filter holds; with a date filter a row
   * needs a readable date, and then every moment of the chosen days passes.
   */
  lemma SearchFinds(rows: seq<Row>, f: Filters)
    ensures forall r :: r in SearchResult(rows, f) <==> r in rows && Matches(r, f)
    ensures forall r :: r in SearchResult(rows, f) && !(f.startDate.Unset? && f.endDate.Unset?) ==> r.parsed.Moment?
    ensures forall r :: r in rows && f.startDate.At? && f.endDate.At? ==>
      (r.parsed.Moment? && DayStart(f.startDate.t) <= r.parsed.t <= DayEnd(f.endDate.t)
       && (f.memberId == "" || Contains(IntToString(r.memberId), f.memberId))
       && (f.account == "" || ContainsCI(r.account, f.account))
       && (f.status == "" || r.status == f.status)
       ==> r in SearchResult(rows, f))
  {
  }

  lemma SearchKeepsOrder(a: seq<Row>, b: seq<Row>, f: Filters)
    ensures SearchResult(a + b, f) == SearchResult(a, f) + SearchResult(b, f)
  {
    FilterAppend(a, b, Matcher(f));
  }

  lemma EmptyFiltersFindAll(rows: seq<Row>)
    ensures SearchResult(rows, NoFilters) == rows
  {
    FilterAllPass(rows, Matcher(NoFilters));
  }

  // ---------------------------------------------------------------- status actions

  /** The balances of the member behind a withdrawal. */
  datatype Balances = Balances(totalBal: real, totalDeposit: real, totalWithdraw: real)

  /** A request `handleStatusUpdate` sends. */
  datatype Request =
    | BalanceUpdate(user: string, balances: Balances)
    | StatusPatch(id: string, status: string, operator: string, auditTime: string)

  /** The member the balance request addresses: the email, or the phone when there is none. */
  function UserKey(r: Row): string {
    if r.email != "" then r.email else r.phone
  }

  /** The refund a cancel sends back: the amount returns to the balance and leaves the withdrawn total. */
  function Refund(b: Balances, amount: real): Balances {
    Balances(b.totalBal + amount, b.totalDeposit, b.totalWithdraw - amount)
  }

  /** The requests, in order, after the member's balances have been fetched. */
  function StatusRequests(r: Row, newStatus: string, user: Balances, operator: string, timestamp: string): seq<Request> {
    if newStatus == "hold" then [StatusPatch(r.id, "Hold", operator, timestamp)]
    else if newStatus == "approve" then [StatusPatch(r.id, "Approved", operator, timestamp)]
    else if newStatus == "cancel" then
      [BalanceUpdate(UserKey(r), Refund(user, r.cashWithdraw)), StatusPatch(r.id, "Rejected", operator, timestamp)]
    else []
  }

  /**
   * Hold and approve send only the status; cancel first refunds (the balance plus the
   * withdrawn total is kept, the deposit total is untouched), then sends Rejected.
   */
  lemma StatusRequestsShape(r: Row, newStatus: string, user: Balances, operator: string, timestamp: string)
    ensures var reqs := StatusRequests(r, newStatus, user, operator, timestamp);
      && (newStatus == "hold" || newStatus == "approve" ==> |reqs| == 1 && reqs[0].StatusPatch? && reqs[0].id == r.id)
      && (newStatus == "cancel" ==>
            |reqs| == 2 && reqs[0].BalanceUpdate? && reqs[1] == StatusPatch(r.id, "Rejected", operator, timestamp)
            && reqs[0].balances.totalBal == user.totalBal + r.cashWithdraw
            && reqs[0].balances.totalBal + reqs[0].balances.totalWithdraw == user.totalBal + user.totalWithdraw
            && reqs[0].balances.totalDeposit == user.totalDeposit)
  {
  }

  /** One of `n` requests sent in turn rejects: `failsAt` is the position of the first that does. */
  predicate RejectsWithin(n: nat, failsAt: Option<nat>) {
    failsAt.Some? && failsAt.value < n
  }

  /** A status update completes when the member's balances arrive and none of the status requests rejects. */
  predicate StatusCompletes(r: Row, newStatus: string, user: Option<Balances>, operator: string, timestamp: string, failsAt: Option<nat>) {
    user.Some? && !RejectsWithin(|StatusRequests(r, newStatus, user.value, operator, timestamp)|, failsAt)
  }

  /** The toast after a status update. */
  function StatusMessage(newStatus: string, completed: bool): (m: string)
    ensures completed ==> m == "Status updated to " + newStatus
    ensures !completed ==> m == "Error updating status."
  {
    if completed then "Status updated to " + newStatus else "Error updating status."
  }

  /**
   * A rejection at the first request of a cancel sends the refund and stops there, so the
   * withdrawal is never marked Rejected; hold and approve complete when their one PATCH does.
   */
  lemma RefundWithoutRejection(r: Row, user: Balances, operator: string, timestamp: string)
    ensures var reqs := StatusRequests(r, "cancel", user, operator, timestamp);
      RejectsWithin(|reqs|, Some(0)) && reqs[..1] == [BalanceUpdate(UserKey(r), Refund(user, r.cashWithdraw))]
    ensures StatusCompletes(r, "hold", Some(user), operator, timestamp, Some(1))
    ensures !StatusCompletes(r, "approve", None, operator, timestamp, None)
  {
  }

  /** Rows with the id take the new status; every other row is kept. */
  function SetStatus(rows: seq<Row>, id: string, status: string): (r: seq<Row>)
    ensures |r| == |rows|
  {
    seq(|rows|, i requires 0 <= i < |rows| => if rows[i].id == id then rows[i].(status := status) else rows[i])
  }

  /** Only the rows with the id change, and only in their status. */
  lemma SetStatusOnlyThatRow(rows: seq<Row>, id: string, status: string)
    ensures forall i :: 0 <= i < |rows| && rows[i].id != id ==> SetStatus(rows, id, status)[i] == rows[i]
    ensures forall i :: 0 <= i < |rows| && rows[i].id == id ==>
      SetStatus(rows, id, status)[i].status == status && SetStatus(rows, id, status)[i].(status := rows[i].status) == rows[i]
  {
  }

  /** The status button is disabled for a row loaded as approved or rejected. */
  predicate ButtonDisabled(r: Row) {
    r.status == "approved" || r.status == "rejected"
  }

  /** The list of actions shows for the open row unless its status is approve or cancel. */
  predicate ActionsShown(r: Row, open: Option<string>) {
    open == Some(r.id) && r.status != "approve" && r.status != "cancel"
  }

  /**
   * Loaded rows are `approved`/`rejected`, updated ones `approve`/`cancel`: a row just
   * approved or cancelled keeps an enabled button but never shows its actions again, and a
   * row loaded as approved or rejected is disabled (the pairs of names never meet).
   */
  lemma GatingNames(rows: seq<Row>, id: string, newStatus: string, i: int, open: Option<string>)
    requires 0 <= i < |rows| && rows[i].id == id && (newStatus == "approve" || newStatus == "cancel")
    ensures !ButtonDisabled(SetStatus(rows, id, newStatus)[i])
    ensures !ActionsShown(SetStatus(rows, id, newStatus)[i], open)
  {
  }

  // ---------------------------------------------------------------- the page

  class WithdrawPage {
    var originalData: seq<Row>
    var filteredData: seq<Row>
    var filters: Filters
    var currentPage: int
    var itemsPerPage: nat
    var activeDropdownId: Option<string>
    var error: Option<string>
    var loading: bool

    constructor()
      ensures originalData == [] && filteredData == [] && filters == NoFilters && currentPage == 1
      ensures itemsPerPage == 25 && activeDropdownId == None && error == None && !loading
    {
      originalData := [];
      filteredData := [];
      filters := NoFilters;
      currentPage := 1;
      itemsPerPage := 25;
      activeDropdownId := None;
      error := None;
      loading := false;
    }

    predicate Valid()
      reads this
    {
      itemsPerPage > 0
    }

    /** `Math.ceil(filteredData.length / itemsPerPage)`. */
    function TotalPages(): nat
      requires Valid()
      reads this
    {
      CeilDiv(|filteredData|, itemsPerPage)
    }

    function PageRows(): seq<Row>
      reads this
    {
      Page(filteredData, currentPage, itemsPerPage)
    }

    /** Every page number is a button, shown only when there is more than one page. */
    function Pager(): Option<seq<int>>
      requires Valid()
      reads this
    {
      if TotalPages() > 1 then Some(PageRange(TotalPages())) else None
    }

    /** `fetchData` (also the Reload button): a failed fetch sets the error message and keeps the lists. */
    method Load(fetched: Option<seq<Raw>>, read: string -> Option<int>)
      modifies this`originalData, this`filteredData, this`error, this`loading
      ensures fetched.Some? ==>
        originalData == Loaded(fetched.value, read) && filteredData == originalData && error == old(error)
      ensures fetched.None? ==>
        originalData == old(originalData) && filteredData == old(filteredData)
        && error == Some("Failed to load records. Please try again later.")
      ensures !loading
    {
      loading := true;
      if fetched.Some? {
        originalData := Loaded(fetched.value, read);
        filteredData := originalData;
      } else {
        error := Some("Failed to load records. Please try again later.");
      }
      loading := false;
    }

    /** `handleInputChange` and the status drop-down. */
    method Edit(f: Filters)
      modifies this`filters
      ensures filters == f
    {
      filters := f;
    }

    /** `handleSearch`. */
    method Search()
      modifies this`filteredData, this`currentPage
      ensures filteredData == SearchResult(originalData, filters) && currentPage == 1
    {
      filteredData := SearchResult(originalData, filters);
      currentPage := 1;
    }

    /** `handleReset`. */
    method Reset()
      modifies this`filters, this`filteredData, this`currentPage
      ensures filters == NoFilters && filteredData == originalData && currentPage == 1
    {
      filters := NoFilters;
      filteredData := originalData;
      currentPage := 1;
    }

    /** `handlePageSizeChange`: only a positive integer is taken, and it returns to page 1. */
    method SetPageSize(input: string)
      requires Valid()
      modifies this`itemsPerPage, this`currentPage
      ensures Valid()
      ensures match ParseInt(input)
        case Some(v) => if v > 0 then itemsPerPage == v && currentPage == 1
                        else itemsPerPage == old(itemsPerPage) && currentPage == old(currentPage)
        case None => itemsPerPage == old(itemsPerPage) && currentPage == old(currentPage)
    {
      var v := ParseInt(input);
      if v.Some? && v.value > 0 {
        itemsPerPage := v.value;
        currentPage := 1;
      }
    }

    /**
     * `handleStatusUpdate`. The member's balances are fetched first (`user`, None when that
     * fetch or its JSON read rejects), whatever the new status; then the status requests go
     * out in order, and `failsAt` names the first of them that rejects, if any. A rejection
     * sends nothing after it, changes nothing and shows the error toast; otherwise the row
     * with the id takes the new status in both lists, the action list closes and the success
     * toast names the status.
     */
    method UpdateStatus(item: Row, newStatus: string, user: Option<Balances>, operator: string,
                        timestamp: string, failsAt: Option<nat>)
      returns (sent: seq<Request>, message: string)
      modifies this`originalData, this`filteredData, this`activeDropdownId
      ensures user.None? ==> sent == []
      ensures user.Some? ==>
        var reqs := StatusRequests(item, newStatus, user.value, operator, timestamp);
        sent == if RejectsWithin(|reqs|, failsAt) then reqs[..failsAt.value + 1] else reqs
      ensures var done := StatusCompletes(item, newStatus, user, operator, timestamp, failsAt);
        message == StatusMessage(newStatus, done)
        && (done ==>
              filteredData == SetStatus(old(filteredData), item.id, newStatus)
              && originalData == SetStatus(old(originalData), item.id, newStatus)
              && activeDropdownId == None)
        && (!done ==>
              filteredData == old(filteredData) && originalData == old(originalData)
              && activeDropdownId == old(activeDropdownId))
    {
      if user.None? {
        return [], StatusMessage(newStatus, false);
      }
      var reqs := StatusRequests(item, newStatus, user.value, operator, timestamp);
      if RejectsWithin(|reqs|, failsAt) {
        return reqs[..failsAt.value + 1], StatusMessage(newStatus, false);
      }
      sent, message := reqs, StatusMessage(newStatus, true);
      filteredData := SetStatus(filteredData, item.id, newStatus);
      originalData := SetStatus(originalData, item.id, newStatus);
      activeDropdownId := None;
    }

    /** The status button of a row opens or closes its action list. */
    method ToggleDropdown(id: string)
      modifies this`activeDropdownId
      ensures activeDropdownId == if old(activeDropdownId) == Some(id) then None else Some(id)
    {
      activeDropdownId := if activeDropdownId == Some(id) then None else Some(id);
    }

    method Prev()
      modifies this`currentPage
      ensures currentPage == PrevPage(old(currentPage))
    {
      currentPage := PrevPage(currentPage);
    }

    method Next()
      requires Valid()
      modifies this`currentPage
      ensures currentPage == NextPage(old(currentPage), TotalPages())
    {
      currentPage := NextPage(currentPage, TotalPages());
    }

    method GoTo(page: int)
      modifies this`currentPage
      ensures currentPage == page
    {
      currentPage := page;
    }
  }
}
