/**
 * The task report: orders of members, filtered live by member id, account and user
 * type (all, ordinary or internal), five to a page. The page is for admins only.
 */
module TaskReport {
  import opened Wrappers
  import opened Text
  import opened Collections
  import opened Paging

  datatype Member = Member(id: int, account: string, virtual: bool)

  /** An order of the report; only the fields the filter reads are modelled. */
  datatype Order = Order(id: int, member: Member)

  /** The filter inputs; `userType` is "all", "ordinary" or "internal". */
  datatype Filters = Filters(memberId: string, account: string, userType: string)

  const NoFilters := Filters("", "", "all")

  const PageSize: nat := 5

  datatype View = View(data: seq<Order>, page: int, filters: Filters, loading: bool)

  const Initial := View([], 1, NoFilters, true)

  /** The rows arrive only for an admin; anyone else is sent away and nothing loads. */
  function Load(v: View, isAdmin: bool, rows: seq<Order>): (r: View)
    ensures isAdmin ==> r.data == rows && !r.loading
    ensures !isAdmin ==> r == v
  {
    if isAdmin then v.(data := rows, loading := false) else v
  }

  predicate UserTypeMatches(m: Member, userType: string) {
    userType == "all" || (userType == "ordinary" && !m.virtual) || (userType == "internal" && m.virtual)
  }

  /** The member id's digits contain the id filter, the account contains the account filter ignoring case, and the type holds. */
  predicate Matches(o: Order, f: Filters) {
    (f.memberId == "" || Contains(IntToString(o.member.id), f.memberId))
    && (f.account == "" || ContainsCI(o.member.account, f.account))
    && UserTypeMatches(o.member, f.userType)
  }

  function Matcher(f: Filters): Order -> bool {
    o => Matches(o, f)
  }

  function FilteredData(v: View): seq<Order> {
    Filter(v.data, Matcher(v.filters))
  }

  function PaginatedData(v: View): seq<Order> {
    Page(FilteredData(v), v.page, PageSize)
  }

  function TotalPages(v: View): nat {
    CeilDiv(|FilteredData(v)|, PageSize)
  }

  /** The view holds exactly the orders passing the three conditions, in their order. */
  lemma FilterFinds(v: View)
    ensures forall o :: o in FilteredData(v) <==> o in v.data && Matches(o, v.filters)
  {
  }

  /** "ordinary" shows the real members and "internal" the virtual ones; any other type shows nothing. */
  lemma UserTypes(o: Order, f: Filters)
    ensures f.userType == "ordinary" ==> (UserTypeMatches(o.member, f.userType) <==> !o.member.virtual)
    ensures f.userType == "internal" ==> (UserTypeMatches(o.member, f.userType) <==> o.member.virtual)
    ensures f.userType !in {"all", "ordinary", "internal"} ==> !Matches(o, f)
  {
  }

  /** Ordinary and internal members split the "all" result between them. */
  lemma UserTypesPartition(rows: seq<Order>, f: Filters)
    requires f.userType == "all"
    ensures |Filter(rows, Matcher(f.(userType := "ordinary")))| + |Filter(rows, Matcher(f.(userType := "internal")))|
         == |Filter(rows, Matcher(f))|
    ensures forall o :: o in Filter(rows, Matcher(f)) <==>
      o in Filter(rows, Matcher(f.(userType := "ordinary"))) || o in Filter(rows, Matcher(f.(userType := "internal")))
  {
    var ord := Matcher(f.(userType := "ordinary"));
    var inn := Matcher(f.(userType := "internal"));
    var all := Matcher(f);
    UserTypesCount(rows, f);
    forall o
      ensures o in Filter(rows, all) <==> o in Filter(rows, ord) || o in Filter(rows, inn)
    {
      FilterMember(rows, all, o);
      FilterMember(rows, ord, o);
      FilterMember(rows, inn, o);
    }
  }

  /** The counting half of `UserTypesPartition`, one order at a time. */
  lemma {:induction false} UserTypesCount(rows: seq<Order>, f: Filters)
    requires f.userType == "all"
    ensures |Filter(rows, Matcher(f.(userType := "ordinary")))| + |Filter(rows, Matcher(f.(userType := "internal")))|
         == |Filter(rows, Matcher(f))|
    decreases |rows|
  {
    if rows != [] {
      var ord := Matcher(f.(userType := "ordinary"));
      var inn := Matcher(f.(userType := "internal"));
      var all := Matcher(f);
      var o, rest := rows[0], rows[1..];
      UserTypesCount(rest, f);
      assert all(o) <==> ord(o) || inn(o);
      assert !(ord(o) && inn(o));
      assert |Filter(rows, ord)| == (if ord(o) then 1 else 0) + |Filter(rest, ord)|;
      assert |Filter(rows, inn)| == (if inn(o) then 1 else 0) + |Filter(rest, inn)|;
      assert |Filter(rows, all)| == (if all(o) then 1 else 0) + |Filter(rest, all)|;
    }
  }

  /** A page holds at most five orders, those that follow the earlier pages. */
  lemma PageShape(v: View)
    requires v.page >= 1
    ensures |PaginatedData(v)| <= PageSize
    ensures forall i :: 0 <= i < |PaginatedData(v)| ==>
      PaginatedData(v)[i] == FilteredData(v)[(v.page - 1) * PageSize + i]
  {
    PageContents(FilteredData(v), v.page, PageSize);
  }

  function EditFilters(v: View, f: Filters): (r: View)
    ensures r.filters == f && r.data == v.data && r.page == v.page
  {
    v.(filters := f)
  }

  function GoTo(v: View, page: int): (r: View)
    ensures r.page == page && r.data == v.data && r.filters == v.filters
  {
    v.(page := page)
  }

  /** `handleReset`: id and account empty, type "all"; the page number stays. */
  function Reset(v: View): (r: View)
    ensures r.filters == Filters("", "", "all") && r.page == v.page && r.data == v.data
  {
    v.(filters := NoFilters)
  }

  /** After a reset every order is shown. */
  lemma ResetShowsAll(v: View)
    ensures FilteredData(Reset(v)) == v.data
  {
    FilterAllPass(v.data, Matcher(NoFilters));
  }
}
