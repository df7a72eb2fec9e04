/**
 * The wallet address record: the bound USDT wallets, latest first, hidden until a
 * search by id and account, 25 to a page, with a delete that clears the row from the
 * search result.
 */
module UsdtAddress {
  import opened Wrappers
  import opened Text
  import opened Collections
  import opened Paging
  import opened Effects

  /** A bound wallet; only the fields the page reads are modelled. */
  datatype Wallet = Wallet(id: string, username: string)

  datatype View = View(data: seq<Wallet>, filteredData: seq<Wallet>, searchId: string, searchAccount: string, currentPage: int)

  const Initial := View([], [], "", "", 1)

  const PageSize: nat := 25

  /** The fetch: the wallets in reverse order, and nothing shown until a search. */
  function Load(v: View, fetched: Option<seq<Wallet>>): (r: View)
    ensures fetched.Some? ==> r.data == Reverse(fetched.value) && r.filteredData == []
    ensures fetched.None? ==> r == v
  {
    if fetched.Some? then v.(data := Reverse(fetched.value), filteredData := []) else v
  }

  /** The loaded list is the fetched one back to front. */
  lemma LoadedReversed(v: View, fetched: seq<Wallet>)
    ensures |Load(v, Some(fetched)).data| == |fetched|
    ensures forall i :: 0 <= i < |fetched| ==> Load(v, Some(fetched)).data[i] == fetched[|fetched| - 1 - i]
  {
  }

  predicate Matches(w: Wallet, searchId: string, searchAccount: string) {
    (searchId == "" || Contains(w.id, searchId))
    && (searchAccount == "" || ContainsCI(w.username, searchAccount))
  }

  function Matcher(searchId: string, searchAccount: string): Wallet -> bool {
    w => Matches(w, searchId, searchAccount)
  }

  function Edit(v: View, searchId: string, searchAccount: string): (r: View)
    ensures r.searchId == searchId && r.searchAccount == searchAccount
    ensures r.data == v.data && r.filteredData == v.filteredData && r.currentPage == v.currentPage
  {
    v.(searchId := searchId, searchAccount := searchAccount)
  }

  /** `handleSearch`: the matching wallets, from page 1. */
  function Search(v: View): View {
    v.(filteredData := Filter(v.data, Matcher(v.searchId, v.searchAccount)), currentPage := 1)
  }

  /** Search shows exactly the matching wallets, in list order, from page 1. */
  lemma SearchFinds(v: View)
    ensures forall w :: w in Search(v).filteredData <==> w in v.data && Matches(w, v.searchId, v.searchAccount)
    ensures Search(v).currentPage == 1 && Search(v).data == v.data
  {
  }

  /** An empty form finds every wallet. */
  lemma EmptySearchFindsAll(v: View)
    requires v.searchId == "" && v.searchAccount == ""
    ensures Search(v).filteredData == v.data
  {
    FilterAllPass(v.data, Matcher("", ""));
  }

  function Other(id: string): Wallet -> bool {
    (w: Wallet) => w.id != id
  }

  /**
   * `handleDelete`: once the server answers, the wallet leaves the shown list; the loaded
   * list keeps it. A failed request changes nothing.
   */
  function Delete(v: View, id: string, reply: Reply): View {
    if reply.Answered? then v.(filteredData := Filter(v.filteredData, Other(id))) else v
  }

  /** Only wallets with that id leave, only the shown list changes, and a failure changes nothing. */
  lemma DeleteOnlyShown(v: View, id: string, reply: Reply)
    ensures Delete(v, id, reply).data == v.data
    ensures reply.Answered? ==> forall w :: w in Delete(v, id, reply).filteredData <==> w in v.filteredData && w.id != id
    ensures reply.Raised? ==> Delete(v, id, reply) == v
  {
  }

  function PaginatedData(v: View): seq<Wallet> {
    Page(v.filteredData, v.currentPage, PageSize)
  }

  function TotalPages(v: View): nat {
    CeilDiv(|v.filteredData|, PageSize)
  }

  /** A page holds at most 25 wallets, those after the earlier pages; row `idx` is numbered by its position. */
  lemma PageShape(v: View, idx: nat)
    requires v.currentPage >= 1 && idx < |PaginatedData(v)|
    ensures |PaginatedData(v)| <= PageSize
    ensures PaginatedData(v)[idx] == v.filteredData[Serial(v.currentPage, PageSize, idx) - 1]
  {
    PageContents(v.filteredData, v.currentPage, PageSize);
    SerialIsPosition(v.filteredData, v.currentPage, PageSize, idx);
  }

  /** The Previous button. */
  function Prev(v: View): (r: View)
    ensures r.currentPage == PrevPage(v.currentPage) && r.filteredData == v.filteredData
  {
    v.(currentPage := PrevPage(v.currentPage))
  }

  /** The Next button. */
  function Next(v: View): (r: View)
    ensures r.currentPage == NextPage(v.currentPage, TotalPages(v)) && r.filteredData == v.filteredData
  {
    v.(currentPage := NextPage(v.currentPage, TotalPages(v)))
  }
}
