/**
 * The national agents list: the member list filtered step by step by user id, account
 * number and agent type whenever the filters or the data change, five to a page.
 */
module NationalAgents {
  import opened Wrappers
  import opened Text
  import opened Collections
  import opened Paging

  /**
   * A listed record of `/user-list`; only the fields the filter reads are modelled, each
   * None when the record lacks it. `id` is the text `String(...)` makes of the record's id.
   */
  datatype Agent = Agent(id: Option<string>, account: Option<string>, agentType: Option<string>)

  /** The filter inputs; `agentType` "All" is no constraint. */
  datatype AgentFilters = AgentFilters(userId: string, accountNumber: string, agentType: string)

  const NoFilters := AgentFilters("", "", "All")

  const PageSize: nat := 5

  /** `String(Agent.id)`: a record without an id reads "undefined". */
  function IdText(a: Agent): (r: string)
    ensures a.id.Some? ==> r == a.id.value
    ensures a.id.None? ==> r == "undefined"
  {
    a.id.GetOr("undefined")
  }

  function ById(userId: string): Agent -> bool {
    (a: Agent) => Contains(IdText(a), userId)
  }

  /** `Agent.account.includes(...)`, on the records that have an account (the others throw). */
  function ByAccount(accountNumber: string): Agent -> bool {
    (a: Agent) => a.account.Some? && Contains(a.account.value, accountNumber)
  }

  /** `Agent.type === filters.type`: a record without a type never matches. */
  function ByType(agentType: string): Agent -> bool {
    (a: Agent) => a.agentType == Some(agentType)
  }

  /** The conjunction of the filters in force. */
  predicate Matches(a: Agent, f: AgentFilters) {
    (f.userId == "" || Contains(IdText(a), f.userId))
    && (f.accountNumber == "" || (a.account.Some? && Contains(a.account.value, f.accountNumber)))
    && (f.agentType == "All" || a.agentType == Some(f.agentType))
  }

  function Matcher(f: AgentFilters): Agent -> bool {
    a => Matches(a, f)
  }

  /** The filters that are in force after the first one. */
  function FirstStage(f: AgentFilters): Agent -> bool {
    (a: Agent) => f.userId == "" || Contains(IdText(a), f.userId)
  }

  /** ... and after the second. */
  function SecondStage(f: AgentFilters): Agent -> bool {
    (a: Agent) => (f.userId == "" || Contains(IdText(a), f.userId))
      && (f.accountNumber == "" || (a.account.Some? && Contains(a.account.value, f.accountNumber)))
  }

  /** Some record without an account reaches the account step: `.includes` throws there. */
  predicate AccountStepThrows(data: seq<Agent>, f: AgentFilters) {
    f.accountNumber != "" && SomeWithoutAccount(Filter(data, FirstStage(f)))
  }

  /** Some record of `agents` has no account. */
  predicate SomeWithoutAccount(agents: seq<Agent>) {
    exists i :: 0 <= i < |agents| && agents[i].account.None?
  }

  /** Every record without an id contains the text "un", so typing "un" keeps it. */
  lemma MissingIdMatchesUndefined(a: Agent)
    requires a.id.None?
    ensures ById("un")(a) && ById("undefined")(a)
  {
    assert IsPrefix("un", "undefined");
    assert IsPrefix("undefined", "undefined");
  }

  /** An account filter over records none of which has an account throws as soon as one survives the id step. */
  lemma MissingAccountThrows(data: seq<Agent>, f: AgentFilters)
    requires f.userId == "" && f.accountNumber != "" && |data| > 0 && data[0].account.None?
    ensures AccountStepThrows(data, f)
  {
    FirstStep(data, f);
    assert Filter(data, FirstStage(f)) == data;
  }

  /** With every filter empty the conjunction keeps every agent. */
  lemma NoFiltersKeepAll(data: seq<Agent>)
    ensures Filter(data, Matcher(NoFilters)) == data
  {
    FilterAllPass(data, Matcher(NoFilters));
  }

  /** A type filter keeps only agents of that type. */
  lemma TypeFilterExact(data: seq<Agent>, f: AgentFilters)
    requires f.agentType != "All"
    ensures forall a :: a in Filter(data, Matcher(f)) ==> a.agentType == Some(f.agentType)
  {
  }

  /** The user-id step keeps what the first filter allows. */
  lemma FirstStep(data: seq<Agent>, f: AgentFilters)
    ensures (if f.userId != "" then Filter(data, ById(f.userId)) else data) == Filter(data, FirstStage(f))
  {
    if f.userId != "" {
      FilterCongruent(data, ById(f.userId), FirstStage(f));
    } else {
      FilterAllPass(data, FirstStage(f));
    }
  }

  /** The account step narrows that to what the first two filters allow. */
  lemma SecondStep(data: seq<Agent>, f: AgentFilters, filtered: seq<Agent>)
    requires filtered == Filter(data, FirstStage(f))
    ensures (if f.accountNumber != "" then Filter(filtered, ByAccount(f.accountNumber)) else filtered)
         == Filter(data, SecondStage(f))
  {
    if f.accountNumber != "" {
      FilterRefine(data, FirstStage(f), ByAccount(f.accountNumber), SecondStage(f));
    } else {
      FilterCongruent(data, FirstStage(f), SecondStage(f));
    }
  }

  /** The type step narrows that to what all three allow. */
  lemma ThirdStep(data: seq<Agent>, f: AgentFilters, filtered: seq<Agent>)
    requires filtered == Filter(data, SecondStage(f))
    ensures (if f.agentType != "All" then Filter(filtered, ByType(f.agentType)) else filtered)
         == Filter(data, Matcher(f))
  {
    if f.agentType != "All" {
      FilterRefine(data, SecondStage(f), ByType(f.agentType), Matcher(f));
    } else {
      FilterCongruent(data, SecondStage(f), Matcher(f));
    }
  }

  class AgentsPage {
    var data: seq<Agent>
    var filteredData: seq<Agent>
    var filters: AgentFilters
    var currentPage: int

    constructor()
      ensures data == [] && filteredData == [] && filters == NoFilters && currentPage == 1
    {
      data := [];
      filteredData := [];
      filters := NoFilters;
      currentPage := 1;
    }

    /**
     * The filter effect: starting from the data, each non-empty filter narrows the list in
     * turn, and the page goes back to 1; the outcome is the filter by the conjunction. When
     * a record without an account reaches the account step the effect throws (`crashed`)
     * before it sets anything.
     */
    method ApplyFilters() returns (crashed: bool)
      modifies this`filteredData, this`currentPage
      ensures crashed == AccountStepThrows(data, filters)
      ensures !crashed ==> filteredData == Filter(data, Matcher(filters)) && currentPage == 1
      ensures crashed ==> filteredData == old(filteredData) && currentPage == old(currentPage)
    {
      var f := filters;
      var filtered := data;
      if f.userId != "" {
        filtered := Filter(filtered, ById(f.userId));
      }
      FirstStep(data, f);
      if f.accountNumber != "" && SomeWithoutAccount(filtered) {
        return true;
      }
      Narrow(filtered);
      return false;
    }

    /** The account and type steps of the filter effect, after the id step left `filtered`. */
    method Narrow(filtered: seq<Agent>)
      requires filtered == Filter(data, FirstStage(filters))
      modifies this`filteredData, this`currentPage
      ensures filteredData == Filter(data, Matcher(filters)) && currentPage == 1
    {
      var f := filters;
      var afterSecond := filtered;
      if f.accountNumber != "" {
        afterSecond := Filter(filtered, ByAccount(f.accountNumber));
      }
      assert afterSecond == Filter(data, SecondStage(f)) by { SecondStep(data, f, filtered); }
      var afterThird := afterSecond;
      if f.agentType != "All" {
        afterThird := Filter(afterSecond, ByType(f.agentType));
      }
      assert afterThird == Filter(data, Matcher(f)) by { ThirdStep(data, f, afterSecond); }
      filteredData := afterThird;
      currentPage := 1;
    }

    /**
     * The first effect: someone who is not an admin is sent away (`redirected`) and nothing
     * is fetched; otherwise the fetch fills both lists and the filter effect runs on the new data.
     */
    method Load(isAdmin: bool, fetched: Option<seq<Agent>>) returns (redirected: bool, crashed: bool)
      modifies this`data, this`filteredData, this`currentPage
      ensures redirected == !isAdmin
      ensures isAdmin && fetched.Some? ==> data == fetched.value && crashed == AccountStepThrows(data, filters)
      ensures isAdmin && fetched.Some? && !crashed ==> filteredData == Filter(data, Matcher(filters)) && currentPage == 1
      ensures isAdmin && fetched.Some? && crashed ==> filteredData == fetched.value && currentPage == old(currentPage)
      ensures !(isAdmin && fetched.Some?) ==>
        !crashed && data == old(data) && filteredData == old(filteredData) && currentPage == old(currentPage)
    {
      redirected, crashed := !isAdmin, false;
      if isAdmin && fetched.Some? {
        data := fetched.value;
        filteredData := fetched.value;
        crashed := ApplyFilters();
      }
    }

    /** Typing in a filter input or choosing a type; the effect follows. */
    method EditFilters(f: AgentFilters) returns (crashed: bool)
      modifies this`filters, this`filteredData, this`currentPage
      ensures filters == f && crashed == AccountStepThrows(data, f)
      ensures !crashed ==> filteredData == Filter(data, Matcher(f)) && currentPage == 1
      ensures crashed ==> filteredData == old(filteredData) && currentPage == old(currentPage)
    {
      filters := f;
      crashed := ApplyFilters();
    }

    /** `handleReset`: empty inputs, type "All", so every agent shows again from page 1. */
    method Reset()
      modifies this`filters, this`filteredData, this`currentPage
      ensures filters == NoFilters && filteredData == data && currentPage == 1
    {
      filters := NoFilters;
      var crashed := ApplyFilters();
      NoFiltersKeepAll(data);
    }

    function PaginatedData(): seq<Agent>
      reads this
    {
      Page(filteredData, currentPage, PageSize)
    }

    function TotalPages(): nat
      reads this
    {
      CeilDiv(|filteredData|, PageSize)
    }

    /** A page holds at most five agents, those after the earlier pages. */
    lemma PageShape()
      requires currentPage >= 1
      ensures |PaginatedData()| <= PageSize
      ensures forall i :: 0 <= i < |PaginatedData()| ==>
        PaginatedData()[i] == filteredData[(currentPage - 1) * PageSize + i]
    {
      PageContents(filteredData, currentPage, PageSize);
    }

    /** The Previous button. */
    method Prev()
      modifies this`currentPage
      ensures currentPage == PrevPage(old(currentPage))
    {
      currentPage := PrevPage(currentPage);
    }

    /** The Next button. */
    method Next()
      modifies this`currentPage
      ensures currentPage == NextPage(old(currentPage), TotalPages())
    {
      currentPage := NextPage(currentPage, TotalPages());
    }
  }
}
