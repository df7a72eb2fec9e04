/**
 * The member list page: the cached member list and its filtered view, the ten-field
 * search form, five-row pages with a page-number list, the delete handler and the
 * add-member dialog with its duplicate checks.
 */
module MembershipList {
  import opened Wrappers
  import opened Text
  import opened Collections
  import opened Paging
  import opened Clock
  import opened Effects
  import UniqueCode

  // ---------------------------------------------------------------- data

  /**
   * A member as the list reads it. An optional field is None when the record lacks it
   * (`item.username?....` then yields undefined); `resetTime` is None when it is empty.
   */
  datatype Member = Member(
    id: string, email: Option<string>, phone: Option<string>, username: Option<string>,
    superviser: Option<string>, invitationCode: string, frozenStatus: Option<bool>,
    vipLevel: Option<string>, resetTime: Option<int>, ipAddress: string)

  /** The search form; the two date inputs are `Bound`s (an empty input is `Unset`). */
  datatype Criteria = Criteria(
    memberId: string, memberAccount: string, mobileNumber: string, inviterId: string,
    invitationCode: string, ipAddress: string, startDate: Bound, endDate: Bound,
    accountStatus: string, vipLevel: string)

  const NoCriteria := Criteria("", "", "", "", "", "", Unset, Unset, "", "")

  /** Rows per page. */
  const PageSize: nat := 5

  // ---------------------------------------------------------------- search

  /** `field?.includes(q)`: an absent field never matches. */
  predicate Has(field: Option<string>, q: string) {
    field.Some? && Contains(field.value, q)
  }

  /** "Normal" asks for `frozenStatus === false`, "Prohibited" for `=== true`; any other value matches nothing. */
  predicate StatusMatches(m: Member, status: string) {
    status == ""
    || (status == "Normal" && m.frozenStatus == Some(false))
    || (status == "Prohibited" && m.frozenStatus == Some(true))
  }

  /** Every criterion that is filled in holds; `ipAddress` is not consulted. */
  predicate Matches(m: Member, q: Criteria) {
    (q.memberId == "" || Contains(m.invitationCode, q.memberId))
    && (q.memberAccount == "" || (m.username.Some? && ContainsCI(m.username.value, q.memberAccount)))
    && (q.mobileNumber == "" || Has(m.phone, q.mobileNumber))
    && (q.inviterId == "" || Has(m.superviser, q.inviterId))
    && (q.invitationCode == "" || Contains(m.invitationCode, q.invitationCode))
    && StatusMatches(m, q.accountStatus)
    && (q.vipLevel == "" || (m.vipLevel.Some? && Lower(m.vipLevel.value) == Lower(q.vipLevel)))
    && InRange(m.resetTime, q.startDate, q.endDate)
  }

  /** `handleSearch`'s result: the members of `all` that match, in their order. */
  function SearchResult(all: seq<Member>, q: Criteria): seq<Member> {
    Filter(all, Matcher(q))
  }

  function Matcher(q: Criteria): Member -> bool {
    m => Matches(m, q)
  }

  /** A member is found exactly when it is in the list and every filled-in criterion holds. */
  lemma SearchMembers(all: seq<Member>, q: Criteria)
    ensures forall m :: m in SearchResult(all, q) <==> m in all && Matches(m, q)
    ensures multiset(SearchResult(all, q)) <= multiset(all)
  {
  }

  /** The search keeps the list order: searching a concatenation concatenates the results. */
  lemma SearchKeepsOrder(a: seq<Member>, b: seq<Member>, q: Criteria)
    ensures SearchResult(a + b, q) == SearchResult(a, q) + SearchResult(b, q)
  {
    FilterAppend(a, b, Matcher(q));
  }

  /** The IP address field of the form does not influence the result. */
  lemma SearchIgnoresIp(all: seq<Member>, q: Criteria, ip: string)
    ensures SearchResult(all, q.(ipAddress := ip)) == SearchResult(all, q)
  {
    FilterCongruent(all, Matcher(q.(ipAddress := ip)), Matcher(q));
  }

  /** With every criterion empty the whole list is found. */
  lemma EmptyCriteriaFindAll(all: seq<Member>)
    ensures SearchResult(all, NoCriteria) == all
  {
    FilterAllPass(all, Matcher(NoCriteria));
  }

  /** The account status criterion is an exact test of the frozen flag. */
  lemma StatusIsFrozenFlag(m: Member)
    ensures StatusMatches(m, "Normal") <==> m.frozenStatus == Some(false)
    ensures StatusMatches(m, "Prohibited") <==> m.frozenStatus == Some(true)
  {
  }

  // ---------------------------------------------------------------- page numbers

  /** `Array.from({length: totalPages}, ...).filter(...)`: the first, the last and the current page ±2. */
  function PageNumbers(current: int, total: nat): (r: seq<int>)
    ensures Increasing(r)
    ensures forall i :: 0 <= i < |r| ==> 1 <= r[i] <= total
    ensures forall i :: 0 <= i < |r| ==> r[i] == 1 || r[i] == total || current - 2 <= r[i] <= current + 2
    ensures forall p :: 1 <= p <= total && (p == 1 || p == total || current - 2 <= p <= current + 2) ==> p in r
  {
    var keep := (p: int) => p == 1 || p == total || (current - 2 <= p && p <= current + 2);
    PagesKept(total, keep);
    Filter(PageRange(total), keep)
  }

  /** The pager as rendered: an extra "1 ..." when `current > 3`, an extra "... total" when `current < total - 2`. */
  function ButtonsAsWritten(current: int, total: nat): seq<Button> {
    Lead(current) + Map(PageNumbers(current, total), (p: int) => PageButton(p)) + Trail(current, total)
  }

  /** An increasing list of pages that holds page 1 starts with it. */
  lemma StartsWithOne(ps: seq<int>)
    requires Increasing(ps) && 1 in ps
    requires forall i :: 0 <= i < |ps| ==> 1 <= ps[i]
    ensures ps[0] == 1
  {
    var k :| 0 <= k < |ps| && ps[k] == 1;
    if k > 0 {
      assert ps[0] < ps[k];
    }
  }

  /** With the current page past 3 the pager starts with page 1 twice: the extra button and the list's own 1. */
  lemma FirstPageTwice(current: int, total: nat)
    requires 3 < current && total >= 1
    ensures ButtonsAsWritten(current, total)[0] == PageButton(1)
    ensures ButtonsAsWritten(current, total)[2] == PageButton(1)
    ensures !Increasing(Numbers(ButtonsAsWritten(current, total)))
  {
    var nums := PageNumbers(current, total);
    assert |nums| > 0 && nums[0] == 1 by {
      assert 1 in nums;
      StartsWithOne(nums);
    }
    var mid := Map(nums, (p: int) => PageButton(p));
    assert mid[0] == PageButton(1);
    var lead, trail := Lead(current), Trail(current, total);
    assert lead == [PageButton(1), Dots];
    var bs := lead + mid + trail;
    assert ButtonsAsWritten(current, total) == bs;
    assert bs[0] == PageButton(1) && bs[2] == mid[0];
    var ns := [1] + nums + Numbers(trail);
    assert Numbers(bs) == ns by {
      NumbersAppend(lead + mid, trail);
      NumbersAppend(lead, mid);
      NumbersOfPages(nums);
      LeadNumbers(current);
    }
    assert ns[0] == 1 && ns[1] == 1;
  }

  /** An increasing list of pages up to `total` that holds `total` ends with it. */
  lemma EndsWithTotal(ps: seq<int>, total: int)
    requires Increasing(ps) && total in ps
    requires forall i :: 0 <= i < |ps| ==> ps[i] <= total
    ensures ps[|ps| - 1] == total
  {
    var k :| 0 <= k < |ps| && ps[k] == total;
    assert ps[k] >= ps[|ps| - 1];
  }

  /** Below page `total - 2` the pager ends with the last page twice: the list's own and the extra button. */
  lemma LastPageTwice(current: int, total: nat)
    requires current < total - 2 && total >= 1
    ensures var bs := ButtonsAsWritten(current, total);
      |bs| >= 3 && bs[|bs| - 1] == PageButton(total) && bs[|bs| - 3] == PageButton(total)
  {
    var nums := PageNumbers(current, total);
    assert |nums| > 0 && nums[|nums| - 1] == total by {
      assert total in nums;
      EndsWithTotal(nums, total);
    }
    var mid := Map(nums, (p: int) => PageButton(p));
    assert mid[|mid| - 1] == PageButton(total);
    var lead, trail := Lead(current), Trail(current, total);
    assert trail == [Dots, PageButton(total)];
    var bs := lead + mid + trail;
    assert ButtonsAsWritten(current, total) == bs;
    assert bs[|bs| - 3] == mid[|mid| - 1];
  }

  /** Page 4 of 4, for one: the pager reads 1 ... 1 2 3 4. */
  lemma PageFourOfFour()
    ensures ButtonsAsWritten(4, 4)[0] == ButtonsAsWritten(4, 4)[2] == PageButton(1)
  {
    FirstPageTwice(4, 4);
  }

  /** The pages `current - 2 .. current + 2` that exist, in order. */
  function Window(current: int, total: nat): (r: seq<int>)
    ensures Increasing(r)
    ensures forall i :: 0 <= i < |r| ==> 1 <= r[i] <= total && current - 2 <= r[i] <= current + 2
    ensures forall p :: 1 <= p <= total && current - 2 <= p <= current + 2 ==> p in r
  {
    var keep := (p: int) => current - 2 <= p && p <= current + 2;
    PagesKept(total, keep);
    Filter(PageRange(total), keep)
  }

  /** The extra buttons before the list: "1 ..." once the current page is past 3. */
  function Lead(current: int): seq<Button> {
    if current > 3 then [PageButton(1), Dots] else []
  }

  /** The extra buttons after the list: "... total" while the current page is below `total - 2`. */
  function Trail(current: int, total: nat): seq<Button> {
    if current < total - 2 then [Dots, PageButton(total)] else []
  }

  /** The pager with each page shown once: the extra first and last buttons stand in for the list's own. */
  function Buttons(current: int, total: nat): seq<Button> {
    Lead(current) + Map(Window(current, total), (p: int) => PageButton(p)) + Trail(current, total)
  }

  lemma LeadNumbers(current: int)
    ensures Numbers(Lead(current)) == if current > 3 then [1] else []
  {
    if current > 3 {
      NumbersTwo(PageButton(1), Dots);
    }
  }

  lemma TrailNumbers(current: int, total: nat)
    ensures Numbers(Trail(current, total)) == if current < total - 2 then [total] else []
  {
    if current < total - 2 {
      NumbersTwo(Dots, PageButton(total));
    }
  }

  /** The numbers of the pager as written: the lead's 1, the kept pages, the trail's last page. */
  lemma AsWrittenNumbers(current: int, total: nat)
    ensures Numbers(ButtonsAsWritten(current, total))
      == (if current > 3 then [1] else []) + PageNumbers(current, total) + (if current < total - 2 then [total] else [])
  {
    var mid := Map(PageNumbers(current, total), (p: int) => PageButton(p));
    NumbersAppend(Lead(current) + mid, Trail(current, total));
    NumbersAppend(Lead(current), mid);
    NumbersOfPages(PageNumbers(current, total));
    LeadNumbers(current);
    TrailNumbers(current, total);
  }

  /** The numbers of the pager: the lead's 1, the window, the trail's last page. */
  lemma ButtonsNumbers(current: int, total: nat)
    ensures Numbers(Buttons(current, total))
      == (if current > 3 then [1] else []) + Window(current, total) + (if current < total - 2 then [total] else [])
  {
    var mid := Map(Window(current, total), (p: int) => PageButton(p));
    NumbersAppend(Lead(current) + mid, Trail(current, total));
    NumbersAppend(Lead(current), mid);
    NumbersOfPages(Window(current, total));
    LeadNumbers(current);
    TrailNumbers(current, total);
  }

  /** Gluing a smaller number in front and a larger one behind keeps a sequence increasing. */
  lemma IncreasingFrame(h: seq<int>, w: seq<int>, t: seq<int>)
    requires Increasing(h) && Increasing(w) && Increasing(t)
    requires forall i, j :: 0 <= i < |h| && 0 <= j < |w| ==> h[i] < w[j]
    requires forall i, j :: 0 <= i < |w| && 0 <= j < |t| ==> w[i] < t[j]
    requires forall i, j :: 0 <= i < |h| && 0 <= j < |t| ==> h[i] < t[j]
    ensures Increasing(h + w + t)
  {
    var all := h + w + t;
    forall i, j | 0 <= i < j < |all| ensures all[i] < all[j] {
      if i < |h| && j >= |h| && j < |h| + |w| {
        assert all[j] == w[j - |h|];
      } else if i >= |h| && i < |h| + |w| && j < |h| + |w| {
        assert all[i] == w[i - |h|] && all[j] == w[j - |h|];
      } else if i >= |h| && i < |h| + |w| {
        assert all[i] == w[i - |h|];
      }
    }
  }

  /** The window lies strictly between the lead's 1 and the trail's last page. */
  lemma WindowBetween(current: int, total: nat)
    requires 1 <= current <= total
    ensures current > 3 ==> forall j :: 0 <= j < |Window(current, total)| ==> 1 < Window(current, total)[j]
    ensures current < total - 2 ==> forall j :: 0 <= j < |Window(current, total)| ==> Window(current, total)[j] < total
  {
  }

  /** The pager's numbers, split into the lead's 1, the window and the trail's last page, increase. */
  lemma ButtonsIncreasing(current: int, total: nat)
    requires 1 <= current <= total
    ensures Increasing(Numbers(Buttons(current, total)))
  {
    var h: seq<int> := if current > 3 then [1] else [];
    var w := Window(current, total);
    var t: seq<int> := if current < total - 2 then [total] else [];
    WindowBetween(current, total);
    assert forall i, j :: 0 <= i < |h| && 0 <= j < |w| ==> h[i] < w[j];
    assert forall i, j :: 0 <= i < |w| && 0 <= j < |t| ==> w[i] < t[j];
    assert forall i, j :: 0 <= i < |h| && 0 <= j < |t| ==> h[i] < t[j];
    IncreasingFrame(h, w, t);
    ButtonsNumbers(current, total);
  }

  /** The pager's numbers include the first page, the last page and the window. */
  lemma ButtonsCover(current: int, total: nat)
    requires 1 <= current <= total
    ensures 1 in Numbers(Buttons(current, total)) && total in Numbers(Buttons(current, total))
    ensures forall p :: 1 <= p <= total && current - 2 <= p <= current + 2 ==> p in Numbers(Buttons(current, total))
  {
    var h: seq<int> := if current > 3 then [1] else [];
    var w := Window(current, total);
    var t: seq<int> := if current < total - 2 then [total] else [];
    var ns := Numbers(Buttons(current, total));
    ButtonsNumbers(current, total);
    assert ns == h + w + t;
    if current <= 3 {
      assert 1 in w;
    } else {
      assert ns[0] == 1;
    }
    if current >= total - 2 {
      assert total in w;
    } else {
      assert ns[|ns| - 1] == total;
    }
    forall p | 1 <= p <= total && current - 2 <= p <= current + 2 ensures p in ns {
      assert p in w;
    }
  }

  /**
   * For a current page in 1..total the pager shows each page at most once, in increasing
   * order, always including the first and the last page and every page within 2 of the
   * current one.
   */
  lemma ButtonsShowEachPageOnce(current: int, total: nat)
    requires 1 <= current <= total
    ensures Increasing(Numbers(Buttons(current, total)))
    ensures 1 in Numbers(Buttons(current, total)) && total in Numbers(Buttons(current, total))
    ensures forall p :: 1 <= p <= total && current - 2 <= p <= current + 2 ==> p in Numbers(Buttons(current, total))
  {
    ButtonsIncreasing(current, total);
    ButtonsCover(current, total);
  }

  // ---------------------------------------------------------------- adding a member

  /** A character `[^\s@]` matches. */
  predicate Plain(c: char) {
    c != '@' && !IsSpace(c)
  }

  predicate AllPlain(s: string) {
    forall i :: 0 <= i < |s| ==> Plain(s[i])
  }

  /** `/^[^\s@]+@[^\s@]+\.[^\s@]+$/`: one '@' after a plain name, then a plain domain with an inner dot. */
  predicate ValidEmail(s: string) {
    exists k :: 0 < k < |s| && s[k] == '@' && AllPlain(s[..k]) && AllPlain(s[k + 1..])
      && exists j :: k + 1 < j < |s| - 1 && s[j] == '.'
  }

  /** A valid address has exactly one '@' and no white space. */
  lemma ValidEmailShape(s: string)
    requires ValidEmail(s)
    ensures forall i, j :: 0 <= i < |s| && 0 <= j < |s| && s[i] == '@' && s[j] == '@' ==> i == j
    ensures forall i :: 0 <= i < |s| ==> !IsSpace(s[i])
  {
    var k :| 0 < k < |s| && s[k] == '@' && AllPlain(s[..k]) && AllPlain(s[k + 1..])
      && exists j :: k + 1 < j < |s| - 1 && s[j] == '.';
    forall i | 0 <= i < |s| && i != k ensures Plain(s[i]) {
      if i < k {
        assert s[..k][i] == s[i];
      } else {
        assert s[k + 1..][i - k - 1] == s[i];
      }
    }
  }

  lemma EmailExamples()
    ensures ValidEmail("a@b.c")
    ensures !ValidEmail("a@b")
    ensures !ValidEmail("a@@b.c")
  {
    var s := "a@b.c";
    assert s[..1] == "a" && s[2..] == "b.c";
    assert s[3] == '.';
    var t := "a@@b.c";
    forall k | 0 < k < |t| && t[k] == '@' ensures !AllPlain(t[k + 1..]) || !AllPlain(t[..k]) {
      if k == 1 {
        assert t[k + 1..][0] == '@';
      } else {
        assert t[..k][1] == '@';
      }
    }
  }

  /** The five inputs of the dialog. */
  datatype MemberForm = MemberForm(email: string, mobile: string, username: string, reffer: string, password: string)

  /** The record posted for a new member (the fields the page fills in itself are constants). */
  datatype NewMember = NewMember(
    email: string, phone: string, username: string, password: string, rePassword: string,
    superviser: string, invitationCode: string, vipLevel: string, reputation: string,
    totalBal: real, frozenStatus: bool, taskCount: nat, regType: Option<string>)

  /** How the dialog ends. */
  datatype AddResult =
    | Cancelled
    | Rejected(message: string)          // the dialog's validation message
    | Failed                             // "Something went wrong! Try Again."
    | NoFreshCode                        // the code loop finds no unused code among the draws
    | EmailTaken | PhoneTaken | UsernameTaken
    | Created(record: NewMember)

  /** The inputs with white space trimmed from both ends. */
  function Trimmed(f: MemberForm): MemberForm {
    MemberForm(Trim(f.email), Trim(f.mobile), Trim(f.username), Trim(f.reffer), Trim(f.password))
  }

  /** `preConfirm` on the trimmed inputs: every field required, then the address pattern. */
  function CheckForm(t: MemberForm): (r: Option<string>)
    ensures r.None? <==> (t.email != "" && t.mobile != "" && t.username != "" && t.password != ""
                          && t.reffer != "" && ValidEmail(t.email))
  {
    if t.email == "" || t.mobile == "" || t.username == "" || t.password == "" || t.reffer == "" then
      Some("All fields are required.")
    else if !ValidEmail(t.email) then Some("Please enter a valid email address.")
    else None
  }

  predicate EmailUsed(users: seq<Member>, email: string) {
    Find(users, (u: Member) => u.email == Some(email)).Some?
  }

  predicate PhoneUsed(users: seq<Member>, phone: string) {
    Find(users, (u: Member) => u.phone == Some(phone)).Some?
  }

  predicate UsernameUsed(users: seq<Member>, name: string) {
    Find(users, (u: Member) => u.username == Some(name)).Some?
  }

  function Codes(users: seq<Member>): seq<string> {
    Map(users, (u: Member) => u.invitationCode)
  }

  /**
   * The `try` block of `handleAddMember` on validated inputs `t`: `users` is the fetched
   * member list (None when the request fails), `draws` the code draws and `posted` the
   * outcome of the POST (axios rejects any non-2xx answer). The code is drawn before the
   * duplicate checks, which run email, phone, username.
   */
  function Register(t: MemberForm, users: Option<seq<Member>>, draws: seq<nat>, posted: Reply,
                    regType: Option<string>): (r: AddResult)
    ensures r.Created? ==> users.Some? && posted == Answered(true)
    ensures r.Created? ==> forall i :: 0 <= i < |users.value| ==> users.value[i].invitationCode != r.record.invitationCode
    ensures r.Created? ==> r.record.email == t.email && r.record.phone == t.mobile && r.record.username == t.username
    ensures r.Created? ==> r.record.password == t.password && r.record.rePassword == t.password && r.record.superviser == t.reffer
  {
    if users.None? then Failed
    else
      match UniqueCode.FirstFresh(Codes(users.value), draws)
      case None => NoFreshCode
      case Some(code) =>
        if EmailUsed(users.value, t.email) then EmailTaken
        else if PhoneUsed(users.value, t.mobile) then PhoneTaken
        else if UsernameUsed(users.value, t.username) then UsernameTaken
        else if posted != Answered(true) then Failed
        else
          assert forall i :: 0 <= i < |users.value| ==> Codes(users.value)[i] == users.value[i].invitationCode;
          Created(NewMember(t.email, t.mobile, t.username, t.password, t.password, t.reffer,
                            code, "VIP 0", "100%", 0.0, false, 0, regType))
  }

  /**
   * The duplicate checks run in order: a used email wins over a used phone, which wins over
   * a used username; a member is created only when none is used and the POST succeeds.
   */
  lemma RegisterChecks(t: MemberForm, users: seq<Member>, draws: seq<nat>, posted: Reply, regType: Option<string>)
    requires UniqueCode.FirstFresh(Codes(users), draws).Some?
    ensures var r := Register(t, Some(users), draws, posted, regType);
      && (r.EmailTaken? <==> exists i :: 0 <= i < |users| && users[i].email == Some(t.email))
      && (r.PhoneTaken? <==>
            !EmailUsed(users, t.email) && exists i :: 0 <= i < |users| && users[i].phone == Some(t.mobile))
      && (r.UsernameTaken? <==>
            !EmailUsed(users, t.email) && !PhoneUsed(users, t.mobile)
            && exists i :: 0 <= i < |users| && users[i].username == Some(t.username))
      && (r.Created? <==>
            !EmailUsed(users, t.email) && !PhoneUsed(users, t.mobile)
            && !UsernameUsed(users, t.username) && posted == Answered(true))
  {
  }

  /** `handleAddMember`: `confirmed` is false when the dialog is cancelled. */
  function AddMember(f: MemberForm, confirmed: bool, users: Option<seq<Member>>, draws: seq<nat>,
                     posted: Reply, regType: Option<string>): (r: AddResult)
    ensures !confirmed ==> r == Cancelled
    ensures confirmed && CheckForm(Trimmed(f)).Some? ==> r == Rejected(CheckForm(Trimmed(f)).value)
    ensures confirmed && CheckForm(Trimmed(f)).None? ==> r == Register(Trimmed(f), users, draws, posted, regType)
    ensures r.Created? ==> ValidEmail(r.record.email)
  {
    if !confirmed then Cancelled
    else
      var t := Trimmed(f);
      match CheckForm(t)
      case Some(msg) => Rejected(msg)
      case None => Register(t, users, draws, posted, regType)
  }

  // ---------------------------------------------------------------- the page

  class MembershipPage {
    var allData: seq<Member>
    var filteredData: seq<Member>
    var criteria: Criteria
    var currentPage: int
    var loading: bool

    constructor()
      ensures allData == [] && filteredData == [] && criteria == NoCriteria && currentPage == 1 && loading
    {
      allData := [];
      filteredData := [];
      criteria := NoCriteria;
      currentPage := 1;
      loading := true;
    }

    /** The rows of the current page. */
    function PageRows(): seq<Member>
      reads this
    {
      Page(filteredData, currentPage, PageSize)
    }

    /** `Math.ceil(filteredData.length / 5)`; 0 for an empty view. */
    function TotalPages(): nat
      reads this
    {
      CeilDiv(|filteredData|, PageSize)
    }

    /**
     * The pager below the table, as the page draws it: past page 3 it holds page 1 twice,
     * and its numbers are the optional extra 1, the kept pages and the optional extra last page.
     */
    function Pager(): (r: seq<Button>)
      reads this
      ensures Numbers(r) == (if currentPage > 3 then [1] else []) + PageNumbers(currentPage, TotalPages())
        + (if currentPage < TotalPages() - 2 then [TotalPages()] else [])
      ensures currentPage > 3 && TotalPages() >= 1 ==> |r| > 2 && r[0] == PageButton(1) && r[2] == PageButton(1)
    {
      AsWrittenNumbers(currentPage, TotalPages());
      var bs := ButtonsAsWritten(currentPage, TotalPages());
      if currentPage > 3 && TotalPages() >= 1 then FirstPageTwice(currentPage, TotalPages()); bs else bs
    }

    /** The initial fetch: newest member first, in both lists; a failed fetch leaves the spinner. */
    method Load(fetched: Option<seq<Member>>)
      modifies this`allData, this`filteredData, this`loading
      ensures fetched.Some? ==> allData == Reverse(fetched.value) && filteredData == allData && !loading
      ensures fetched.None? ==> allData == old(allData) && filteredData == old(filteredData) && loading == old(loading)
    {
      if fetched.Some? {
        allData := Reverse(fetched.value);
        filteredData := allData;
        loading := false;
      }
    }

    /** `handleChange`: one input of the search form edited. */
    method Edit(q: Criteria)
      modifies this`criteria
      ensures criteria == q
    {
      criteria := q;
    }

    /** `handleSearch`: the view becomes the matching members of the whole list, from page 1. */
    method Search()
      modifies this`filteredData, this`currentPage
      ensures filteredData == SearchResult(allData, criteria) && currentPage == 1
    {
      filteredData := SearchResult(allData, criteria);
      currentPage := 1;
    }

    /** `handleReset`. */
    method Reset()
      modifies this`criteria, this`filteredData, this`currentPage
      ensures criteria == NoCriteria && filteredData == allData && currentPage == 1
    {
      criteria := NoCriteria;
      filteredData := allData;
      currentPage := 1;
    }

    /** `handleDelete`: any readable answer drops the row from the view only; the full list keeps it. */
    method Delete(id: string, reply: Reply)
      modifies this`filteredData
      ensures reply.Answered? ==> filteredData == Filter(old(filteredData), (m: Member) => m.id != id)
      ensures reply.Raised? ==> filteredData == old(filteredData)
    {
      if reply.Answered? {
        filteredData := Filter(filteredData, (m: Member) => m.id != id);
      }
    }

    /** A page button. */
    method GoTo(page: int)
      modifies this`currentPage
      ensures currentPage == page
    {
      currentPage := page;
    }
  }

  /** A delete keeps every other row of the view, and only rows the view had. */
  lemma DeleteOnlyThatId(view: seq<Member>, id: string)
    ensures forall m :: m in Filter(view, (x: Member) => x.id != id) <==> m in view && m.id != id
  {
  }
}
