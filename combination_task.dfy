/**
 * The combination-task dialog of one member: the product tasks with a filter form and
 * a price sort, a selection of tasks by product id, and the saved combination whose
 * `amountSums` are the running totals of the selected prices.
 */
module CombinationTask {
  import opened Wrappers
  import opened Text
  import opened Collections
  import opened Numbers
  import opened Paging
  import opened Clock
  import opened Effects

  // ---------------------------------------------------------------- data

  /**
   * A fetched task. `mongoId` and `title` are None when the record has no such field;
   * `price` is `parseFloat(task.price)` (None for NaN); `creationTime` is None when
   * `new Date(task.creationTime)` is an invalid date.
   */
  datatype Task = Task(mongoId: Option<string>, productId: string, title: Option<string>,
                       price: Option<real>, creationTime: Option<int>, selected: bool)

  /** The filter inputs; `sort` is "all", "asc" or "desc". */
  datatype Filters = Filters(productId: string, title: string, minPrice: string, maxPrice: string,
                             startDate: Bound, endDate: Bound, sort: string)

  const NoFilters := Filters("", "", "", "", Unset, Unset, "all")

  /** The member the combination is saved for. */
  datatype User = User(email: string, phone: string, username: string)

  /** The body posted to `/combine-task`. */
  datatype Combination = Combination(email: string, phone: string, username: string, targetTask: Option<int>,
                                     taskList: seq<Task>, amountSums: seq<Option<real>>, taskSize: nat, runingTask: int)

  datatype SaveOutcome = Refused(notice: Notice) | Posted(body: Combination)

  const MaxSums: nat := 10

  // ---------------------------------------------------------------- search

  /** `price >= (minPrice ? parseFloat(minPrice) : 0)`. */
  predicate AboveMin(price: real, minPrice: string) {
    if minPrice == "" then price >= 0.0
    else ParseFloat(minPrice).Some? && price >= ParseFloat(minPrice).value
  }

  /** `price <= (maxPrice ? parseFloat(maxPrice) : Infinity)`. */
  predicate BelowMax(price: real, maxPrice: string) {
    maxPrice == "" || (ParseFloat(maxPrice).Some? && price <= ParseFloat(maxPrice).value)
  }

  /** A task without a title or `_id`, or whose price is NaN, never matches. */
  predicate Matches(t: Task, f: Filters) {
    t.title.Some? && ContainsCI(t.title.value, f.title)
    && t.mongoId.Some? && Contains(t.mongoId.value, f.productId)
    && t.price.Some? && AboveMin(t.price.value, f.minPrice) && BelowMax(t.price.value, f.maxPrice)
    && InRange(t.creationTime, f.startDate, f.endDate)
  }

  function Matcher(f: Filters): Task -> bool {
    t => Matches(t, f)
  }

  /** The comparator `parseFloat(a.price) - parseFloat(b.price)`, a NaN difference counting as a tie. */
  predicate Cheaper(a: Task, b: Task) {
    a.price.None? || b.price.None? || a.price.value <= b.price.value
  }

  predicate Dearer(a: Task, b: Task) {
    a.price.None? || b.price.None? || a.price.value >= b.price.value
  }

  lemma OrdersTotal()
    ensures Total(Cheaper) && Total(Dearer)
  {
  }

  /** `handleSearch`: the matching tasks, sorted by price when "asc" or "desc" is chosen. */
  function Searched(tasks: seq<Task>, f: Filters): seq<Task> {
    var filtered := Filter(tasks, Matcher(f));
    if f.sort == "asc" then SortWith(filtered, Cheaper)
    else if f.sort == "desc" then SortWith(filtered, Dearer)
    else filtered
  }

  /** The result holds exactly the matching tasks, each as often as in the list. */
  lemma SearchFinds(tasks: seq<Task>, f: Filters)
    ensures multiset(Searched(tasks, f)) == multiset(Filter(tasks, Matcher(f)))
    ensures forall t :: t in Searched(tasks, f) <==> t in tasks && Matches(t, f)
  {
    var filtered := Filter(tasks, Matcher(f));
    var r := Searched(tasks, f);
    assert multiset(r) == multiset(filtered);
    forall t
      ensures t in r <==> t in tasks && Matches(t, f)
    {
      FilterMember(tasks, Matcher(f), t);
      assert t in r <==> t in multiset(r);
      assert t in filtered <==> t in multiset(filtered);
    }
  }

  /** "asc" lists prices nondecreasing, "desc" nonincreasing, and "all" keeps the list order. */
  lemma SearchOrders(tasks: seq<Task>, f: Filters)
    ensures forall i :: 0 <= i < |Searched(tasks, f)| ==> Searched(tasks, f)[i].price.Some?
    ensures f.sort == "asc" ==> forall i :: 0 <= i < |Searched(tasks, f)| - 1 ==>
      Searched(tasks, f)[i].price.value <= Searched(tasks, f)[i + 1].price.value
    ensures f.sort == "desc" ==> forall i :: 0 <= i < |Searched(tasks, f)| - 1 ==>
      Searched(tasks, f)[i].price.value >= Searched(tasks, f)[i + 1].price.value
    ensures f.sort != "asc" && f.sort != "desc" ==> Searched(tasks, f) == Filter(tasks, Matcher(f))
  {
    SearchFinds(tasks, f);
    OrdersTotal();
    var r := Searched(tasks, f);
    forall i | 0 <= i < |r| ensures r[i].price.Some? {
      assert r[i] in r;
    }
    if f.sort == "asc" {
      SortWithSorted(Filter(tasks, Matcher(f)), Cheaper);
    } else if f.sort == "desc" {
      SortWithSorted(Filter(tasks, Matcher(f)), Dearer);
    }
  }

  /** With the minimum left empty it counts as 0, so a negative price is hidden. */
  lemma NegativePriceHidden(t: Task, f: Filters)
    requires f.minPrice == "" && t.price.Some? && t.price.value < 0.0
    ensures !Matches(t, f)
  {
  }

  /** An empty form passes every titled, identified task with a price from 0 up, whatever its date. */
  lemma EmptyFiltersMatch(t: Task)
    ensures Matches(t, NoFilters) <==> t.title.Some? && t.mongoId.Some? && t.price.Some? && t.price.value >= 0.0
  {
    ContainsEmpty(Lower(t.title.GetOr("")));
    ContainsEmpty(t.mongoId.GetOr(""));
  }

  // ---------------------------------------------------------------- selection

  /** Every task flagged by whether its product id is selected. */
  function Flagged(tasks: seq<Task>, ids: seq<string>): (r: seq<Task>)
    ensures |r| == |tasks|
    ensures forall i :: 0 <= i < |tasks| ==> r[i] == tasks[i].(selected := tasks[i].productId in ids)
  {
    Map(tasks, (t: Task) => t.(selected := t.productId in ids))
  }

  /** Toggling product `x` flips the flag of exactly the tasks with that product id. */
  lemma ToggleFlipsFlag(tasks: seq<Task>, ids: seq<string>, x: string)
    requires forall i :: 0 <= i < |tasks| ==> (tasks[i].selected <==> tasks[i].productId in ids)
    ensures forall i :: 0 <= i < |tasks| ==>
      (Flagged(tasks, Toggle(ids, x))[i].selected <==>
        if tasks[i].productId == x then !tasks[i].selected else tasks[i].selected)
  {
  }

  /**
   * `selectedTaskIds.map(id => tasks.find(...)).filter(Boolean)`: the task of each selected
   * id, in selection order, dropping ids no task has.
   */
  function SelectedTasks(ids: seq<string>, tasks: seq<Task>): (r: seq<Task>)
    ensures |r| <= |ids|
    ensures forall i :: 0 <= i < |r| ==> r[i] in tasks && r[i].productId in ids
  {
    if ids == [] then []
    else
      var rest := SelectedTasks(ids[1..], tasks);
      match Find(tasks, (t: Task) => t.productId == ids[0])
      case Some(t) => [t] + rest
      case None => rest
  }

  /** When every selected id has a task, the list follows the selection one for one. */
  lemma {:induction false} SelectedInOrder(ids: seq<string>, tasks: seq<Task>)
    requires forall id :: id in ids ==> exists t :: t in tasks && t.productId == id
    ensures |SelectedTasks(ids, tasks)| == |ids|
    ensures forall i :: 0 <= i < |ids| ==> SelectedTasks(ids, tasks)[i].productId == ids[i]
  {
    if ids != [] {
      assert forall id :: id in ids[1..] ==> id in ids;
      SelectedInOrder(ids[1..], tasks);
      assert ids[0] in ids;
      var t :| t in tasks && t.productId == ids[0];
      var f := Find(tasks, (t: Task) => t.productId == ids[0]);
      assert f.Some?;
      assert SelectedTasks(ids, tasks) == [f.value] + SelectedTasks(ids[1..], tasks);
    }
  }

  /** An id no task has adds nothing. */
  lemma UnknownIdDropped(ids: seq<string>, tasks: seq<Task>, x: string)
    requires forall t :: t in tasks ==> t.productId != x
    ensures SelectedTasks(ids + [x], tasks) == SelectedTasks(ids, tasks)
    decreases |ids|
  {
    if ids != [] {
      assert (ids + [x])[1..] == ids[1..] + [x];
      UnknownIdDropped(ids[1..], tasks, x);
    } else {
      assert Find(tasks, (t: Task) => t.productId == x).None?;
      assert ([x])[1..] == [];
    }
  }

  // ---------------------------------------------------------------- amount sums

  /** JavaScript addition where NaN absorbs everything. */
  function Plus(a: Option<real>, b: Option<real>): Option<real> {
    if a.Some? && b.Some? then Some(a.value + b.value) else None
  }

  /** The sum of the first `n` amounts, NaN as soon as one of them is NaN. */
  function PrefixSum(amounts: seq<Option<real>>, n: nat): Option<real>
    requires n <= |amounts|
  {
    if n == 0 then Some(0.0) else Plus(PrefixSum(amounts, n - 1), amounts[n - 1])
  }

  /** A running total is NaN exactly when one of the amounts it covers is. */
  lemma {:induction false} PrefixSumNaN(amounts: seq<Option<real>>, n: nat)
    requires n <= |amounts|
    ensures PrefixSum(amounts, n).None? <==> exists i :: 0 <= i < n && amounts[i].None?
  {
    if n > 0 {
      PrefixSumNaN(amounts, n - 1);
    }
  }

  /** With amounts from 0 up the running totals never fall. */
  lemma {:induction false} PrefixSumRises(amounts: seq<Option<real>>, m: nat, n: nat)
    requires m <= n <= |amounts|
    requires forall i :: 0 <= i < |amounts| ==> amounts[i].Some? && amounts[i].value >= 0.0
    ensures PrefixSum(amounts, m).Some? && PrefixSum(amounts, n).Some?
    ensures PrefixSum(amounts, m).value <= PrefixSum(amounts, n).value
    decreases n - m
  {
    PrefixSumNaN(amounts, m);
    PrefixSumNaN(amounts, n);
    if m < n {
      PrefixSumRises(amounts, m, n - 1);
    }
  }

  /**
   * The loop of `handleSaveTargetTask`: running totals of at most the first ten amounts,
   * entry `i` being the sum of amounts `0..i`.
   */
  method AmountSums(amounts: seq<Option<real>>) returns (sums: seq<Option<real>>)
    ensures |sums| == Min(MaxSums, |amounts|)
    ensures forall i :: 0 <= i < |sums| ==> sums[i] == PrefixSum(amounts, i + 1)
  {
    sums := [];
    var cumulative: Option<real> := Some(0.0);
    var i := 0;
    while i < |amounts| && i < MaxSums
      invariant 0 <= i <= Min(MaxSums, |amounts|)
      invariant |sums| == i
      invariant cumulative == PrefixSum(amounts, i)
      invariant forall k :: 0 <= k < i ==> sums[k] == PrefixSum(amounts, k + 1)
    {
      cumulative := Plus(cumulative, amounts[i]);
      sums := sums + [cumulative];
      i := i + 1;
    }
  }

  /** `selectedTasks.map(task => parseFloat(task.price))`. */
  function Prices(selected: seq<Task>): (r: seq<Option<real>>)
    ensures |r| == |selected|
    ensures forall i :: 0 <= i < |selected| ==> r[i] == selected[i].price
  {
    Map(selected, (t: Task) => t.price)
  }

  // ---------------------------------------------------------------- the dialog

  /** The target number is read by `parseInt` with no radix, so "0x1A" posts 26. */
  lemma HexTargetNumber()
    ensures ParseIntAuto("0x1A") == Some(26)
  {
    var h := "1A";
    assert HexValue(h) == 26 by {
      assert h[..1] == "1" && "1"[..0] == "";
    }
    ParseIntAutoHex(h, 'x');
    assert ['0', 'x'] + h == "0x1A";
  }

  /** A bare "0x" target posts NaN. */
  lemma BareHexTargetNumber()
    ensures ParseIntAuto("0x") == None
  {
    ParseIntAutoBarePrefix('x');
    assert ['0', 'x'] == "0x";
  }

  /** A leading zero does not make the target octal: "012" posts 12. */
  lemma LeadingZeroTargetNumber()
    ensures ParseIntAuto("012") == Some(12)
  {
    var d := "012";
    assert DigitsValue(d) == 12 by {
      assert d[..2] == "01" && "01"[..1] == "0" && "0"[..0] == "";
    }
    ParseIntAutoOfDigits(d);
  }

  class CombinationDialog {
    var tasks: seq<Task>
    var filteredTasks: seq<Task>
    var filters: Filters
    var selectedTaskIds: seq<string>
    var targetTaskNo: string

    constructor()
      ensures tasks == [] && filteredTasks == [] && filters == NoFilters && selectedTaskIds == [] && targetTaskNo == ""
    {
      tasks := [];
      filteredTasks := [];
      filters := NoFilters;
      selectedTaskIds := [];
      targetTaskNo := "";
    }

    /** Every task's `selected` flag says whether its product id is selected. */
    predicate FlagsAgree()
      reads this
    {
      forall i :: 0 <= i < |tasks| ==> (tasks[i].selected <==> tasks[i].productId in selectedTaskIds)
    }

    /** The fetch: every task unselected in both lists; a failed fetch changes nothing. */
    method Load(fetched: Option<seq<Task>>)
      modifies this`tasks, this`filteredTasks
      ensures fetched.Some? ==> tasks == Flagged(fetched.value, []) && filteredTasks == tasks
      ensures fetched.None? ==> tasks == old(tasks) && filteredTasks == old(filteredTasks)
      ensures fetched.Some? && selectedTaskIds == [] ==> FlagsAgree()
    {
      if fetched.Some? {
        tasks := Flagged(fetched.value, []);
        filteredTasks := tasks;
      }
    }

    /** Typing in the filter form or choosing the sort. */
    method Edit(f: Filters)
      modifies this`filters
      ensures filters == f
    {
      filters := f;
    }

    /** Typing the target task number. */
    method EditTarget(s: string)
      modifies this`targetTaskNo
      ensures targetTaskNo == s
    {
      targetTaskNo := s;
    }

    /** `handleSearch`. */
    method Search()
      modifies this`filteredTasks
      ensures filteredTasks == Searched(tasks, filters)
    {
      filteredTasks := Searched(tasks, filters);
    }

    /** `handleReset`: empty filters, every task shown; the selection stays. */
    method Reset()
      modifies this`filters, this`filteredTasks
      ensures filters == NoFilters && filteredTasks == tasks
    {
      filters := NoFilters;
      filteredTasks := tasks;
    }

    /**
     * `toggleTaskSelect`: the id leaves the selection when present and joins it at the end
     * otherwise; every flag is recomputed and the list is filtered again (without the sort).
     */
    method ToggleTaskSelect(productId: string)
      modifies this`selectedTaskIds, this`tasks, this`filteredTasks
      ensures selectedTaskIds == Toggle(old(selectedTaskIds), productId)
      ensures tasks == Flagged(old(tasks), selectedTaskIds)
      ensures filteredTasks == Filter(tasks, Matcher(filters))
      ensures FlagsAgree()
    {
      selectedTaskIds := Toggle(selectedTaskIds, productId);
      tasks := Flagged(tasks, selectedTaskIds);
      filteredTasks := Filter(tasks, Matcher(filters));
    }

    /** The selected tasks shown in the dialog. */
    function Selected(): seq<Task>
      reads this
    {
      SelectedTasks(selectedTaskIds, tasks)
    }

    /**
     * `handleSaveTargetTask`: refused without a target number or a selected task;
     * otherwise the combination with the selected tasks, their running totals (ten at
     * most), their count and `runingTask` 2.
     */
    method SaveTargetTask(user: User) returns (r: SaveOutcome)
      ensures r.Refused? <==> targetTaskNo == "" || |Selected()| == 0
      ensures r.Refused? ==> r.notice.icon == "warning"
      ensures r.Posted? ==>
        r.body.taskList == Selected() && r.body.taskSize == |Selected()| && r.body.runingTask == 2
        && r.body.targetTask == ParseIntAuto(targetTaskNo)
        && r.body.email == user.email && r.body.phone == user.phone && r.body.username == user.username
        && |r.body.amountSums| == Min(MaxSums, |Selected()|)
        && forall i :: 0 <= i < |r.body.amountSums| ==> r.body.amountSums[i] == PrefixSum(Prices(Selected()), i + 1)
    {
      var selected := Selected();
      if targetTaskNo == "" || |selected| == 0 {
        return Refused(Notice("warning", "Missing Fields", "Please ensure that both Target Task and Selected Task IDs are filled."));
      }
      var sums := AmountSums(Prices(selected));
      r := Posted(Combination(user.email, user.phone, user.username, ParseIntAuto(targetTaskNo),
                              selected, sums, |selected|, 2));
    }
  }
}
