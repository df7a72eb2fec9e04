/**
 * The combination-task history: the user tasks that carry a target task, pending ones
 * first and the latest start first within a status, with a search by username and
 * target task number.
 */
module CombineTaskHistory {
  import opened Wrappers
  import opened Text
  import opened Collections

  // ---------------------------------------------------------------- data

  /**
   * A user task. `targetTask` is None when the field is missing or null; `taskStart` is
   * None when `new Date(item.taskStart)` is an invalid date.
   */
  datatype UserTask = UserTask(username: string, targetTask: Option<int>, status: string, taskStart: Option<int>)

  /** The page state: the loaded tasks, the shown tasks and the two search inputs. */
  datatype View = View(tasks: seq<UserTask>, filteredTasks: seq<UserTask>, searchEmail: string, searchRunningTask: string)

  const Initial := View([], [], "", "")

  // ---------------------------------------------------------------- load

  /** `item.targetTask` is truthy: present and not 0. */
  predicate HasTarget(t: UserTask) {
    t.targetTask.Some? && t.targetTask.value != 0
  }

  /** `{ "Pending": 0, "Complete": 1 }[status]`; None is `undefined`. */
  function Priority(status: string): Option<int> {
    if status == "Pending" then Some(0) else if status == "Complete" then Some(1) else None
  }

  /**
   * The comparator gives `a` no later than `b`: the status priorities when they differ
   * (an undefined priority makes the difference NaN, a tie), otherwise the later start
   * first (an invalid date a tie).
   */
  predicate Before(a: UserTask, b: UserTask) {
    if Priority(a.status) != Priority(b.status) then
      Priority(a.status).None? || Priority(b.status).None? || Priority(a.status).value <= Priority(b.status).value
    else
      a.taskStart.None? || b.taskStart.None? || a.taskStart.value >= b.taskStart.value
  }

  lemma BeforeTotal()
    ensures Total(Before)
  {
  }

  /** The fetched items with a target task, ordered by the comparator. */
  function TargetTasks(data: seq<UserTask>): seq<UserTask> {
    SortWith(Filter(data, HasTarget), Before)
  }

  /** Exactly the items with a target task are kept, each as often as fetched. */
  lemma TargetTasksKept(data: seq<UserTask>)
    ensures multiset(TargetTasks(data)) == multiset(Filter(data, HasTarget))
    ensures forall t :: t in TargetTasks(data) <==> t in data && HasTarget(t)
  {
    var kept := Filter(data, HasTarget);
    assert forall t :: t in TargetTasks(data) <==> t in multiset(TargetTasks(data));
    assert forall t :: t in kept <==> t in multiset(kept);
  }

  /** Neighbours are in comparator order. */
  lemma TargetTasksSorted(data: seq<UserTask>)
    ensures Sorted(TargetTasks(data), Before)
  {
    BeforeTotal();
    SortWithSorted(Filter(data, HasTarget), Before);
  }

  /** A known status. */
  predicate Known(t: UserTask) {
    t.status == "Pending" || t.status == "Complete"
  }

  /** When every status is Pending or Complete, no Complete task comes before a Pending one. */
  lemma PendingFirst(data: seq<UserTask>)
    requires forall t :: t in data ==> Known(t)
    ensures forall i, j :: 0 <= i < j < |TargetTasks(data)| ==>
      !(TargetTasks(data)[i].status == "Complete" && TargetTasks(data)[j].status == "Pending")
  {
    var s := TargetTasks(data);
    TargetTasksKept(data);
    TargetTasksSorted(data);
    forall i, j | 0 <= i < j < |s| ensures !(s[i].status == "Complete" && s[j].status == "Pending") {
      assert forall k :: 0 <= k < |s| ==> Known(s[k]) by {
        forall k | 0 <= k < |s| ensures Known(s[k]) {
          assert s[k] in s;
        }
      }
      NoCompleteThenPending(s, i, j);
    }
  }

  lemma {:induction false} NoCompleteThenPending(s: seq<UserTask>, i: int, j: int)
    requires 0 <= i < j < |s|
    requires Sorted(s, Before)
    requires forall k :: 0 <= k < |s| ==> Known(s[k])
    ensures !(s[i].status == "Complete" && s[j].status == "Pending")
    decreases j - i
  {
    if s[i].status == "Complete" && i + 1 < j {
      assert Before(s[i], s[i + 1]);
      NoCompleteThenPending(s, i + 1, j);
    }
  }

  /** Neighbouring tasks of the same status run from the latest start back. */
  lemma LatestFirstWithinStatus(data: seq<UserTask>)
    ensures forall i :: 0 <= i < |TargetTasks(data)| - 1 ==>
      ((TargetTasks(data)[i].status == TargetTasks(data)[i + 1].status
        && TargetTasks(data)[i].taskStart.Some? && TargetTasks(data)[i + 1].taskStart.Some?)
        ==> TargetTasks(data)[i].taskStart.value >= TargetTasks(data)[i + 1].taskStart.value)
  {
    TargetTasksSorted(data);
  }

  // ---------------------------------------------------------------- search

  /**
   * The username contains the term ignoring case and, when a target number is typed,
   * the target task equals `parseInt` of it (NaN equals nothing).
   */
  predicate Matches(t: UserTask, searchEmail: string, searchRunningTask: string) {
    ContainsCI(t.username, searchEmail)
    && (searchRunningTask == "" || (ParseInt(searchRunningTask).Some? && t.targetTask == ParseInt(searchRunningTask)))
  }

  function Matcher(searchEmail: string, searchRunningTask: string): UserTask -> bool {
    t => Matches(t, searchEmail, searchRunningTask)
  }

  /** The fetch; a failed fetch or read leaves the page as it was. */
  function Load(v: View, fetched: Option<seq<UserTask>>): (r: View)
    ensures fetched.None? ==> r == v
    ensures fetched.Some? ==> r.tasks == TargetTasks(fetched.value) && r.filteredTasks == r.tasks
    ensures r.searchEmail == v.searchEmail && r.searchRunningTask == v.searchRunningTask
  {
    match fetched
    case None => v
    case Some(data) => v.(tasks := TargetTasks(data), filteredTasks := TargetTasks(data))
  }

  function Edit(v: View, searchEmail: string, searchRunningTask: string): View {
    v.(searchEmail := searchEmail, searchRunningTask := searchRunningTask)
  }

  /** `handleSearch`. */
  function Search(v: View): View {
    v.(filteredTasks := Filter(v.tasks, Matcher(v.searchEmail, v.searchRunningTask)))
  }

  /** Search shows exactly the loaded tasks that match, in their order. */
  lemma SearchFinds(v: View)
    ensures forall t :: t in Search(v).filteredTasks <==> t in v.tasks && Matches(t, v.searchEmail, v.searchRunningTask)
    ensures Search(v).tasks == v.tasks
  {
  }

  /** A target field that is no number hides everything. */
  lemma NonNumericTargetFindsNothing(v: View)
    requires v.searchRunningTask != "" && ParseInt(v.searchRunningTask).None?
    ensures Search(v).filteredTasks == []
  {
    var r := Search(v).filteredTasks;
    assert |r| > 0 ==> Matches(r[0], v.searchEmail, v.searchRunningTask);
  }

  /** A typed number finds only tasks with that target. */
  lemma TargetSearchExact(v: View, n: int)
    requires v.searchRunningTask == IntToString(n)
    ensures forall t :: t in Search(v).filteredTasks ==> t.targetTask == Some(n)
  {
    ParseIntRoundTrip(n);
  }

  /** `handleReset`: both inputs empty and all loaded tasks shown. */
  function Reset(v: View): (r: View)
    ensures r.searchEmail == "" && r.searchRunningTask == "" && r.filteredTasks == v.tasks && r.tasks == v.tasks
  {
    View(v.tasks, v.tasks, "", "")
  }

  /** After a reset a search shows everything again. */
  lemma ResetThenSearchShowsAll(v: View)
    ensures Search(Reset(v)).filteredTasks == v.tasks
  {
    forall t ensures Matcher("", "")(t) {
      ContainsEmpty(Lower(t.username));
    }
    FilterAllPass(v.tasks, Matcher("", ""));
  }
}
