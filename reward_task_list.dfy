/**
 * The reward task list: the fetched reward tasks with a username search and a delete
 * that applies only when the server reports a removed document.
 */
module RewardTaskList {
  import opened Wrappers
  import opened Text
  import opened Collections

  /** A reward task; `targetTask` is None when the field is missing. */
  datatype RewardTask = RewardTask(id: string, username: string, targetTask: Option<int>)

  /** The page state. */
  datatype View = View(tasks: seq<RewardTask>, filteredTasks: seq<RewardTask>, searchEmail: string, searchRunningTask: string)

  const Initial := View([], [], "", "")

  /**
   * The username contains the term ignoring case and, when a target number is set, the
   * target task equals `parseInt` of it.
   */
  predicate Matches(t: RewardTask, searchEmail: string, searchRunningTask: string) {
    ContainsCI(t.username, searchEmail)
    && (searchRunningTask == "" || (ParseInt(searchRunningTask).Some? && t.targetTask == ParseInt(searchRunningTask)))
  }

  function Matcher(searchEmail: string, searchRunningTask: string): RewardTask -> bool {
    t => Matches(t, searchEmail, searchRunningTask)
  }

  function Other(id: string): RewardTask -> bool {
    (t: RewardTask) => t.id != id
  }

  /** The fetch fills both lists; a failed fetch leaves the page as it was. */
  function Load(v: View, fetched: Option<seq<RewardTask>>): (r: View)
    ensures fetched.Some? ==> r.tasks == fetched.value && r.filteredTasks == fetched.value
    ensures fetched.None? ==> r == v
    ensures r.searchEmail == v.searchEmail && r.searchRunningTask == v.searchRunningTask
  {
    if fetched.Some? then v.(tasks := fetched.value, filteredTasks := fetched.value) else v
  }

  /** Typing in the username box, the only search input on the page. */
  function EditEmail(v: View, s: string): (r: View)
    ensures r.searchEmail == s && r.tasks == v.tasks && r.filteredTasks == v.filteredTasks
    ensures r.searchRunningTask == v.searchRunningTask
  {
    v.(searchEmail := s)
  }

  /** `handleSearch`. */
  function Search(v: View): View {
    v.(filteredTasks := Filter(v.tasks, Matcher(v.searchEmail, v.searchRunningTask)))
  }

  /** Search shows exactly the loaded tasks that match, in their order. */
  lemma SearchFinds(v: View)
    ensures forall t :: t in Search(v).filteredTasks <==> t in v.tasks && Matches(t, v.searchEmail, v.searchRunningTask)
    ensures Search(v).tasks == v.tasks
  {
  }

  /** `handleReset`. */
  function Reset(v: View): (r: View)
    ensures r.searchEmail == "" && r.searchRunningTask == "" && r.tasks == v.tasks && r.filteredTasks == v.tasks
  {
    View(v.tasks, v.tasks, "", "")
  }

  /**
   * `handleDelete` once the server answered with `deletedCount` (None when the request or
   * its reading failed): a positive count removes the task from both lists, taking the
   * survivors of the full list; anything else changes nothing.
   */
  function Delete(v: View, id: string, deletedCount: Option<int>): View {
    if deletedCount.Some? && deletedCount.value > 0 then
      v.(tasks := Filter(v.tasks, Other(id)), filteredTasks := Filter(v.tasks, Other(id)))
    else v
  }

  /** A delete keeps every other task, in order, and drops every task with that id. */
  lemma DeleteOnlyThatId(v: View, id: string, n: int)
    requires n > 0
    ensures forall t :: t in Delete(v, id, Some(n)).tasks <==> t in v.tasks && t.id != id
    ensures Delete(v, id, Some(n)).filteredTasks == Delete(v, id, Some(n)).tasks
  {
  }

  /** Without a positive count the page stays as it was. */
  lemma DeleteRefused(v: View, id: string, count: Option<int>)
    requires count.None? || count.value <= 0
    ensures Delete(v, id, count) == v
  {
  }

  // ---------------------------------------------------------------- what the page lets happen

  /** What a user can do on the page: the target-number box is not rendered. */
  datatype Event = Loaded(fetched: Option<seq<RewardTask>>) | Typed(s: string) | Searched | ResetPressed
                 | Deleted(id: string, deletedCount: Option<int>)

  function Step(v: View, e: Event): View {
    match e
    case Loaded(f) => Load(v, f)
    case Typed(s) => EditEmail(v, s)
    case Searched => Search(v)
    case ResetPressed => Reset(v)
    case Deleted(id, n) => Delete(v, id, n)
  }

  function Run(v: View, es: seq<Event>): View
    decreases |es|
  {
    if es == [] then v else Run(Step(v, es[0]), es[1..])
  }

  /** The target number stays empty whatever happens, so the search is by username alone. */
  lemma {:induction false} RunningTaskStaysEmpty(v: View, es: seq<Event>)
    requires v.searchRunningTask == ""
    ensures Run(v, es).searchRunningTask == ""
    ensures forall t :: Matches(t, Run(v, es).searchEmail, Run(v, es).searchRunningTask) <==>
      ContainsCI(t.username, Run(v, es).searchEmail)
    decreases |es|
  {
    if es != [] {
      RunningTaskStaysEmpty(Step(v, es[0]), es[1..]);
    }
  }
}
