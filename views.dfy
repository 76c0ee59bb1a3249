/** Pure queries over the local task list: the `find` lookup of
    `handleToggle` (App.js:70) and the filtered view `filteredTasks`
    (App.js:96-101). */
module Views {
  import opened Tasks

  /** `s` is `t` with some elements left out, the rest kept in order. */
  predicate IsSubsequence(s: seq<Task>, t: seq<Task>)
    decreases |t|
  {
    if s == [] then true
    else if t == [] then false
    else if s[0] == t[0] then IsSubsequence(s[1..], t[1..])
    else IsSubsequence(s, t[1..])
  }

  lemma {:induction false} SubsequenceRefl(t: seq<Task>)
    ensures IsSubsequence(t, t)
    decreases |t|
  {
    if t != [] {
      SubsequenceRefl(t[1..]);
    }
  }

  /** `tasks.find(task => task.id === id)` (App.js:70): the first task with
      that id, or nothing when no task has it. */
  function Find(tasks: seq<Task>, id: TaskId): (r: Option<Task>)
    ensures r.None? <==> forall i :: 0 <= i < |tasks| ==> tasks[i].id != id
    ensures r.Some? ==> r.value.id == id
    ensures r.Some? ==> exists i :: 0 <= i < |tasks| && tasks[i] == r.value &&
                                    forall j :: 0 <= j < i ==> tasks[j].id != id
  {
    if tasks == [] then None
    else if tasks[0].id == id then Some(tasks[0])
    else
      var r := Find(tasks[1..], id);
      assert forall i :: 1 <= i < |tasks| ==> tasks[i] == tasks[1..][i - 1];
      r
  }

  /** `tasks.filter(task => task.completed == want)`: the tasks whose
      `completed` is `want`, in their original order. */
  function Select(tasks: seq<Task>, want: bool): (r: seq<Task>)
    ensures forall t :: t in r <==> t in tasks && t.completed == want
    ensures forall t :: multiset(r)[t] == if t.completed == want then multiset(tasks)[t] else 0
    ensures IsSubsequence(r, tasks)
    ensures |r| <= |tasks|
  {
    if tasks == [] then []
    else
      assert tasks == [tasks[0]] + tasks[1..];
      if tasks[0].completed == want then [tasks[0]] + Select(tasks[1..], want)
      else Select(tasks[1..], want)
  }

  /** `filteredTasks` (App.js:96-101): "All" shows every task, "Completed"
      the completed ones, and every other filter value the incomplete ones. */
  function Visible(tasks: seq<Task>, filter: string): (r: seq<Task>)
    ensures filter == "All" ==> r == tasks
    ensures filter != "All" ==> forall t :: t in r <==> t in tasks && t.completed == (filter == "Completed")
    ensures filter != "All" ==> forall t ::
      multiset(r)[t] == if t.completed == (filter == "Completed") then multiset(tasks)[t] else 0
    ensures IsSubsequence(r, tasks)
  {
    if filter == "All" then
      SubsequenceRefl(tasks);
      tasks
    else if filter == "Completed" then Select(tasks, true)
    else Select(tasks, false)
  }

  /** The completed and the incomplete views split the list: together they
      hold every task exactly as often as the list does. */
  lemma SelectPartition(tasks: seq<Task>)
    ensures multiset(Select(tasks, true)) + multiset(Select(tasks, false)) == multiset(tasks)
    ensures |Select(tasks, true)| + |Select(tasks, false)| == |tasks|
  {
    assert forall t :: (multiset(Select(tasks, true)) + multiset(Select(tasks, false)))[t] == multiset(tasks)[t];
    assert multiset(Select(tasks, true)) + multiset(Select(tasks, false)) == multiset(tasks);
    assert |multiset(Select(tasks, true)) + multiset(Select(tasks, false))| == |multiset(tasks)|;
  }

  /** "Completed" and any filter other than "All" and "Completed" account
      for every task between them. */
  lemma VisiblePartition(tasks: seq<Task>, other: string)
    requires other != "All" && other != "Completed"
    ensures |Visible(tasks, "Completed")| + |Visible(tasks, other)| == |tasks|
    ensures multiset(Visible(tasks, "Completed")) + multiset(Visible(tasks, other)) == multiset(tasks)
  {
    SelectPartition(tasks);
  }
}
