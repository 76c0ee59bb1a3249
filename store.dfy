/** The state of the `App` component (App.js:12-14) and its handlers, with
    every remote call replaced by the outcome it had. */
module Store {
  import opened Tasks
  import opened Views

  /** The four requests the store sends to the task service. */
  datatype Request =
    | List                                   // GET /tasks
    | Create(body: WireBody)                 // POST /tasks
    | Update(id: TaskId, body: WireBody)     // PUT /tasks/{id}
    | Delete(id: TaskId)                     // DELETE /tasks/{id}

  /** How a create, update or delete request ended. */
  datatype Outcome = Success | Failure

  /** How the reload request `GET /tasks` ended: the listed rows, or an error. */
  datatype Fetch = Fetched(rows: seq<WireTask>) | FetchFailed

  /** The requests a mutation sends: the mutation itself, then a reload
      only when it succeeded. */
  function Trace(request: Request, outcome: Outcome): (sent: seq<Request>)
    ensures 1 <= |sent| <= 2 && sent[0] == request
    ensures |sent| == 2 <==> outcome.Success?
    ensures |sent| == 2 ==> sent[1] == List
  {
    if outcome.Success? then [request, List] else [request]
  }

  /** The form's request (App.js:47-58): an update of the task being edited
      when there is one, a create otherwise, both carrying the form's
      fields in wire form. */
  function SubmitRequest(editTask: Option<Task>, draft: Draft): (r: Request)
    ensures r.Update? <==> editTask.Some?
    ensures r.Create? <==> editTask.None?
    ensures r.Update? ==> r.id == editTask.value.id && r.body == ToWire(draft)
    ensures r.Create? ==> r.body == ToWire(draft)
  {
    match editTask
    case Some(t) => Update(t.id, ToWire(draft))
    case None => Create(ToWire(draft))
  }

  /** The request a toggle sends (App.js:70-79): none when no local task has
      the id, otherwise an update of that id whose body is the first such
      task with `completed` flipped. */
  function ToggleRequest(tasks: seq<Task>, id: TaskId): (r: Option<Request>)
    ensures r.None? <==> forall i :: 0 <= i < |tasks| ==> tasks[i].id != id
    ensures r.Some? ==> r.value.Update? && r.value.id == id && r.value.body.completed.JsBool?
    ensures r.Some? ==> exists i :: 0 <= i < |tasks| && (forall j :: 0 <= j < i ==> tasks[j].id != id) &&
                                    tasks[i].id == id && r.value == Update(id, ToggleBody(tasks[i]))
  {
    match Find(tasks, id)
    case None => None
    case Some(t) => Some(Update(id, ToggleBody(t)))
  }

  class TaskStore {
    var tasks: seq<Task>
    var filter: string
    var editTask: Option<Task>
    /** The rows of the last listing that reached the store. */
    ghost var served: seq<WireTask>

    /** Links the local list to the last listing that reached the store:
        `tasks` is always that listing's read mapping, so it changes only
        when a listing arrives. */
    ghost predicate Valid()
      reads this
    {
      tasks == FromWireAll(served)
    }

    /** `useState([])`, `useState("All")`, `useState(null)` (App.js:12-14). */
    constructor ()
      ensures Valid()
      ensures tasks == [] && filter == "All" && editTask == None && served == []
    {
      tasks := [];
      filter := "All";
      editTask := None;
      served := [];
    }

    /** `filteredTasks` (App.js:96-101): a function of the state that reads
        it and changes none of it. */
    function FilteredTasks(): seq<Task>
      reads this
    {
      Visible(tasks, filter)
    }

    /** `refreshTasks` (App.js:22-36): a listing replaces the tasks wholesale
        by its read mapping; a failed listing changes nothing. */
    method Refresh(fetch: Fetch)
      requires Valid()
      modifies this
      ensures Valid()
      ensures fetch.Fetched? ==> tasks == FromWireAll(fetch.rows) && served == fetch.rows
      ensures fetch.FetchFailed? ==> tasks == old(tasks) && served == old(served)
      ensures filter == old(filter) && editTask == old(editTask)
    {
      match fetch
      case Fetched(rows) =>
        tasks := FromWireAll(rows);
        served := rows;
      case FetchFailed =>
    }

    /** `handleAdd` (App.js:39-59): update the task being edited, or create
        a new one. On success an update also leaves edit mode, and either
        path reloads; on failure nothing changes. */
    method Submit(draft: Draft, outcome: Outcome, fetch: Fetch) returns (sent: seq<Request>)
      requires Valid()
      modifies this
      ensures Valid()
      ensures sent == Trace(SubmitRequest(old(editTask), draft), outcome)
      ensures editTask == if old(editTask).Some? && outcome.Success? then None else old(editTask)
      ensures outcome.Success? && fetch.Fetched? ==> tasks == FromWireAll(fetch.rows) && served == fetch.rows
      ensures outcome.Failure? || fetch.FetchFailed? ==> tasks == old(tasks) && served == old(served)
      ensures filter == old(filter)
    {
      var body := ToWire(draft);
      if editTask.Some? {
        var request := Update(editTask.value.id, body);
        sent := [request];
        if outcome.Success? {
          editTask := None;
          Refresh(fetch);
          sent := sent + [List];
        }
      } else {
        var request := Create(body);
        sent := [request];
        if outcome.Success? {
          Refresh(fetch);
          sent := sent + [List];
        }
      }
    }

    /** `handleDelete` (App.js:62-66): the id is sent as given, whether or
        not a local task has it; success reloads, failure changes nothing. */
    method Remove(id: TaskId, outcome: Outcome, fetch: Fetch) returns (sent: seq<Request>)
      requires Valid()
      modifies this
      ensures Valid()
      ensures sent == Trace(Delete(id), outcome)
      ensures outcome.Success? && fetch.Fetched? ==> tasks == FromWireAll(fetch.rows) && served == fetch.rows
      ensures outcome.Failure? || fetch.FetchFailed? ==> tasks == old(tasks) && served == old(served)
      ensures filter == old(filter) && editTask == old(editTask)
    {
      sent := [Delete(id)];
      if outcome.Success? {
        Refresh(fetch);
        sent := sent + [List];
      }
    }

    /** `handleToggle` (App.js:69-83): when no local task has the id nothing
        is sent and nothing changes; otherwise the first task with the id is
        sent back with `completed` flipped, and success reloads. */
    method Toggle(id: TaskId, outcome: Outcome, fetch: Fetch) returns (sent: seq<Request>)
      requires Valid()
      modifies this
      ensures Valid()
      ensures ToggleRequest(old(tasks), id).None? ==> sent == [] && tasks == old(tasks) && served == old(served)
      ensures ToggleRequest(old(tasks), id).Some? ==> sent == Trace(ToggleRequest(old(tasks), id).value, outcome)
      ensures outcome.Success? && fetch.Fetched? && ToggleRequest(old(tasks), id).Some? ==>
        tasks == FromWireAll(fetch.rows) && served == fetch.rows
      ensures outcome.Failure? || fetch.FetchFailed? ==> tasks == old(tasks) && served == old(served)
      ensures filter == old(filter) && editTask == old(editTask)
    {
      sent := [];
      var found := Find(tasks, id);
      if found.Some? {
        var request := Update(id, ToggleBody(found.value));
        sent := [request];
        if outcome.Success? {
          Refresh(fetch);
          sent := sent + [List];
        }
      }
    }

    /** `handleEdit` (App.js:86-88): the given task becomes the edit target. */
    method BeginEdit(t: Task)
      requires Valid()
      modifies this
      ensures Valid()
      ensures editTask == Some(t)
      ensures tasks == old(tasks) && served == old(served) && filter == old(filter)
    {
      editTask := Some(t);
    }

    /** `setFilter` as passed to the filter control (App.js:108): only the
        filter changes. */
    method SetFilter(mode: string)
      requires Valid()
      modifies this
      ensures Valid()
      ensures filter == mode
      ensures tasks == old(tasks) && served == old(served) && editTask == old(editTask)
    {
      filter := mode;
    }
  }
}

/** A client of the store: the component mounts with no tasks and loads the
    listing, the form creates a task, and a failed delete leaves the list as
    the last listing left it. */
method MountAddDelete()
{
  var store := new Store.TaskStore();
  var milk := Tasks.WireTask(1, "Buy milk", Tasks.Some("2024-01-01"), "High", Tasks.JsBool(false));
  store.Refresh(Store.Fetched([milk]));
  assert store.tasks == [Tasks.Task(1, "Buy milk", Tasks.Some("2024-01-01"), "High", false)];

  var draft := Tasks.Draft("New", Tasks.None, "Low", Tasks.JsBool(false));
  var sent := store.Submit(draft, Store.Success, Store.FetchFailed);
  assert sent == [Store.Create(Tasks.WireBody("New", Tasks.None, "Low", Tasks.JsBool(false))), Store.List];
  assert store.tasks == [Tasks.Task(1, "Buy milk", Tasks.Some("2024-01-01"), "High", false)];

  var before := store.tasks;
  sent := store.Remove(3, Store.Failure, Store.Fetched([]));
  assert sent == [Store.Delete(3)] && store.tasks == before;

  sent := store.Toggle(7, Store.Success, Store.Fetched([]));
  assert sent == [] && store.tasks == before;
}
