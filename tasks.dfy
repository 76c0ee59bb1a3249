/** Tasks as the task manager holds them locally and as the remote task
    service sends and receives them, and the field mappings between the two
    shapes (App.js, `refreshTasks` and the request bodies of `handleAdd`
    and `handleToggle`). */
module Tasks {

  datatype Option<+T> = None | Some(value: T)

  /** Identifier assigned by the remote service; compared with `===`. */
  type TaskId = int

  /** A JSON value as the service may send it in a row's `completed`
      column (a boolean, or a 0/1 number when the database has no boolean
      type). Numbers are integral here. */
  datatype JsValue =
    | JsNull
    | JsUndefined
    | JsBool(b: bool)
    | JsNumber(n: int)
    | JsString(s: string)

  /** JavaScript's `!!v`: false exactly for the falsy values null,
      undefined, false, 0 and "". */
  predicate Truthy(v: JsValue)
    ensures !Truthy(v) <==> v in [JsNull, JsUndefined, JsBool(false), JsNumber(0), JsString("")]
  {
    match v
    case JsNull => false
    case JsUndefined => false
    case JsBool(b) => b
    case JsNumber(n) => n != 0
    case JsString(s) => s != ""
  }

  /** A task in local (display) form: `{id, text, dueDate, priority, completed}`. */
  datatype Task = Task(id: TaskId, text: string, dueDate: Option<string>, priority: string, completed: bool)

  /** What the add/edit form submits: the local fields without an id.
      Its `completed` is whatever value the form passes (`JsUndefined` when
      the form leaves it out). */
  datatype Draft = Draft(text: string, dueDate: Option<string>, priority: string, completed: JsValue)

  /** A row of `GET /tasks`: `{id, name, due_date, priority, completed}`. */
  datatype WireTask = WireTask(id: TaskId, name: string, dueDate: Option<string>, priority: string, completed: JsValue)

  /** The body of `POST /tasks` and `PUT /tasks/{id}`: `{name, due_date, priority, completed}`. */
  datatype WireBody = WireBody(name: string, dueDate: Option<string>, priority: string, completed: JsValue)

  /** The row the service lists under `id` once it has stored `body`
      (the remote contract: PUT replaces a record's fields with the body). */
  function Stored(id: TaskId, body: WireBody): WireTask
  {
    WireTask(id, body.name, body.dueDate, body.priority, body.completed)
  }

  /** The editable fields of a local task, as the form would resubmit them. */
  function DraftOf(t: Task): Draft
  {
    Draft(t.text, t.dueDate, t.priority, JsBool(t.completed))
  }

  /** Read mapping of one row (App.js:26-32). */
  function FromWire(w: WireTask): (t: Task)
    ensures t.id == w.id && t.text == w.name && t.dueDate == w.dueDate && t.priority == w.priority
    ensures t.completed <==> Truthy(w.completed)
  {
    Task(w.id, w.name, w.dueDate, w.priority, Truthy(w.completed))
  }

  /** Read mapping of a whole listing, `res.data.map(...)` (App.js:26-32):
      same length, same order, each row mapped field by field. */
  function FromWireAll(rows: seq<WireTask>): (ts: seq<Task>)
    ensures |ts| == |rows|
    ensures forall i :: 0 <= i < |rows| ==>
      && ts[i].id == rows[i].id
      && ts[i].text == rows[i].name
      && ts[i].dueDate == rows[i].dueDate
      && ts[i].priority == rows[i].priority
      && (ts[i].completed <==> Truthy(rows[i].completed))
  {
    seq(|rows|, i requires 0 <= i < |rows| => FromWire(rows[i]))
  }

  /** Write mapping of the form's task (App.js:40-45). `completed` is
      forwarded as given, not coerced. Whatever id the service stores the
      body under, reading the row back gives the submitted text, dueDate and
      priority, and `completed` coerced by the read mapping; for a boolean
      `completed` that is exactly the submitted value. */
  function ToWire(d: Draft): (b: WireBody)
    ensures b.completed == d.completed
    ensures forall id :: FromWire(Stored(id, b)) == Task(id, d.text, d.dueDate, d.priority, Truthy(d.completed))
    ensures d.completed.JsBool? ==>
      forall id :: FromWire(Stored(id, b)) == Task(id, d.text, d.dueDate, d.priority, d.completed.b)
  {
    WireBody(d.text, d.dueDate, d.priority, d.completed)
  }

  /** Update body of a toggle (App.js:72-77): reading it back under the
      task's id gives the task with `completed` flipped and no other field
      changed; it is the form's write mapping of the flipped fields. */
  function ToggleBody(t: Task): (b: WireBody)
    ensures FromWire(Stored(t.id, b)) == t.(completed := !t.completed)
    ensures b == ToWire(Draft(t.text, t.dueDate, t.priority, JsBool(!t.completed)))
  {
    WireBody(t.text, t.dueDate, t.priority, JsBool(!t.completed))
  }

  /** Toggling the task that a successful toggle leaves behind sends the
      task's original fields back. */
  lemma ToggleTwice(t: Task)
    ensures ToggleBody(FromWire(Stored(t.id, ToggleBody(t)))) == ToWire(DraftOf(t))
  {
  }

  /** Local -> wire -> local is the identity (App.js:40-45 then 26-32). */
  lemma LocalRoundTrip(t: Task)
    ensures FromWire(Stored(t.id, ToWire(DraftOf(t)))) == t
  {
  }

  /** Wire -> local -> wire gives back the row's body exactly when the row's
      `completed` was already a boolean: `!!` normalises 0/1, null and
      strings to booleans. */
  lemma WireRoundTrip(w: WireTask)
    ensures Stored(w.id, ToWire(DraftOf(FromWire(w)))) == w <==> w.completed.JsBool?
  {
  }

  /** The rows the service lists after storing every local task's body
      under the task's id. */
  function Published(ts: seq<Task>): (rows: seq<WireTask>)
    ensures |rows| == |ts|
    ensures forall i :: 0 <= i < |ts| ==> rows[i].id == ts[i].id
  {
    seq(|ts|, i requires 0 <= i < |ts| => Stored(ts[i].id, ToWire(DraftOf(ts[i]))))
  }

  /** Reloading what was written reproduces the local list exactly: same
      length, same order, same fields. */
  lemma ReloadRoundTrip(ts: seq<Task>)
    ensures FromWireAll(Published(ts)) == ts
  {
    forall i | 0 <= i < |ts|
      ensures FromWireAll(Published(ts))[i] == ts[i]
    {
      LocalRoundTrip(ts[i]);
    }
  }
}
