# Task manager store, modelled in Dafny

The task manager is one React component, `App` in `App.js`. It holds three
pieces of state: the task list, the active filter and the task being edited.
Every change goes to a remote task service over four HTTP calls:
`GET /tasks`, `POST /tasks`, `PUT /tasks/{id}` and `DELETE /tasks/{id}`.
After each successful change the component reloads the whole list from the
service. It never patches the list locally.

This project models that store:

- `tasks.dfy`, module `Tasks`: the local task shape `{id, text, dueDate,
  priority, completed}` and the wire shape `{id, name, due_date, priority,
  completed}`. It also holds the read mapping of `refreshTasks` and the two
  write mappings, the body built by `handleAdd` and the one built by
  `handleToggle`. JavaScript's `!!` coercion of the wire `completed` is
  modelled over the JSON values a service may send (`Truthy`). The form's
  `completed` is also such a value: `handleAdd` forwards it uncoerced, so a
  form that leaves it out sends `undefined` (the field is then omitted from
  the JSON body).
- `views.dfy`, module `Views`: the `find` lookup that `handleToggle` uses and
  the filtered view `filteredTasks`. The filter is kept as a string, as in the
  source. `"All"` shows everything and `"Completed"` shows the completed
  tasks. Any other string shows the incomplete tasks.
- `store.dfy`, module `Store`: the class `TaskStore`, with fields `tasks`,
  `filter` and `editTask`, and one method per handler. Each remote call is
  replaced by a parameter holding the outcome it had:
  - `Outcome` (Success or Failure) for a create, update or delete;
  - `Fetch` (the listed rows, or a failure) for the reload that follows a
    success.

  Each handler returns the requests it sent, in order, so "no request" and
  "no reload on failure" can be stated directly. A ghost field `served` holds
  the rows of the last listing that reached the store. `Valid()` links the
  two: `tasks` is always the read mapping of `served`. It is a link, not a
  constraint on which lists are possible; what it buys is that every handler
  states both `tasks` and `served` after a successful reload, and leaves both
  alone otherwise, so `tasks` changes only when a listing arrives.
- `MountAddDelete` (in `store.dfy`) is a client that uses only the contracts.
  The store starts empty and loads a one-row listing; the form then creates a
  task; a delete that fails and a toggle of an unknown id change nothing.

`Store.TaskStore.FilteredTasks` (App.js:96-101) is `Views.Visible` applied
to the store's `tasks` and `filter`; its row is `Views.Visible`. It is a
function that reads the store, and Dafny functions cannot change state, so
computing the view changes none of `tasks`, `filter` or `editTask`.

## Model

| member | source | states |
|---|---|---|
| `Tasks.Truthy` | App.js:31 | `!!v` is false exactly for the falsy values null, undefined, false, 0 and the empty string |
| `Tasks.FromWire` | App.js:26-32 | one row maps to a task with the same id and priority, text = name, dueDate = due_date, and completed true exactly when the wire value is truthy |
| `Tasks.FromWireAll` | App.js:26-33 | the list built from a listing has the listing's length and order; entry i is row i mapped field by field, with completed coerced to a boolean |
| `Tasks.ToWire` | App.js:40-45 | the create/update body forwards the form's `completed` uncoerced; whatever id the service stores it under, reading it back gives the submitted text, dueDate and priority with `completed` coerced, and for a boolean `completed` exactly the submitted value |
| `Tasks.LocalRoundTrip` | App.js:26-45 | local to wire to local is the identity on every task |
| `Tasks.WireRoundTrip` | App.js:26-45 | wire to local to wire gives back the row exactly when its `completed` was already a boolean (both directions) |
| `Tasks.ReloadRoundTrip` | App.js:26-45 | reloading the rows written from a task list reproduces that list: same length, order and fields |
| `Tasks.ToggleBody` | App.js:72-77 | read back under the task's id, the toggle body is the task with `completed` negated and every other field unchanged; it equals the form's write mapping of the flipped fields |
| `Tasks.ToggleTwice` | App.js:72-77 | toggling the task a toggle produced sends the original task's fields back |
| `Views.Find` | App.js:70 | no result exactly when no task has the id; otherwise the result has the id and is the task at the first index with that id |
| `Views.Select` | App.js:100-101 | exactly the tasks whose completed equals the wanted value are kept, every copy of each and none of any other, as a subsequence of the list in its original order |
| `Views.SelectPartition` | App.js:100-101 | the completed and incomplete selections together hold every task of the list as often as the list does, and their lengths sum to the list's length |
| `Views.Visible` | App.js:96-101 | "All" returns the list unchanged; any other filter returns exactly the tasks whose completed equals (filter == "Completed"), every copy of each, in order |
| `Views.VisiblePartition` | App.js:96-101 | the "Completed" view and the view of any filter other than "All" and "Completed" split the list: their lengths sum to its length and their multisets to its multiset |
| `Store.Trace` | App.js:47-58 | a mutation sends its own request first and then a reload exactly when it succeeded |
| `Store.SubmitRequest` | App.js:40-58 | an update for the edit target's id exactly when there is an edit target, a create exactly when there is none; both carry the form's write mapping |
| `Store.ToggleRequest` | App.js:69-79 | no request exactly when no task has the id; otherwise an update of that id whose body is the first task with that id, `completed` flipped |
| `Store.TaskStore.constructor` | App.js:12-14 | the store starts with no tasks, filter "All" and no edit target |
| `Store.TaskStore.Refresh` | App.js:22-36 | a listing replaces the tasks wholesale by its read mapping and becomes the last listing; a failed listing changes nothing; filter and edit target are never touched |
| `Store.TaskStore.Submit` | App.js:39-59 | sends the update or the create chosen by the edit target, then a reload only on success; the edit target is cleared only when an update succeeds (kept when it fails, untouched by a create); after a successful reload the tasks are its listing's read mapping, otherwise they are unchanged |
| `Store.TaskStore.Remove` | App.js:62-66 | sends a delete for the id as given, then a reload only on success; after a successful reload the tasks are its listing's read mapping, on failure they are unchanged; filter and edit target are never touched |
| `Store.TaskStore.Toggle` | App.js:69-83 | with no task of that id nothing is sent and nothing changes; otherwise sends the flipped first task with that id, then a reload only on success; after a successful reload the tasks are its listing's read mapping, otherwise they are unchanged |
| `Store.TaskStore.BeginEdit` | App.js:86-88 | the given task becomes the edit target and nothing else changes |
| `Store.TaskStore.SetFilter` | App.js:13 | the filter becomes the given mode and nothing else changes |

## Left out

- HTTP transport (axios, the URLs, `localhost:5000`): each call is a parameter holding its outcome, and the reload is a parameter holding the listed rows.
- React machinery: `useState`, the `useEffect` initial load (App.js:18-20) and the JSX (App.js:103-111). The constructor gives the initial state; the initial load is a call to `Refresh`.
- Asynchrony: out-of-order responses and requests in flight at the same time are not modelled. Each handler's remote call and the reload after it complete before the next handler runs.
- Dark mode (App.js:15, 91-93, 104) is presentation only, and so is `console.error` logging.
- The child components `AddTask`, `TaskList`, `FilterTasks` and `DarkModeToggle` are not part of this model. They only raise the intents modelled by the handlers.
- Tasks.Truthy: `completed` values that are fractional numbers, NaN, objects or arrays are not modelled; numbers are integers.
- Store.TaskStore.BeginEdit: the handler accepts any value, including `null`. Here it always gets a task, so "begin edit with nothing" (which would put the form back on the create path) is not modelled.
- What the service stores for a body whose `completed` is omitted (a default of its own, presumably) is not modelled: `Tasks.Stored` keeps the body's value, which the read mapping turns into false.
- The service is trusted to list ids and fields as they are stored (`Tasks.Stored`). The round-trip lemmas rest on that; the store's own contracts do not.
