# Task store of the Task Handling API, modelled in Dafny

The Task Handling API is a small Flask service keeping an ordered, in-memory
list of task records (`task_list`). Each task has an id, a name, details, a
state (`pending`, `in_progress` or `completed`) and creation and modification
stamps. Under the HTTP layer sit a lookup by id (`get_task`), a payload
validator (`check_task_payload`) and the store logic of six route handlers:
list with an optional state filter, fetch one, create, partial update,
delete one, and clear all.

This project models that logic as pure functions. A handler takes the store
and the request's inputs and returns a `Reply`: the response (status code and
JSON envelope body) and the store it leaves behind. The clock reading `now`
and the generated id `freshId` are parameters.

Files and modules:

- `text.dfy`, module `Text`: Python's `str.strip()` over the exact character
  set of `str.isspace()`, and `sep.join(...)`.
- `seqs.dfy`, modules `Optional` and `Seqs`: the list idioms the handlers use.
  These are `next(x for x in xs if p(x))`, a filtering comprehension, and
  `list.remove(x)`.
- `tasks.dfy`, module `Tasks`: the `State` and `Task` datatypes, the store,
  payloads, and lookup by id.
- `validation.dfy`, module `Validation`: `check_task_payload` and the error
  texts of the envelopes.
- `api.dfy`, module `Api`: the handlers and a `Handle` dispatcher over the
  store-facing routes.
- `properties.dfy`, module `Properties`: the store invariant and lemmas that
  relate several handler calls.

Modelling choices:

- A request body is `Option<Payload>`, where `Payload = map<string, string>`.
  `None` stands for a JSON body that is not an object and that Python treats
  as false: `null`, `[]`, `""`, `0` or `false`. The empty object `{}` is the
  empty map. `if not payload` holds for exactly these bodies (`NoPayload`).
  The model keeps "key absent" distinct from "key blank".
- `check_task_payload` returns `(True, "")` or `(False, msg)`. The model
  returns `None` for the first and `Some(f)` for the second, where
  `Message(f)` is `msg`. Both call sites pass `must_have` explicitly, so the
  `["name"]` default is not modelled separately.
- A task's state is a three-constructor datatype. The list filter compares
  the state's wire name with the raw query string, as the source does.
- Timestamps are integers. Only their order matters to the properties.
- `if not task` in the handlers is the same as `task is None`, because a task record is a non-empty dict.
- `task_list.remove(task)` is modelled as written: drop the first element
  *equal* to the found task. `Seqs.RemoveFirstAt` proves that this drops
  exactly the position `get_task` found.

Two behaviours of the code worth stating plainly:

- The list filter compares the raw `state` query string with each task's
  state. A non-empty filter that names no state lists nothing, with 200; it
  is not refused (`Properties.ListingUnknownState`).
- The "Missing JSON data" 400 (lines 123 and 151) answers only a body that
  parsed to a falsy JSON value. Flask's `get_json()` refuses a malformed body
  itself, before `if not payload` runs.

## Model

| member | source | states |
|---|---|---|
| Text.Strip | restapi_IMT2023540.py:51 | `strip()` leaves a string with no whitespace at either end. The result is empty exactly when the input is all whitespace. The input is leading whitespace, then the result, then trailing whitespace. |
| Text.StripOfPadded | restapi_IMT2023540.py:133 | Stripping any whitespace padding from around a trimmed string gives back that string. Together with `Strip`'s contract, this pins `strip()` down uniquely. |
| Text.StripIdempotent | restapi_IMT2023540.py:158-159 | Stripping a stripped name again changes nothing. |
| Seqs.FirstIndex | restapi_IMT2023540.py:42 | `next(...)` over a filtering generator finds the first position whose element satisfies the test. It gives `None` exactly when no element does. |
| Seqs.Filter | restapi_IMT2023540.py:103 | A filtering comprehension keeps only elements that satisfy the test. It keeps every element of the input that does. |
| Seqs.FilterAppend | restapi_IMT2023540.py:103 | Filtering distributes over concatenation, so the kept elements stay in their original relative order. |
| Seqs.RemoveFirst | restapi_IMT2023540.py:175 | `list.remove(x)` requires `x` to be present, and it shortens the list by one. |
| Seqs.RemoveFirstAt | restapi_IMT2023540.py:175 | `list.remove(x)` drops exactly the first position holding `x`. Everything before and after that position is kept in order. |
| Seqs.RemoveFirstMultiset | restapi_IMT2023540.py:175 | `list.remove(x)` removes one occurrence of `x` and keeps every other element. |
| Tasks.ParseState | restapi_IMT2023540.py:54-55 | A state name is accepted exactly when it is one of `valid_states`. An accepted name reads back as a state spelled that way. |
| Tasks.ParseName | restapi_IMT2023540.py:54 | Every state is spelled as one of `valid_states` and reads back as itself. |
| Tasks.IndexOf | restapi_IMT2023540.py:41-42 | The lookup finds the first task in list order carrying the id. It finds nothing exactly when no task carries it. |
| Tasks.GetTask | restapi_IMT2023540.py:41-42 | `get_task` returns a stored task with the requested id. It returns `None` exactly when no task has that id. |
| Tasks.GetTaskIsFirstMatch | restapi_IMT2023540.py:41-42 | `get_task` returns the head of the list of all tasks with the id, which is what `next(..., None)` yields. |
| Validation.CheckTaskPayload | restapi_IMT2023540.py:46-58 | Validation passes exactly when no required key is absent or blank and any `state` is valid. A failure names the first missing required key in list order. An invalid state is reported only after every required key is present. |
| Validation.MissingMeansBlank | restapi_IMT2023540.py:51 | A required key counts as missing when it is absent or its value is whitespace only. |
| Validation.OnlyStateCheckedWithoutRequiredKeys | restapi_IMT2023540.py:154 | With `must_have = []`, as on update, only the state value is checked. |
| Validation.MessageIdentifiesFault | restapi_IMT2023540.py:50-56 | Distinct refusals have distinct error texts. A missing-field message names exactly one key. |
| Api.FetchTasks | restapi_IMT2023540.py:99-105 | Listing never changes the store and always answers 200 with `total` equal to the number of items. Without a non-empty filter it lists the whole store. With one it lists exactly the tasks in that state. |
| Api.FetchTask | restapi_IMT2023540.py:111-116 | Fetching one task answers 404 "Task not found" exactly when no task has the id. Otherwise it answers 200 with a stored task carrying the id. The store is unchanged either way. |
| Api.NewTask | restapi_IMT2023540.py:130-138 | A created task has the fresh id and the stripped, non-empty name. Its details are stripped, or `""` when absent. Its state is the given one, or `pending` when absent. Its creation and modification stamps are both `now`. |
| Api.AddTask | restapi_IMT2023540.py:121-140 | A missing or empty body gets 400 "Missing JSON data" before validation. A validation failure gets 400 with the validator's message. Both refusals leave the store unchanged. A present body that passes validation always gets 201, and 201 appends exactly the new task at the end. |
| Api.Patch | restapi_IMT2023540.py:158-165 | `name` is replaced only by a present, non-blank value, and is stripped. `details` is replaced, stripped, whenever present. `state` is replaced whenever present. The id and creation stamp are kept, and `modified` becomes `now`. |
| Api.ModifyTask | restapi_IMT2023540.py:145-166 | An unknown id gets 404 whatever the body. A missing or empty body gets 400, and so does a bad state. Every refusal leaves the store unchanged. A known id with a non-empty body and an acceptable state always gets 200. On 200, only the first task with the id changes, and it becomes its patched version. |
| Api.RemoveTask | restapi_IMT2023540.py:171-176 | An unknown id gets 404 and leaves the store unchanged. Otherwise the answer is 200 with the id, and the store loses exactly the first task carrying it. |
| Api.ClearTasks | restapi_IMT2023540.py:181-184 | Clearing always answers 200, reports the store's former length as `removed_count`, and leaves the store empty. |
| Api.Handle | restapi_IMT2023540.py:98-184 | On every store route, the envelope's `ok` is false exactly for 4xx statuses. A refused request never changes the store, and reads never change it. |
| Properties.AddTaskPreservesConsistency | restapi_IMT2023540.py:121-140 | With a fresh id not already in the store, creating keeps ids unique. Every task still has a non-empty trimmed name, trimmed details and `modified >= created`. |
| Properties.ModifyTaskPreservesConsistency | restapi_IMT2023540.py:145-166 | Updating keeps the store invariant, provided the clock reads no earlier than any task's creation. |
| Properties.RemoveTaskPreservesConsistency | restapi_IMT2023540.py:171-176 | Deleting keeps the store invariant. |
| Properties.HandlePreservesConsistency | restapi_IMT2023540.py:98-184 | Every store route keeps the invariant, given an unused fresh id and a clock that has not run backwards. |
| Properties.CreateThenFetch | restapi_IMT2023540.py:121-140 | A create succeeds whenever the name is non-blank, any state is valid and the fresh id is unused. Fetching that id afterwards returns the created task. |
| Properties.FetchAppended | restapi_IMT2023540.py:41-42 | A task appended under an unused id is what a lookup of that id finds. |
| Properties.UpdateThenFetch | restapi_IMT2023540.py:145-166 | After a successful update, fetching the id returns the updated task that the update answered with. |
| Properties.DeleteThenFetch | restapi_IMT2023540.py:171-176 | With unique ids, a deleted id is gone from the store. Fetching or deleting it again answers 404. |
| Properties.MissedDeleteRepeats | restapi_IMT2023540.py:171-174 | A delete that answers 404 changes nothing, so repeating it gives the same 404. |
| Properties.DeleteDropsOne | restapi_IMT2023540.py:175 | A successful delete shortens the store by one and removes exactly the task `get_task` found. |
| Properties.ClearThenList | restapi_IMT2023540.py:181-184 | After clearing, every listing reports `total` 0. |
| Properties.ListingKeepsOrder | restapi_IMT2023540.py:101-105 | The listing of two concatenated stores is the listing of the first followed by the listing of the second. So the listing preserves store order. |
| Properties.ListingUnknownState | restapi_IMT2023540.py:102-104 | A non-empty filter that names no valid state lists nothing and is not refused. |
| Properties.ListingCountsState | restapi_IMT2023540.py:102-105 | A listing filtered by a non-empty state name reports as `total` the number of positions of the store whose task is in that state, counted one by one (`Properties.Count`). |
| Properties.StatesPartitionStore | restapi_IMT2023540.py:54 | The position-by-position counts of `pending`, `in_progress` and `completed` tasks sum to the store's length, so each task is in exactly one state. |
| Properties.ListingsPartitionStore | restapi_IMT2023540.py:102-105 | The totals of the `pending`, `in_progress` and `completed` listings add up to the store's length. |
| Properties.UpdateKeepsIds | restapi_IMT2023540.py:158-165 | An update never changes the store's length or the set of ids it holds. |
| Properties.CreateRefusals | restapi_IMT2023540.py:123-128 | For a non-empty body, a blank or absent name gets "'name' is required and cannot be empty". Otherwise an invalid state gets the state message. A create succeeds exactly when neither applies. |

## Left out

- The `home` and `health` endpoints (restapi_IMT2023540.py:64-94): they return constant metadata, the store's length and the wall-clock time.
- Flask routing, `jsonify`, query and body parsing, and the 404/405/500 error handlers (restapi_IMT2023540.py:188-198): web framework plumbing. A route is a `Request` constructor, and a response is a status with a body datatype.
- `datetime.now()` and `uuid.uuid4()`: they are the parameters `now` and `freshId`. Timestamps are integers, not ISO-8601 text. Id uniqueness after a create and `modified >= created` after an update are proved under the preconditions that `freshId` is unused and `now` is no earlier than the task's creation.
- The seed tasks and the module-level mutable list (restapi_IMT2023540.py:15-37): the store is an explicit value. Nothing about concurrent requests is modelled.
- Payload values other than strings. On such values `.strip()` raises and the service answers 500 (restapi_IMT2023540.py:133-134, 159, 161). JSON bodies that are true but not objects are also left out, since `in` on them means something else.
- Flask's own refusals of malformed JSON or a wrong content type, which happen before the handler code runs. Which requests reach `if not payload` depends on the Flask version. From Flask 2.1 on, `get_json()` refuses a request without a JSON content type: 400, or 415 with Werkzeug 2.3 and later. There, only a falsy JSON value reaches the check. Before 2.1 such a request reached it as `None`, which the model's `None` body also covers.
- The `except` branch of `fetch_tasks` (restapi_IMT2023540.py:106-107): every stored task has a `state`, so the comprehension cannot raise and the 500 answer is unreachable.
- The `__main__` server start (restapi_IMT2023540.py:201-203).
