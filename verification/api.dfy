/** The store logic of the route handlers, with the web framework removed: each
    handler is a function from the current store and the request's inputs to
    the response it sends and the store it leaves behind. The clock reading
    `now` and the generated id `freshId` are inputs. */
module Api {
  import opened Optional
  import opened Seqs
  import opened Text
  import opened Tasks
  import opened Validation

  /** The payload of the JSON envelope besides its `ok` flag. */
  datatype Body =
    | TaskBody(task: Task)                   // {"ok": true, "task": ...}
    | ListBody(total: nat, items: seq<Task>) // {"ok": true, "total": ..., "items": [...]}
    | DeletedBody(deleted: string)           // {"ok": true, "deleted": id}
    | ClearedBody(removedCount: nat)         // {"ok": true, "removed_count": n}
    | ErrorBody(error: string)               // {"ok": false, "error": ...}

  datatype Response = Response(status: int, body: Body) {
    /** The envelope's `ok` flag. */
    predicate Ok() {
      !body.ErrorBody?
    }
  }

  /** What a handler sends back, and the store after it. */
  datatype Reply = Reply(response: Response, store: Store)

  /** A refusal: the error envelope for `f`, the store untouched. */
  function Refuse(status: int, f: Fault, store: Store): Reply {
    Reply(Response(status, ErrorBody(Message(f))), store)
  }

  /** `if not payload`: an absent body and an empty JSON object are both missing. */
  predicate NoPayload(body: Option<Payload>) {
    body.None? || body.value == map[]
  }

  /** `payload.get(key, default)`. */
  function GetOr(payload: Payload, key: string, default: string): string {
    if key in payload then payload[key] else default
  }

  /** The `state` query argument filters only when present and non-empty. */
  predicate Selects(filter: Option<string>) {
    filter.Some? && filter.value != ""
  }

  /** Tasks whose state is spelled `name`. */
  function InState(name: string): Task -> bool {
    (t: Task) => t.state.Name() == name
  }

  // ---------------------------------------------------------------- GET /tasks

  /** `fetch_tasks`: every task, or only those in the requested state, in store order. */
  function FetchTasks(store: Store, filter: Option<string>): (r: Reply)
    ensures r.store == store
    ensures r.response.status == 200 && r.response.body.ListBody?
    ensures r.response.body.total == |r.response.body.items|
    ensures !Selects(filter) ==> r.response.body.items == store
    ensures Selects(filter) ==>
              forall t :: t in r.response.body.items <==> t in store && t.state.Name() == filter.value
  {
    var items := if Selects(filter) then Filter(store, InState(filter.value)) else store;
    Reply(Response(200, ListBody(|items|, items)), store)
  }

  // ----------------------------------------------------------- GET /tasks/<id>

  /** `fetch_task`: the task with the id, or 404. */
  function FetchTask(store: Store, id: string): (r: Reply)
    ensures r.store == store
    ensures r.response.status == 200 || r.response.status == 404
    ensures r.response.status == 404 <==> id !in Ids(store)
    ensures r.response.status == 404 ==> r.response.body == ErrorBody(Message(NotFound))
    ensures r.response.status == 200 ==>
              r.response.body.TaskBody? && r.response.body.task in store && r.response.body.task.id == id
  {
    match GetTask(store, id)
    case None => Refuse(404, NotFound, store)
    case Some(t) => Reply(Response(200, TaskBody(t)), store)
  }

  // --------------------------------------------------------------- POST /tasks

  /** The record `add_task` builds from a payload that passed validation. */
  function NewTask(payload: Payload, freshId: string, now: Timestamp): (t: Task)
    requires CheckTaskPayload(payload, ["name"]).None?
    ensures t.id == freshId
    ensures t.name == Strip(payload["name"]) && t.name != []
    ensures t.details == (if "details" in payload then Strip(payload["details"]) else [])
    ensures t.state.Name() == (if "state" in payload then payload["state"] else "pending")
    ensures t.created == now && t.modified == now
  {
    assert !Missing(payload, ["name"][0]);
    var state := ParseState(GetOr(payload, "state", "pending"));
    Task(freshId, Strip(payload["name"]), Strip(GetOr(payload, "details", "")), state.value, now, now)
  }

  /** `add_task`: the body is checked for presence, then validated with `name`
      required; a valid payload becomes a new task appended at the end. */
  function AddTask(store: Store, body: Option<Payload>, freshId: string, now: Timestamp): (r: Reply)
    ensures NoPayload(body) ==> r == Refuse(400, MissingBody, store)
    ensures !NoPayload(body) && CheckTaskPayload(body.value, ["name"]).Some? ==>
              r == Refuse(400, CheckTaskPayload(body.value, ["name"]).value, store)
    ensures !NoPayload(body) && CheckTaskPayload(body.value, ["name"]).None? ==> r.response.status == 201
    ensures r.response.status == 201 || r.response.status == 400
    ensures r.response.status == 400 ==> r.store == store
    ensures r.response.status == 201 ==>
              && !NoPayload(body) && CheckTaskPayload(body.value, ["name"]).None?
              && |r.store| == |store| + 1
              && r.store[..|store|] == store
              && r.response.body == TaskBody(r.store[|store|])
              && r.store[|store|] == NewTask(body.value, freshId, now)
  {
    if NoPayload(body) then Refuse(400, MissingBody, store)
    else match CheckTaskPayload(body.value, ["name"])
      case Some(f) => Refuse(400, f, store)
      case None =>
        var t := NewTask(body.value, freshId, now);
        assert (store + [t])[..|store|] == store;
        Reply(Response(201, TaskBody(t)), store + [t])
  }

  // ---------------------------------------------------------- PUT /tasks/<id>

  /** The task `modify_task` leaves: `name` replaced only by a non-blank value,
      `details` and `state` replaced whenever given, `modified` re-stamped. */
  function Patch(prior: Task, payload: Payload, now: Timestamp): (t: Task)
    requires StateAcceptable(payload)
    ensures t.id == prior.id && t.created == prior.created && t.modified == now
    ensures t.name == (if "name" in payload && Strip(payload["name"]) != [] then Strip(payload["name"]) else prior.name)
    ensures t.details == (if "details" in payload then Strip(payload["details"]) else prior.details)
    ensures t.state.Name() == (if "state" in payload then payload["state"] else prior.state.Name())
  {
    var name := if "name" in payload && Strip(payload["name"]) != [] then Strip(payload["name"]) else prior.name;
    var details := if "details" in payload then Strip(payload["details"]) else prior.details;
    var state := if "state" in payload then ParseState(payload["state"]).value else prior.state;
    Task(prior.id, name, details, state, prior.created, now)
  }

  /** `modify_task`: 404 for an unknown id before the body is looked at, then
      the body is checked for presence and validated with nothing required;
      only the matched task changes. */
  function ModifyTask(store: Store, id: string, body: Option<Payload>, now: Timestamp): (r: Reply)
    ensures id !in Ids(store) ==> r == Refuse(404, NotFound, store)
    ensures id in Ids(store) && NoPayload(body) ==> r == Refuse(400, MissingBody, store)
    ensures id in Ids(store) && !NoPayload(body) && !StateAcceptable(body.value) ==>
              r == Refuse(400, InvalidState, store)
    ensures id in Ids(store) && !NoPayload(body) && StateAcceptable(body.value) ==> r.response.status == 200
    ensures r.response.status == 200 || r.response.status == 400 || r.response.status == 404
    ensures r.response.status != 200 ==> r.store == store
    ensures r.response.status == 200 ==>
              && id in Ids(store) && !NoPayload(body) && StateAcceptable(body.value)
              && var i := IndexOf(store, id).value;
              && |r.store| == |store|
              && (forall j :: 0 <= j < |store| && j != i ==> r.store[j] == store[j])
              && r.store[i] == Patch(store[i], body.value, now)
              && r.response.body == TaskBody(r.store[i])
  {
    match IndexOf(store, id)
    case None => Refuse(404, NotFound, store)
    case Some(i) =>
      if NoPayload(body) then Refuse(400, MissingBody, store)
      else match CheckTaskPayload(body.value, [])
        case Some(f) => Refuse(400, f, store)
        case None =>
          var t := Patch(store[i], body.value, now);
          Reply(Response(200, TaskBody(t)), store[i := t])
  }

  // ------------------------------------------------------- DELETE /tasks/<id>

  /** `remove_task`: 404 for an unknown id, otherwise `task_list.remove(task)`
      on the task `get_task` found. */
  function RemoveTask(store: Store, id: string): (r: Reply)
    ensures id !in Ids(store) ==> r == Refuse(404, NotFound, store)
    ensures id in Ids(store) ==>
              && var i := IndexOf(store, id).value;
              && r.response == Response(200, DeletedBody(id))
              && r.store == store[..i] + store[i + 1..]
  {
    match GetTask(store, id)
    case None => Refuse(404, NotFound, store)
    case Some(t) =>
      var i := IndexOf(store, id).value;
      // No task before `i` has the id, so none of them equals `t`.
      assert forall j :: 0 <= j < i ==> store[j] != t;
      RemoveFirstAt(store, t, i);
      Reply(Response(200, DeletedBody(id)), RemoveFirst(store, t))
  }

  // ------------------------------------------------------------ DELETE /tasks

  /** `clear_tasks`: empties the store and reports how many tasks it held. */
  function ClearTasks(store: Store): (r: Reply)
    ensures r.store == []
    ensures r.response == Response(200, ClearedBody(|store|))
  {
    Reply(Response(200, ClearedBody(|store|)), [])
  }

  // ---------------------------------------------------------------- routing

  /** The store-facing routes. */
  datatype Request =
    | ListTasks(stateFilter: Option<string>)   // GET /tasks[?state=...]
    | ShowTask(id: string)                     // GET /tasks/<id>
    | CreateTask(body: Option<Payload>)        // POST /tasks
    | UpdateTask(id: string, body: Option<Payload>) // PUT /tasks/<id>
    | DeleteTask(id: string)                   // DELETE /tasks/<id>
    | ClearAll                                 // DELETE /tasks

  /** One request against the store. Across all routes, the envelope's `ok`
      flag is false exactly for the 4xx statuses, a refused request never
      changes the store, and reads never change it. */
  function Handle(store: Store, req: Request, freshId: string, now: Timestamp): (r: Reply)
    ensures r.response.Ok() <==> r.response.status < 400
    ensures !r.response.Ok() ==> r.store == store
    ensures req.ListTasks? || req.ShowTask? ==> r.store == store
  {
    match req
    case ListTasks(filter) => FetchTasks(store, filter)
    case ShowTask(id) => FetchTask(store, id)
    case CreateTask(body) => AddTask(store, body, freshId, now)
    case UpdateTask(id, body) => ModifyTask(store, id, body, now)
    case DeleteTask(id) => RemoveTask(store, id)
    case ClearAll => ClearTasks(store)
  }
}
