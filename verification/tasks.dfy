/** The task record, the ordered in-memory store of tasks, and lookup by id
    (`get_task`). */
module Tasks {
  import opened Optional
  import opened Seqs

  /** The three values a task's `state` may take. */
  datatype State = Pending | InProgress | Completed {
    /** The wire spelling of the state. */
    function Name(): string {
      match this
      case Pending => "pending"
      case InProgress => "in_progress"
      case Completed => "completed"
    }
  }

  /** The service's `valid_states`, in its order. */
  const StateNames: seq<string> := ["pending", "in_progress", "completed"]

  /** Reads a wire state name; `None` for anything outside `StateNames`. */
  function ParseState(s: string): (r: Option<State>)
    ensures r.Some? ==> r.value.Name() == s
    ensures r.None? <==> s !in StateNames
  {
    if s == "pending" then Some(Pending)
    else if s == "in_progress" then Some(InProgress)
    else if s == "completed" then Some(Completed)
    else None
  }

  /** Every state is written as one of `StateNames` and read back as itself. */
  lemma ParseName(st: State)
    ensures st.Name() in StateNames
    ensures ParseState(st.Name()) == Some(st)
  {
  }

  /** A clock reading; the service stamps ISO-8601 text, and only the order of
      readings matters here. */
  type Timestamp = int

  datatype Task = Task(
    id: string,
    name: string,
    details: string,
    state: State,
    created: Timestamp,
    modified: Timestamp)

  /** The process-wide `task_list`, as a value. */
  type Store = seq<Task>

  /** A JSON request object whose values are strings. */
  type Payload = map<string, string>

  function Ids(store: Store): set<string> {
    set t | t in store :: t.id
  }

  /** No two tasks of the store share an id. */
  predicate UniqueIds(store: Store) {
    forall i, j :: 0 <= i < |store| && 0 <= j < |store| && store[i].id == store[j].id ==> i == j
  }

  /** Position of the first task with id `id`. */
  function IndexOf(store: Store, id: string): (r: Option<nat>)
    ensures r.Some? ==> r.value < |store| && store[r.value].id == id
    ensures r.Some? ==> forall j :: 0 <= j < r.value ==> store[j].id != id
    ensures r.None? <==> id !in Ids(store)
  {
    var r := FirstIndex(store, (t: Task) => t.id == id);
    // `FirstIndex` speaks of positions and `Ids` of members: a task in the
    // store sits at some position, where `FirstIndex` saw its id.
    assert r.None? ==> forall t :: t in store ==> t.id != id by {
      forall t | r.None? && t in store ensures t.id != id {
        var j :| 0 <= j < |store| && store[j] == t;
        assert !(t.id == id);
      }
    }
    r
  }

  /** `get_task`: the first task with the given id, or `None`. */
  function GetTask(store: Store, id: string): (r: Option<Task>)
    ensures r.None? <==> id !in Ids(store)
    ensures r.Some? ==> r.value in store && r.value.id == id
  {
    match IndexOf(store, id)
    case None => None
    case Some(i) => Some(store[i])
  }

  /** `get_task` returns the head of the list of all tasks carrying the id,
      which is what `next(...)` over the generator yields. */
  lemma GetTaskIsFirstMatch(store: Store, id: string)
    ensures var matches := Filter(store, (t: Task) => t.id == id);
            GetTask(store, id) == (if matches == [] then None else Some(matches[0]))
  {
    var p := (t: Task) => t.id == id;
    match IndexOf(store, id)
    case None =>
    case Some(i) =>
      // Nothing before position `i` matches, and position `i` does.
      assert store == store[..i] + ([store[i]] + store[i + 1..]);
      FilterAppend(store[..i], [store[i]] + store[i + 1..], p);
      FilterAppend([store[i]], store[i + 1..], p);
  }
}
