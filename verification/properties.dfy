/** Properties that relate several handler calls: the store invariant every
    route keeps, what a later read sees after a write, repeat behaviour, and
    how listing relates to the store. */
module Properties {
  import opened Optional
  import opened Seqs
  import opened Text
  import opened Tasks
  import opened Validation
  import opened Api

  /** A task as the service keeps it: a non-empty trimmed name, trimmed
      details, and a modification stamp no earlier than its creation stamp. */
  predicate WellFormed(t: Task) {
    t.name != [] && IsTrimmed(t.name) && IsTrimmed(t.details) && t.created <= t.modified
  }

  /** The store invariant: unique ids and well-formed tasks. */
  predicate Consistent(store: Store) {
    UniqueIds(store) && forall i :: 0 <= i < |store| ==> WellFormed(store[i])
  }

  /** The clock has not run backwards past any task's creation. */
  predicate ClockNotBefore(store: Store, now: Timestamp) {
    forall i :: 0 <= i < |store| ==> store[i].created <= now
  }

  /** Appending a well-formed task with an unused id keeps the invariant. */
  lemma AppendKeepsConsistency(store: Store, t: Task)
    requires Consistent(store) && WellFormed(t) && t.id !in Ids(store)
    ensures Consistent(store + [t])
  {
  }

  /** Creating with an unused id keeps the invariant. */
  lemma AddTaskPreservesConsistency(store: Store, body: Option<Payload>, freshId: string, now: Timestamp)
    requires Consistent(store)
    requires freshId !in Ids(store)
    ensures Consistent(AddTask(store, body, freshId, now).store)
  {
    var r := AddTask(store, body, freshId, now);
    if r.response.status == 201 {
      var t := NewTask(body.value, freshId, now);
      assert r.store == store + [t];
      AppendKeepsConsistency(store, t);
    }
  }

  /** Updating keeps the invariant when the clock has not run backwards. */
  lemma ModifyTaskPreservesConsistency(store: Store, id: string, body: Option<Payload>, now: Timestamp)
    requires Consistent(store)
    requires ClockNotBefore(store, now)
    ensures Consistent(ModifyTask(store, id, body, now).store)
  {
  }

  /** Deleting keeps the invariant. */
  lemma RemoveTaskPreservesConsistency(store: Store, id: string)
    requires Consistent(store)
    ensures Consistent(RemoveTask(store, id).store)
  {
  }

  /** Every route keeps the store invariant, given an unused fresh id and a
      clock that has not run backwards. */
  lemma HandlePreservesConsistency(store: Store, req: Request, freshId: string, now: Timestamp)
    requires Consistent(store)
    requires ClockNotBefore(store, now)
    requires freshId !in Ids(store)
    ensures Consistent(Handle(store, req, freshId, now).store)
  {
    match req
    case ListTasks(_) =>
    case ShowTask(_) =>
    case CreateTask(body) => AddTaskPreservesConsistency(store, body, freshId, now);
    case UpdateTask(id, body) => ModifyTaskPreservesConsistency(store, id, body, now);
    case DeleteTask(id) => RemoveTaskPreservesConsistency(store, id);
    case ClearAll =>
  }

  /** A create whose payload has a non-blank name and an acceptable state
      succeeds, and a lookup of the fresh id then returns the created task. */
  lemma CreateThenFetch(store: Store, payload: Payload, freshId: string, now: Timestamp)
    requires freshId !in Ids(store)
    requires !Missing(payload, "name") && StateAcceptable(payload)
    ensures var created := AddTask(store, Some(payload), freshId, now);
            && created.response.status == 201
            && FetchTask(created.store, freshId).response == created.response.(status := 200)
  {
    assert "name" in payload;
    assert !NoPayload(Some(payload));
    var required := ["name"];
    assert forall i :: 0 <= i < |required| ==> !Missing(payload, required[i]);
    var t := NewTask(payload, freshId, now);
    assert AddTask(store, Some(payload), freshId, now).store == store + [t];
    FetchAppended(store, t);
  }

  /** Looking up the id of a task appended under an unused id finds that task. */
  lemma FetchAppended(store: Store, t: Task)
    requires t.id !in Ids(store)
    ensures FetchTask(store + [t], t.id).response == Response(200, TaskBody(t))
  {
  }

  /** A task just updated is what a lookup of its id returns. */
  lemma UpdateThenFetch(store: Store, id: string, body: Option<Payload>, now: Timestamp)
    requires ModifyTask(store, id, body, now).response.status == 200
    ensures var updated := ModifyTask(store, id, body, now);
            FetchTask(updated.store, id).response == updated.response
  {
  }

  /** With unique ids, a deleted task is gone: looking it up, or deleting it
      again, answers 404. */
  lemma DeleteThenFetch(store: Store, id: string)
    requires UniqueIds(store)
    requires id in Ids(store)
    ensures var after := RemoveTask(store, id).store;
            && id !in Ids(after)
            && FetchTask(after, id).response.status == 404
            && RemoveTask(after, id) == Refuse(404, NotFound, after)
  {
  }

  /** Deleting an unknown id changes nothing, so repeating it answers 404 again. */
  lemma MissedDeleteRepeats(store: Store, id: string)
    requires RemoveTask(store, id).response.status == 404
    ensures var first := RemoveTask(store, id);
            first.store == store && RemoveTask(first.store, id) == first
  {
  }

  /** Deleting by id loses exactly one task, the one `get_task` finds, and
      keeps every other task. */
  lemma DeleteDropsOne(store: Store, id: string)
    requires id in Ids(store)
    ensures var after := RemoveTask(store, id).store;
            && |after| == |store| - 1
            && multiset(after) == multiset(store) - multiset{GetTask(store, id).value}
  {
    var i := IndexOf(store, id).value;
    var t := store[i];
    assert forall j :: 0 <= j < i ==> store[j] != t;
    RemoveFirstAt(store, t, i);
    RemoveFirstMultiset(store, t);
  }

  /** After clearing, the listing is empty whatever the filter. */
  lemma ClearThenList(store: Store, filter: Option<string>)
    ensures FetchTasks(ClearTasks(store).store, filter).response.body.total == 0
  {
  }

  /** The listing keeps store order: listing a store made of two parts lists
      the first part's matches, then the second's. */
  lemma ListingKeepsOrder(front: Store, back: Store, filter: Option<string>)
    ensures FetchTasks(front + back, filter).response.body.items
            == FetchTasks(front, filter).response.body.items + FetchTasks(back, filter).response.body.items
  {
    if Selects(filter) {
      FilterAppend(front, back, InState(filter.value));
    }
  }

  /** A filter naming no state lists nothing; it is not refused. */
  lemma ListingUnknownState(store: Store, name: string)
    requires name != [] && name !in StateNames
    ensures FetchTasks(store, Some(name)).response.body.items == []
  {
    var items := FetchTasks(store, Some(name)).response.body.items;
    if items != [] {
      ParseName(items[0].state);
    }
  }

  /** Number of tasks whose state is spelled `name`, counted position by
      position. */
  function Count(store: Store, name: string): nat
    decreases |store|
  {
    if |store| == 0 then 0
    else (if store[0].state.Name() == name then 1 else 0) + Count(store[1..], name)
  }

  /** A listing filtered by a non-empty name reports as its total the number
      of tasks in that state. */
  lemma {:induction false} ListingCountsState(store: Store, name: string)
    requires name != []
    ensures FetchTasks(store, Some(name)).response.body.total == Count(store, name)
    decreases |store|
  {
    if |store| > 0 {
      assert store == [store[0]] + store[1..];
      FilterAppend([store[0]], store[1..], InState(name));
      ListingCountsState(store[1..], name);
    }
  }

  /** Every task is in exactly one state: the three per-state counts add up
      to the whole store. */
  lemma {:induction false} StatesPartitionStore(store: Store)
    ensures Count(store, "pending") + Count(store, "in_progress") + Count(store, "completed") == |store|
    decreases |store|
  {
    if |store| > 0 {
      StatesPartitionStore(store[1..]);
    }
  }

  /** The totals of the three filtered listings add up to the whole store. */
  lemma ListingsPartitionStore(store: Store)
    ensures FetchTasks(store, Some("pending")).response.body.total
            + FetchTasks(store, Some("in_progress")).response.body.total
            + FetchTasks(store, Some("completed")).response.body.total == |store|
  {
    StatesPartitionStore(store);
    ListingCountsState(store, "pending");
    ListingCountsState(store, "in_progress");
    ListingCountsState(store, "completed");
  }

  /** An update never changes which ids the store holds, nor its length. */
  lemma UpdateKeepsIds(store: Store, id: string, body: Option<Payload>, now: Timestamp)
    ensures var after := ModifyTask(store, id, body, now).store;
            |after| == |store| && Ids(after) == Ids(store)
  {
  }

  /** Validation refuses a create exactly when a required field is blank or
      the state is unknown, and the blank-name check comes first. */
  lemma CreateRefusals(store: Store, payload: Payload, freshId: string, now: Timestamp)
    requires payload != map[]
    ensures var r := AddTask(store, Some(payload), freshId, now);
            && (Missing(payload, "name") ==> r == Refuse(400, MissingField("name"), store))
            && (!Missing(payload, "name") && !StateAcceptable(payload) ==> r == Refuse(400, InvalidState, store))
            && (r.response.status == 201 <==> !Missing(payload, "name") && StateAcceptable(payload))
  {
  }
}
