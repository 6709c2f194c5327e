/** The request-payload validator (`check_task_payload`) and the error texts
    the service reports. */
module Validation {
  import opened Optional
  import opened Text
  import opened Tasks

  /** Why a request was refused. */
  datatype Fault =
    | MissingBody               // no JSON object, or an empty one
    | MissingField(key: string) // a required key absent or blank
    | InvalidState              // `state` outside `StateNames`
    | NotFound                  // no task with the requested id

  /** The `error` text of the JSON envelope for each fault. */
  function Message(f: Fault): string {
    match f
    case MissingBody => "Missing JSON data"
    case MissingField(key) => "'" + key + "' is required and cannot be empty"
    case InvalidState => "State must be one of: " + Join(", ", StateNames)
    case NotFound => "Task not found"
  }

  /** A required key is missing when it is absent or empty after `strip()`. */
  predicate Missing(payload: Payload, key: string) {
    key !in payload || Strip(payload[key]) == []
  }

  /** A payload's `state`, if any, is one of `StateNames`. */
  predicate StateAcceptable(payload: Payload) {
    "state" in payload ==> payload["state"] in StateNames
  }

  /** `check_task_payload(payload, must_have)`: `None` stands for `(True, "")`
      and `Some(f)` for `(False, Message(f))`. The required keys are checked
      in order before the state value. */
  function CheckTaskPayload(payload: Payload, mustHave: seq<string>): (r: Option<Fault>)
    ensures r.None? <==>
              (forall i :: 0 <= i < |mustHave| ==> !Missing(payload, mustHave[i]))
              && StateAcceptable(payload)
    ensures r.Some? ==> r.value.MissingField? || r.value.InvalidState?
    ensures r.Some? && r.value.MissingField? ==>
              exists i :: 0 <= i < |mustHave| && mustHave[i] == r.value.key
                          && Missing(payload, mustHave[i])
                          && forall j :: 0 <= j < i ==> !Missing(payload, mustHave[j])
    ensures r == Some(InvalidState) ==>
              forall i :: 0 <= i < |mustHave| ==> !Missing(payload, mustHave[i])
  {
    match Seqs.FirstIndex(mustHave, (key: string) => Missing(payload, key))
    case Some(i) => Some(MissingField(mustHave[i]))
    case None =>
      if "state" in payload && payload["state"] !in StateNames then Some(InvalidState)
      else None
  }

  /** Blank means nothing but whitespace. */
  lemma MissingMeansBlank(payload: Payload, key: string)
    ensures Missing(payload, key) <==> key !in payload || AllSpace(payload[key])
  {
  }

  /** With no required keys, as on update, only the state value is checked. */
  lemma {:induction false} OnlyStateCheckedWithoutRequiredKeys(payload: Payload)
    ensures CheckTaskPayload(payload, []) == (if StateAcceptable(payload) then None else Some(InvalidState))
  {
  }

  /** The error text determines the fault: a client can tell from the message
      which check refused the request, and for a missing field, which key. */
  lemma MessageIdentifiesFault(f: Fault, g: Fault)
    requires Message(f) == Message(g)
    ensures f == g
  {
    QuoteOnlyOnMissingField(f);
    QuoteOnlyOnMissingField(g);
    if f.MissingField? && g.MissingField? {
      assert |f.key| == |g.key|;
      assert f.key == Message(f)[1..1 + |f.key|];
      assert g.key == Message(g)[1..1 + |g.key|];
    }
  }

  /** Only a missing-field message starts with a quote. */
  lemma QuoteOnlyOnMissingField(f: Fault)
    ensures |Message(f)| > 0
    ensures f.MissingField? <==> Message(f)[0] == '\''
  {
  }
}
