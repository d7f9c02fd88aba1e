/** What crosses the boundary to a remote agent: the signed run request the orchestrator
    sends, the result envelope it gets back, the extraction of a payload from that envelope
    (`run_agent`, run.py:69-105) and the invoker that carries the call. */
module Envelopes {
  import opened Results
  import opened PyValues
  import opened Errors

  /** The private key `get_private_key_from_pem(path)` loads; only its origin is modelled. */
  datatype KeyHandle = KeyFromPem(path: string)

  /** `sign_consumer_id(consumer_id, private_key)`: a value fixed by its two arguments. */
  datatype Signature = SignedBy(consumerId: string, key: KeyHandle)

  /** The inputs handed to an agent: the reasoning dictionary (run.py:119-123) or the
      validation model (run.py:148-152). Each fixes its own `func_name`. */
  datatype AgentInputs =
    | ReasonInputs(problem: string, numThoughts: Option<int>)
    | ValidateInputs(problem: string, thoughts: seq<Value>)
  {
    function FuncName(): string {
      match this
      case ReasonInputs(_, _) => "reason"
      case ValidateInputs(_, _) => "validate"
    }
  }

  /** `AgentRunInput` (run.py:77-82): one signed call to one agent deployment. */
  datatype RunRequest = RunRequest(
    consumerId: string,
    inputs: AgentInputs,
    deployment: Value,
    signature: Signature)

  /** What `agent.run` returns. `results` is None when the attribute is absent or None. */
  datatype ResultEnvelope = ResultEnvelope(
    status: string,
    results: Option<seq<Value>>,
    errorMessage: Option<string>)

  /** The envelope carries at least one result. */
  predicate HasResults(e: ResultEnvelope) {
    e.results.Some? && e.results.value != []
  }

  /** The first result is text that `parseJson` rejects. */
  predicate Unparsable(e: ResultEnvelope, parseJson: string -> Result<Value, string>) {
    HasResults(e) && e.results.value[0].Str? && parseJson(e.results.value[0].s).Err?
  }

  /** The payload of a result envelope (run.py:86-105). An error status fails with the
      agent's own message; an envelope with no results gives the empty dict; a first result
      that is text is decoded as JSON, and text that does not decode fails with the decoder's
      message; any other first result is the payload as it is. */
  function ExtractPayload(e: ResultEnvelope, parseJson: string -> Result<Value, string>): (r: Result<Value, Failure>)
    ensures r.Err? <==> e.status == "error" || Unparsable(e, parseJson)
    ensures e.status == "error" ==> r.error == AgentFailed(e.errorMessage)
    ensures e.status != "error" && Unparsable(e, parseJson) ==>
              r.error == InvalidResults(parseJson(e.results.value[0].s).error)
    ensures e.status != "error" && !HasResults(e) ==> r == Ok(Dict([]))
    ensures e.status != "error" && HasResults(e) && !e.results.value[0].Str? ==>
              r == Ok(e.results.value[0])
    ensures e.status != "error" && HasResults(e) && e.results.value[0].Str? && r.Ok? ==>
              parseJson(e.results.value[0].s) == Ok(r.value)
  {
    if e.status == "error" then
      Err(AgentFailed(e.errorMessage))
    else if e.results.Some? && e.results.value != [] then
      match e.results.value[0]
      case Str(text) =>
        (match parseJson(text)
         case Ok(v) => Ok(v)
         case Err(message) => Err(InvalidResults(message)))
      case Dict(_) => Ok(e.results.value[0])
      case other => Ok(other)
    else
      Ok(Dict([]))
  }

  /** An agent may hand back its payload as a dict or as the JSON text of that dict: when the
      text decodes to the dict, the orchestrator sees the same payload either way. */
  lemma TextAndDictResultsAgree(
    status: string, payload: Value, text: string, rest: seq<Value>,
    message: Option<string>, parseJson: string -> Result<Value, string>)
    requires payload.Dict? && parseJson(text) == Ok(payload)
    ensures ExtractPayload(ResultEnvelope(status, Some([Str(text)] + rest), message), parseJson)
         == ExtractPayload(ResultEnvelope(status, Some([payload] + rest), message), parseJson)
  {
    var asText := ResultEnvelope(status, Some([Str(text)] + rest), message);
    var asDict := ResultEnvelope(status, Some([payload] + rest), message);
    assert asText.results.value[0] == Str(text);
    assert asDict.results.value[0] == payload;
  }

  /** Only the first result matters: whatever follows it is never looked at. */
  lemma OnlyFirstResultCounts(
    status: string, first: Value, rest1: seq<Value>, rest2: seq<Value>,
    message: Option<string>, parseJson: string -> Result<Value, string>)
    ensures ExtractPayload(ResultEnvelope(status, Some([first] + rest1), message), parseJson)
         == ExtractPayload(ResultEnvelope(status, Some([first] + rest2), message), parseJson)
  {
    assert ([first] + rest1)[0] == first == ([first] + rest2)[0];
  }

  /** The remote agent behind one deployment, as the orchestrator sees it: each call is
      answered by `respond` and recorded in `received`, so `|received|` counts the calls. */
  class AgentInvoker {
    const respond: RunRequest -> ResultEnvelope
    var received: seq<RunRequest>

    constructor (respond: RunRequest -> ResultEnvelope)
      ensures this.respond == respond && received == []
    {
      this.respond := respond;
      received := [];
    }

    /** `agent.create(deployment)` followed by `agent.run(request)` (run.py:74-84). */
    method Invoke(request: RunRequest) returns (e: ResultEnvelope)
      modifies this
      ensures received == old(received) + [request]
      ensures e == respond(request)
    {
      received := received + [request];
      e := respond(request);
    }
  }
}
