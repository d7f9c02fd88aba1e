/** The orchestrator of run.py: `ReasonValidationOrchestrator.create` resolving the two
    agent deployments and the key, `run` calling the reasoning agent and then the validation
    agent and assembling the final record, and the module-level `run` entry point that does
    both. The pure `Pipeline` function says what one `run` computes; the class's methods are
    proved to follow it. */
module Orchestration {
  import opened Results
  import opened PyValues
  import opened Errors
  import opened Text
  import opened Envelopes
  import opened Thoughts
  import opened Deployments

  /** `InputSchema` (schemas.py:4-6). */
  datatype InputSchema = InputSchema(problem: string, numThoughts: Option<int>)

  /** An `InputSchema` given only its problem: `num_thoughts` defaults to 3. */
  function WithDefaults(problem: string): (i: InputSchema)
    ensures i.problem == problem && i.numThoughts == Some(3)
  {
    InputSchema(problem, Some(3))
  }

  /** The dictionary `run` returns (run.py:176-183). */
  datatype PipelineResult = PipelineResult(
    status: string,
    problem: string,
    reasoningThoughts: Value,
    validationResult: Value,
    finalAnswer: Value,
    bestThought: Value)

  /** The call to the reasoning agent (run.py:119-129). */
  function ReasonRequest(input: InputSchema, consumerId: string, s: Setup): (r: RunRequest)
    ensures r.inputs.FuncName() == "reason"
    ensures r.inputs.problem == TrimProblem(input.problem) && r.inputs.numThoughts == input.numThoughts
    ensures r.consumerId == consumerId && r.deployment == s.reasoning && r.signature == SignedBy(consumerId, s.key)
  {
    RunRequest(consumerId, ReasonInputs(TrimProblem(input.problem), input.numThoughts),
               s.reasoning, SignedBy(consumerId, s.key))
  }

  /** The call to the validation agent (run.py:148-158). */
  function ValidateRequest(problem: string, clean: seq<Value>, consumerId: string, s: Setup): (r: RunRequest)
    ensures r.inputs.FuncName() == "validate"
    ensures r.inputs.problem == problem && r.inputs.thoughts == clean
    ensures r.consumerId == consumerId && r.deployment == s.validation && r.signature == SignedBy(consumerId, s.key)
  {
    RunRequest(consumerId, ValidateInputs(problem, clean), s.validation, SignedBy(consumerId, s.key))
  }

  /** The raw `thoughts` value of the reasoning payload and the thoughts iterating it yields. */
  datatype Reasoned = Reasoned(thoughts: Value, items: seq<Value>)

  /** What `run` takes from the reasoning agent's envelope (run.py:125-137): the payload's
      `thoughts`, an empty list when it has none. A payload that is not a dict has no `get`,
      and `thoughts` without a length fails the `len` of run.py:133. */
  function ReasoningStage(e: ResultEnvelope, host: Host): (r: Result<Reasoned, Failure>)
    ensures ExtractPayload(e, host.parseJson).Err? ==> r == Err(ExtractPayload(e, host.parseJson).error)
    ensures r.Ok? ==> Get(ExtractPayload(e, host.parseJson).value, "thoughts", List([])) == Some(r.value.thoughts)
    ensures r.Ok? ==> Elements(r.value.thoughts) == Some(r.value.items)
    ensures r.Ok? <==> ExtractPayload(e, host.parseJson).Ok?
                       && Get(ExtractPayload(e, host.parseJson).value, "thoughts", List([])).Some?
                       && Len(Get(ExtractPayload(e, host.parseJson).value, "thoughts", List([])).value).Some?
  {
    var payload :- ExtractPayload(e, host.parseJson);
    var thoughts :- OrRaise(Get(payload, "thoughts", List([])), GetOp);
    var items :- OrRaise(Elements(thoughts), LenOp);
    Ok(Reasoned(thoughts, items))
  }

  /** The end of `run` (run.py:160-183): the validation payload's `best_thought_index`
      (default 0) and `final_answer` (default ""), the best thought chosen from the raw
      thoughts, and the success record. A payload that is not a dict fails the first `get`;
      once that succeeded, the second cannot fail. */
  function Conclude(problem: string, reasoned: Reasoned, validation: Value): (r: Result<PipelineResult, Failure>)
    requires Elements(reasoned.thoughts) == Some(reasoned.items)
    ensures !validation.Dict? ==> r == Err(WrongShape(GetOp))
    ensures r.Ok? <==>
              validation.Dict? && BestThought(reasoned.thoughts, Get(validation, "best_thought_index", Int(0)).value).Ok?
    ensures r.Ok? ==>
              && r.value.status == "success" && r.value.problem == problem
              && r.value.reasoningThoughts == reasoned.thoughts && r.value.validationResult == validation
              && Get(validation, "final_answer", Str("")) == Some(r.value.finalAnswer)
              && BestThought(reasoned.thoughts, Get(validation, "best_thought_index", Int(0)).value) == Ok(r.value.bestThought)
  {
    if !validation.Dict? then Err(WrongShape(GetOp))
    else
      var index := Get(validation, "best_thought_index", Int(0)).value;
      var answer := Get(validation, "final_answer", Str("")).value;
      var best :- BestThought(reasoned.thoughts, index);
      Ok(PipelineResult("success", problem, reasoned.thoughts, validation, answer, best))
  }

  /** The calls `run` makes to the validation agent: one, carrying the normalised thoughts,
      when the reasoning stage succeeded, and none otherwise. */
  function ValidationCalls(
    input: InputSchema, consumerId: string, s: Setup,
    respondR: RunRequest -> ResultEnvelope, host: Host): (calls: seq<RunRequest>)
    ensures |calls| <= 1
    ensures |calls| == 1 <==> ReasoningStage(respondR(ReasonRequest(input, consumerId, s)), host).Ok?
    ensures |calls| == 1 ==>
              && calls[0].inputs.FuncName() == "validate" && calls[0].deployment == s.validation
              && calls[0].inputs.problem == TrimProblem(input.problem)
              && calls[0].inputs.thoughts
                 == NormalizeAll(ReasoningStage(respondR(ReasonRequest(input, consumerId, s)), host).value.items, host.toStr)
  {
    match ReasoningStage(respondR(ReasonRequest(input, consumerId, s)), host)
    case Err(_) => []
    case Ok(reasoned) =>
      [ValidateRequest(TrimProblem(input.problem), NormalizeAll(reasoned.items, host.toStr), consumerId, s)]
  }

  /** The part of `run` after the reasoning stage (run.py:136-183): the validation call with
      the normalised thoughts, then the conclusion from its payload. */
  function AfterReasoning(
    problem: string, reasoned: Reasoned, consumerId: string, s: Setup,
    respondV: RunRequest -> ResultEnvelope, host: Host): (r: Result<PipelineResult, Failure>)
    requires Elements(reasoned.thoughts) == Some(reasoned.items)
    ensures var payload := ExtractPayload(
              respondV(ValidateRequest(problem, NormalizeAll(reasoned.items, host.toStr), consumerId, s)), host.parseJson);
            && (payload.Err? ==> r == Err(payload.error))
            && (payload.Ok? ==> r == Conclude(problem, reasoned, payload.value))
            && (r.Ok? ==> payload == Ok(r.value.validationResult)
                          && r.value.reasoningThoughts == reasoned.thoughts && r.value.problem == problem)
  {
    var clean := NormalizeAll(reasoned.items, host.toStr);
    var validation :- ExtractPayload(respondV(ValidateRequest(problem, clean, consumerId, s)), host.parseJson);
    Conclude(problem, reasoned, validation)
  }

  /** `run` before its exception handler: what it returns or the exception it meets first. */
  function Unwrapped(
    input: InputSchema, consumerId: string, s: Setup,
    respondR: RunRequest -> ResultEnvelope, respondV: RunRequest -> ResultEnvelope,
    host: Host): (r: Result<PipelineResult, Failure>)
    ensures var stage := ReasoningStage(respondR(ReasonRequest(input, consumerId, s)), host);
            && (stage.Err? ==> r == Err(stage.error))
            && (stage.Ok? ==> r == AfterReasoning(TrimProblem(input.problem), stage.value, consumerId, s, respondV, host))
            && (r.Ok? ==> stage.Ok? && r.value.reasoningThoughts == stage.value.thoughts
                          && r.value.status == "success" && r.value.problem == TrimProblem(input.problem))
  {
    var reasoned :- ReasoningStage(respondR(ReasonRequest(input, consumerId, s)), host);
    AfterReasoning(TrimProblem(input.problem), reasoned, consumerId, s, respondV, host)
  }

  /** What one `run` (run.py:107-188) computes, given how each agent answers: the success
      record, or the first failure wrapped once by the handler of run.py:185-188. */
  function Pipeline(
    input: InputSchema, consumerId: string, s: Setup,
    respondR: RunRequest -> ResultEnvelope, respondV: RunRequest -> ResultEnvelope,
    host: Host): (r: Result<PipelineResult, Failure>)
    ensures r.Err? ==> r.error.OrchestratorFailed? && !r.error.cause.OrchestratorFailed?
    ensures var u := Unwrapped(input, consumerId, s, respondR, respondV, host);
            && (r.Ok? <==> u.Ok?)
            && (r.Ok? ==> r == u)
            && (r.Err? ==> r.error.cause == u.error)
  {
    match Unwrapped(input, consumerId, s, respondR, respondV, host)
    case Ok(result) => Ok(result)
    case Err(e) =>
      assert !e.OrchestratorFailed? by { UnwrappedNeverWrapped(input, consumerId, s, respondR, respondV, host); }
      Err(OrchestratorFailed(e))
  }

  /** No failure met inside `run` is itself an orchestrator failure, so the handler wraps
      each failure exactly once. */
  lemma UnwrappedNeverWrapped(
    input: InputSchema, consumerId: string, s: Setup,
    respondR: RunRequest -> ResultEnvelope, respondV: RunRequest -> ResultEnvelope, host: Host)
    ensures var u := Unwrapped(input, consumerId, s, respondR, respondV, host);
            u.Err? ==> !u.error.OrchestratorFailed?
  {
  }

  /** A successful run reports status `success` and the trimmed problem; the thoughts sent
      to validation are the normalised raw thoughts of the record, index for index; the
      final answer is the validation payload's `final_answer` (default ""); and for a list
      or string of thoughts the best thought is the one the selection policy picks. */
  lemma PipelineSuccess(
    input: InputSchema, consumerId: string, s: Setup,
    respondR: RunRequest -> ResultEnvelope, respondV: RunRequest -> ResultEnvelope, host: Host)
    requires Pipeline(input, consumerId, s, respondR, respondV, host).Ok?
    ensures var r := Pipeline(input, consumerId, s, respondR, respondV, host).value;
            var reasoningPayload := ExtractPayload(respondR(ReasonRequest(input, consumerId, s)), host.parseJson);
            var stage := ReasoningStage(respondR(ReasonRequest(input, consumerId, s)), host);
            && r.status == "success"
            && r.problem == TrimProblem(input.problem)
            && reasoningPayload.Ok? && stage.Ok?
            && Get(reasoningPayload.value, "thoughts", List([])) == Some(r.reasoningThoughts)
            && Elements(r.reasoningThoughts) == Some(stage.value.items)
            && var request := ValidateRequest(r.problem, NormalizeAll(stage.value.items, host.toStr), consumerId, s);
               && ValidationCalls(input, consumerId, s, respondR, host) == [request]
               && ExtractPayload(respondV(request), host.parseJson) == Ok(r.validationResult)
               && Get(r.validationResult, "final_answer", Str("")) == Some(r.finalAnswer)
               && var index := Get(r.validationResult, "best_thought_index", Int(0));
                  index.Some?
                  && ((r.reasoningThoughts.List? || r.reasoningThoughts.Str?) ==>
                        SelectBest(stage.value.items, index.value) == Ok(r.bestThought))
  {
    var problem := TrimProblem(input.problem);
    var stage := ReasoningStage(respondR(ReasonRequest(input, consumerId, s)), host);
    assert stage.Ok?;
    var reasoned := stage.value;
    var clean := NormalizeAll(reasoned.items, host.toStr);
    var extracted := ExtractPayload(respondV(ValidateRequest(problem, clean, consumerId, s)), host.parseJson);
    assert extracted.Ok?;
    var validation := extracted.value;
    var concluded := Conclude(problem, reasoned, validation);
    assert Unwrapped(input, consumerId, s, respondR, respondV, host) == concluded;
    assert concluded.Ok?;
    var index := Get(validation, "best_thought_index", Int(0));
    var answer := Get(validation, "final_answer", Str(""));
    assert index.Some? && answer.Some?;
    var best := BestThought(reasoned.thoughts, index.value);
    assert best.Ok?;
    assert concluded.value == PipelineResult("success", problem, reasoned.thoughts, validation, answer.value, best.value);
    if reasoned.thoughts.List? || reasoned.thoughts.Str? {
      BestThoughtFollowsPolicy(reasoned.thoughts, index.value);
    }
  }

  /** Once the reasoning stage has produced a list or a string of thoughts, `run` succeeds
      exactly when the validation payload extracts to a dict and the selection policy accepts
      its `best_thought_index` (default 0). In particular an integer index completes the run
      whether it is in range or not: out of range the first thought is used (run.py:164-169). */
  lemma PipelineSucceeds(
    input: InputSchema, consumerId: string, s: Setup,
    respondR: RunRequest -> ResultEnvelope, respondV: RunRequest -> ResultEnvelope, host: Host)
    requires ReasoningStage(respondR(ReasonRequest(input, consumerId, s)), host).Ok?
    requires var thoughts := ReasoningStage(respondR(ReasonRequest(input, consumerId, s)), host).value.thoughts;
             thoughts.List? || thoughts.Str?
    ensures var stage := ReasoningStage(respondR(ReasonRequest(input, consumerId, s)), host).value;
            var request := ValidateRequest(TrimProblem(input.problem), NormalizeAll(stage.items, host.toStr), consumerId, s);
            var payload := ExtractPayload(respondV(request), host.parseJson);
            Pipeline(input, consumerId, s, respondR, respondV, host).Ok?
            <==> payload.Ok? && payload.value.Dict?
                 && SelectBest(stage.items, Get(payload.value, "best_thought_index", Int(0)).value).Ok?
    ensures var stage := ReasoningStage(respondR(ReasonRequest(input, consumerId, s)), host).value;
            var request := ValidateRequest(TrimProblem(input.problem), NormalizeAll(stage.items, host.toStr), consumerId, s);
            var payload := ExtractPayload(respondV(request), host.parseJson);
            payload.Ok? && payload.value.Dict? && Get(payload.value, "best_thought_index", Int(0)).value.Int?
            ==> Pipeline(input, consumerId, s, respondR, respondV, host).Ok?
  {
    var problem := TrimProblem(input.problem);
    var reasoned := ReasoningStage(respondR(ReasonRequest(input, consumerId, s)), host).value;
    var request := ValidateRequest(problem, NormalizeAll(reasoned.items, host.toStr), consumerId, s);
    var payload := ExtractPayload(respondV(request), host.parseJson);
    if payload.Ok? && payload.value.Dict? {
      var index := Get(payload.value, "best_thought_index", Int(0)).value;
      BestThoughtFollowsPolicy(reasoned.thoughts, index);
      assert Unwrapped(input, consumerId, s, respondR, respondV, host) == Conclude(problem, reasoned, payload.value);
    }
  }

  /** A validation agent that reports an error makes `run` fail with the agent's own
      message, wrapped once, after the one validation call (run.py:86-88, 154-158, 185-188). */
  lemma ValidationAgentErrorReported(
    input: InputSchema, consumerId: string, s: Setup,
    respondR: RunRequest -> ResultEnvelope, respondV: RunRequest -> ResultEnvelope, host: Host)
    requires ReasoningStage(respondR(ReasonRequest(input, consumerId, s)), host).Ok?
    requires var stage := ReasoningStage(respondR(ReasonRequest(input, consumerId, s)), host).value;
             respondV(ValidateRequest(TrimProblem(input.problem), NormalizeAll(stage.items, host.toStr), consumerId, s)).status
             == "error"
    ensures var stage := ReasoningStage(respondR(ReasonRequest(input, consumerId, s)), host).value;
            var request := ValidateRequest(TrimProblem(input.problem), NormalizeAll(stage.items, host.toStr), consumerId, s);
            && ValidationCalls(input, consumerId, s, respondR, host) == [request]
            && Pipeline(input, consumerId, s, respondR, respondV, host)
               == Err(OrchestratorFailed(AgentFailed(respondV(request).errorMessage)))
  {
  }

  /** If the reasoning stage fails — the agent reports an error, its result does not decode,
      or its payload has no usable `thoughts` — the validation agent is never called and
      `run` fails with that failure, wrapped. */
  lemma ReasoningFailureStopsRun(
    input: InputSchema, consumerId: string, s: Setup,
    respondR: RunRequest -> ResultEnvelope, respondV: RunRequest -> ResultEnvelope, host: Host)
    requires ReasoningStage(respondR(ReasonRequest(input, consumerId, s)), host).Err?
    ensures ValidationCalls(input, consumerId, s, respondR, host) == []
    ensures Pipeline(input, consumerId, s, respondR, respondV, host)
         == Err(OrchestratorFailed(ReasoningStage(respondR(ReasonRequest(input, consumerId, s)), host).error))
  {
  }

  /** A reasoning agent that reports an error makes `run` fail with the agent's own message,
      before any validation call. */
  lemma ReasoningAgentErrorReported(
    input: InputSchema, consumerId: string, s: Setup,
    respondR: RunRequest -> ResultEnvelope, respondV: RunRequest -> ResultEnvelope, host: Host)
    requires respondR(ReasonRequest(input, consumerId, s)).status == "error"
    ensures ValidationCalls(input, consumerId, s, respondR, host) == []
    ensures Pipeline(input, consumerId, s, respondR, respondV, host)
         == Err(OrchestratorFailed(AgentFailed(respondR(ReasonRequest(input, consumerId, s)).errorMessage)))
  {
  }

  /** A validation payload without `best_thought_index` or `final_answer` still completes the
      run: the index defaults to 0, so the first thought is chosen, and the answer to "". This
      holds whether the payload is a dict result, JSON text decoding to one, or the empty dict
      of an envelope with no results. */
  lemma MissingValidationFieldsDefault(
    input: InputSchema, consumerId: string, s: Setup, thoughts: seq<Value>,
    validation: ResultEnvelope, entries: seq<(string, Value)>, host: Host)
    requires thoughts != []
    requires ExtractPayload(validation, host.parseJson) == Ok(Dict(entries))
    requires !HasKey(entries, "best_thought_index") && !HasKey(entries, "final_answer")
    ensures
      var reasoning := ResultEnvelope("success", Some([Dict([("thoughts", List(thoughts))])]), None);
      Pipeline(input, consumerId, s, _ => reasoning, _ => validation, host)
      == Ok(PipelineResult("success", TrimProblem(input.problem), List(thoughts), Dict(entries), Str(""), thoughts[0]))
  {
    var payload := Dict([("thoughts", List(thoughts))]);
    var reasoning := ResultEnvelope("success", Some([payload]), None);
    var respondR: RunRequest -> ResultEnvelope := _ => reasoning;
    var respondV: RunRequest -> ResultEnvelope := _ => validation;
    var problem := TrimProblem(input.problem);
    var reasoned := Reasoned(List(thoughts), thoughts);
    assert ExtractPayload(reasoning, host.parseJson) == Ok(payload);
    assert Lookup(payload.entries, "thoughts") == Some(List(thoughts));
    assert ReasoningStage(reasoning, host) == Ok(reasoned);
    assert Get(Dict(entries), "best_thought_index", Int(0)) == Some(Int(0));
    assert Get(Dict(entries), "final_answer", Str("")) == Some(Str(""));
    var concluded := Conclude(problem, reasoned, Dict(entries));
    assert BestThought(List(thoughts), Int(0)) == Ok(thoughts[0]);
    assert concluded == Ok(PipelineResult("success", problem, List(thoughts), Dict(entries), Str(""), thoughts[0]));
    assert Unwrapped(input, consumerId, s, respondR, respondV, host) == concluded;
  }

  /** The scenario's problem has no surrounding whitespace and no trailing comma, so it is
      sent as it is. */
  lemma ScenarioProblemKept()
    ensures TrimProblem("What is the sum of all integers from 1 to 100?")
         == "What is the sum of all integers from 1 to 100?"
  {
    var problem := "What is the sum of all integers from 1 to 100?";
    // Split in two, the literal shows the verifier its first and last characters.
    var head, tail := "What is the sum of all ", "integers from 1 to 100?";
    assert problem == head + tail;
    assert head[0] == 'W' && tail[|tail| - 1] == '?';
    assert problem[0] == head[0] && problem[|problem| - 1] == tail[|tail| - 1];
    TrimProblemFixedPoint(problem);
  }

  /** The sum-from-1-to-100 scenario: three thoughts, validation choosing index 2 with answer
      "5050"; the record carries that answer and the third raw thought. */
  lemma EndToEndScenario(consumerId: string, s: Setup, host: Host)
    ensures
      var problem := "What is the sum of all integers from 1 to 100?";
      var thoughts := [Str("pair the terms"), Str("use n(n+1)/2"), Str("add them one by one")];
      var reasoning := ResultEnvelope("success", Some([Dict([("thoughts", List(thoughts))])]), None);
      var validation := Dict([("best_thought_index", Int(2)), ("final_answer", Str("5050"))]);
      var answer := ResultEnvelope("success", Some([validation]), None);
      Pipeline(WithDefaults(problem), consumerId, s, _ => reasoning, _ => answer, host)
      == Ok(PipelineResult("success", problem, List(thoughts), validation, Str("5050"), thoughts[2]))
  {
    var problem := "What is the sum of all integers from 1 to 100?";
    ScenarioProblemKept();
    var thoughts := [Str("pair the terms"), Str("use n(n+1)/2"), Str("add them one by one")];
    var reasoning := ResultEnvelope("success", Some([Dict([("thoughts", List(thoughts))])]), None);
    var validation := Dict([("best_thought_index", Int(2)), ("final_answer", Str("5050"))]);
    var answer := ResultEnvelope("success", Some([validation]), None);
    var respondR: RunRequest -> ResultEnvelope := _ => reasoning;
    var respondV: RunRequest -> ResultEnvelope := _ => answer;
    var reasoned := Reasoned(List(thoughts), thoughts);
    ScenarioStages(problem, host);
    var input := WithDefaults(problem);
    assert ReasoningStage(respondR(ReasonRequest(input, consumerId, s)), host) == Ok(reasoned);
    assert ExtractPayload(answer, host.parseJson) == Ok(validation);
    assert AfterReasoning(problem, reasoned, consumerId, s, respondV, host) == Conclude(problem, reasoned, validation);
  }

  /** The two agent answers of the scenario: the reasoning payload yields the three
      thoughts, and the validation payload concludes with the third one and "5050". */
  lemma ScenarioStages(problem: string, host: Host)
    ensures var thoughts := [Str("pair the terms"), Str("use n(n+1)/2"), Str("add them one by one")];
            var reasoning := ResultEnvelope("success", Some([Dict([("thoughts", List(thoughts))])]), None);
            ReasoningStage(reasoning, host) == Ok(Reasoned(List(thoughts), thoughts))
    ensures var thoughts := [Str("pair the terms"), Str("use n(n+1)/2"), Str("add them one by one")];
            var validation := Dict([("best_thought_index", Int(2)), ("final_answer", Str("5050"))]);
            Conclude(problem, Reasoned(List(thoughts), thoughts), validation)
            == Ok(PipelineResult("success", problem, List(thoughts), validation, Str("5050"), thoughts[2]))
  {
    var thoughts := [Str("pair the terms"), Str("use n(n+1)/2"), Str("add them one by one")];
    var payload := Dict([("thoughts", List(thoughts))]);
    var validation := Dict([("best_thought_index", Int(2)), ("final_answer", Str("5050"))]);
    assert Lookup(payload.entries, "thoughts") == Some(List(thoughts));
    assert Get(validation, "best_thought_index", Int(0)) == Some(Int(2));
    assert Get(validation, "final_answer", Str("")) == Some(Str("5050"));
  }

  /** A deployment as `create` receives it. `agentDeployments` is None when the deployment
      has no `agent_deployments` attribute; `create` may overwrite it (run.py:45). */
  class OrchestratorDeployment {
    var agentDeployments: Option<Value>

    constructor (agentDeployments: Option<Value>)
      ensures this.agentDeployments == agentDeployments
    {
      this.agentDeployments := agentDeployments;
    }
  }

  /** `ReasoningValidationOrchestrator`: its attributes are None until `create` sets them. */
  class Orchestrator {
    var deployment: OrchestratorDeployment?
    var reasoningDeployment: Option<Value>
    var validationDeployment: Option<Value>
    var privateKey: Option<KeyHandle>

    constructor ()
      ensures deployment == null
      ensures reasoningDeployment == None && validationDeployment == None && privateKey == None
    {
      deployment := null;
      reasoningDeployment, validationDeployment, privateKey := None, None, None;
    }

    /** `create` has set everything `run` uses. */
    predicate Ready()
      reads this
    {
      reasoningDeployment.Some? && validationDeployment.Some? && privateKey.Some?
    }

    /** The state `run` uses, as one value. */
    function CurrentSetup(): Setup
      reads this
      requires Ready()
    {
      Setup(reasoningDeployment.value, validationDeployment.value, privateKey.value)
    }

    /** `create` (run.py:26-67). It records the deployment, fills the deployment's agent
        deployments from the configuration document when it has fewer than two, then sets
        the reasoning and validation deployments and the private key, in that order; a
        failure leaves the attributes it had not reached yet as they were. */
    method Create(d: OrchestratorDeployment, config: Option<Value>, env: map<string, string>)
      returns (outcome: Outcome<Failure>)
      modifies this, d
      ensures deployment == d
      ensures var ads := ResolveAgentDeployments(old(d.agentDeployments), config);
              d.agentDeployments == (if ads.Ok? then Some(ads.value) else old(d.agentDeployments))
      ensures var descriptors := ResolveDescriptors(old(d.agentDeployments), config);
              if descriptors.Err? then
                && outcome == Fail(descriptors.error)
                && reasoningDeployment == old(reasoningDeployment)
                && validationDeployment == old(validationDeployment)
                && privateKey == old(privateKey)
              else
                && reasoningDeployment == Some(descriptors.value.0)
                && validationDeployment == Some(descriptors.value.1)
                && privateKey == (if KeyPath(env).Some? then Some(KeyFromPem(KeyPath(env).value)) else old(privateKey))
      ensures var created := CreateResult(old(d.agentDeployments), config, env);
              && (created.Err? ==> outcome == Fail(created.error))
              && (created.Ok? ==> outcome == Pass && Ready() && CurrentSetup() == created.value)
    {
      deployment := d;
      var supplied := d.agentDeployments;
      if supplied.None? || Len(supplied.value).None? || Len(supplied.value).value < 2 {
        if supplied.Some? && Len(supplied.value).None? {
          return Fail(WrongShape(LenOp));
        }
        var loaded := FromConfig(config);
        if loaded.Err? {
          return Fail(loaded.error);
        }
        d.agentDeployments := Some(loaded.value);
      }
      var ads := d.agentDeployments.value;
      if Len(ads).None? || Len(ads).value < 2 {
        return Fail(InsufficientDeployments);
      }
      var reasoning := IndexAt(ads, 0);
      if reasoning.None? {
        return Fail(WrongShape(IndexOp));
      }
      var validation := IndexAt(ads, 1);
      if validation.None? {
        return Fail(WrongShape(IndexOp));
      }
      reasoningDeployment := reasoning;
      validationDeployment := validation;
      var path := KeyPath(env);
      if path.None? {
        return Fail(MissingPrivateKeyPath);
      }
      privateKey := Some(KeyFromPem(path.value));
      outcome := Pass;
    }

    /** `run_agent` (run.py:69-105): one signed call to the agent behind `deployment`, then
        the payload of its envelope. */
    method RunAgent(deployment: Value, inputs: AgentInputs, consumerId: string, invoker: AgentInvoker, host: Host)
      returns (r: Result<Value, Failure>)
      requires privateKey.Some?
      modifies invoker
      ensures invoker.received
           == old(invoker.received) + [RunRequest(consumerId, inputs, deployment, SignedBy(consumerId, privateKey.value))]
      ensures r == ExtractPayload(invoker.respond(RunRequest(consumerId, inputs, deployment, SignedBy(consumerId, privateKey.value))), host.parseJson)
    {
      var request := RunRequest(consumerId, inputs, deployment, SignedBy(consumerId, privateKey.value));
      var e := invoker.Invoke(request);
      if e.status == "error" {
        return Err(AgentFailed(e.errorMessage));
      }
      if e.results.Some? && e.results.value != [] {
        var first := e.results.value[0];
        if first.Str? {
          var decoded := host.parseJson(first.s);
          if decoded.Err? {
            return Err(InvalidResults(decoded.error));
          }
          return Ok(decoded.value);
        }
        return Ok(first);
      }
      return Ok(Dict([]));
    }

    /** The first half of `run` (run.py:113-133): the reasoning call with the trimmed
        problem, and the payload's `thoughts` with the thoughts iterating it yields. */
    method ReasoningStep(input: InputSchema, consumerId: string, reasoner: AgentInvoker, host: Host)
      returns (r: Result<Reasoned, Failure>)
      requires Ready()
      modifies reasoner
      ensures reasoner.received == old(reasoner.received) + [ReasonRequest(input, consumerId, CurrentSetup())]
      ensures r == ReasoningStage(reasoner.respond(ReasonRequest(input, consumerId, CurrentSetup())), host)
    {
      var problem := TrimProblem(input.problem);
      ghost var request := ReasonRequest(input, consumerId, CurrentSetup());
      assert request == RunRequest(consumerId, ReasonInputs(problem, input.numThoughts), reasoningDeployment.value, SignedBy(consumerId, privateKey.value));
      var reasoningResult := RunAgent(reasoningDeployment.value, ReasonInputs(problem, input.numThoughts), consumerId, reasoner, host);
      assert reasoningResult == ExtractPayload(reasoner.respond(request), host.parseJson);
      if reasoningResult.Err? {
        return Err(reasoningResult.error);
      }
      var thoughts := Get(reasoningResult.value, "thoughts", List([]));
      if thoughts.None? {
        return Err(WrongShape(GetOp));
      }
      var items := Elements(thoughts.value);
      if items.None? {
        return Err(WrongShape(LenOp));
      }
      r := Ok(Reasoned(thoughts.value, items.value));
    }

    /** The second half of `run` (run.py:136-183): the normalised thoughts sent to the
        validation agent, the best thought and the final answer taken from its payload, and
        the success record. */
    method ValidationStep(problem: string, reasoned: Reasoned, consumerId: string, validator: AgentInvoker, host: Host)
      returns (r: Result<PipelineResult, Failure>)
      requires Ready()
      requires Elements(reasoned.thoughts) == Some(reasoned.items)
      modifies validator
      ensures validator.received
           == old(validator.received) + [ValidateRequest(problem, NormalizeAll(reasoned.items, host.toStr), consumerId, CurrentSetup())]
      ensures r == AfterReasoning(problem, reasoned, consumerId, CurrentSetup(), validator.respond, host)
    {
      var clean := CleanThoughts(reasoned.items, host.toStr);
      var validationResult := RunAgent(validationDeployment.value, ValidateInputs(problem, clean), consumerId, validator, host);
      if validationResult.Err? {
        return Err(validationResult.error);
      }
      var index := Get(validationResult.value, "best_thought_index", Int(0));
      if index.None? {
        return Err(WrongShape(GetOp));
      }
      var answer := Get(validationResult.value, "final_answer", Str(""));
      var best := BestThought(reasoned.thoughts, index.value);
      if best.Err? {
        return Err(best.error);
      }
      r := Ok(PipelineResult("success", problem, reasoned.thoughts, validationResult.value, answer.value, best.value));
    }

    /** `run` (run.py:107-188): one call to the reasoning agent, then, only if its payload
        yields thoughts, one call to the validation agent with the normalised thoughts; any
        failure is wrapped once by the handler of run.py:185-188. The result is exactly what
        `Pipeline` says. */
    method Run(input: InputSchema, consumerId: string, reasoner: AgentInvoker, validator: AgentInvoker, host: Host)
      returns (r: Result<PipelineResult, Failure>)
      requires Ready()
      requires reasoner != validator
      modifies reasoner, validator
      ensures reasoner.received == old(reasoner.received) + [ReasonRequest(input, consumerId, CurrentSetup())]
      ensures validator.received
           == old(validator.received) + ValidationCalls(input, consumerId, CurrentSetup(), reasoner.respond, host)
      ensures r == Pipeline(input, consumerId, CurrentSetup(), reasoner.respond, validator.respond, host)
    {
      ghost var setup := CurrentSetup();
      ghost var unwrapped := Unwrapped(input, consumerId, setup, reasoner.respond, validator.respond, host);
      var problem := TrimProblem(input.problem);
      var stage := ReasoningStep(input, consumerId, reasoner, host);
      if stage.Err? {
        assert unwrapped == Err(stage.error);
        return Err(OrchestratorFailed(stage.error));
      }
      assert unwrapped == AfterReasoning(problem, stage.value, consumerId, setup, validator.respond, host);
      assert ValidationCalls(input, consumerId, setup, reasoner.respond, host)
          == [ValidateRequest(problem, NormalizeAll(stage.value.items, host.toStr), consumerId, setup)];
      var result := ValidationStep(problem, stage.value, consumerId, validator, host);
      if result.Err? {
        return Err(OrchestratorFailed(result.error));
      }
      r := result;
    }
  }

  /** The module-level `run` (run.py:190-214): a fresh orchestrator is created and run, and
      whatever it raises is raised again unchanged. A failing `create` calls neither agent. */
  method RunModule(
    input: InputSchema, consumerId: string, d: OrchestratorDeployment,
    config: Option<Value>, env: map<string, string>,
    reasoner: AgentInvoker, validator: AgentInvoker, host: Host)
    returns (r: Result<PipelineResult, Failure>)
    requires reasoner != validator
    modifies d, reasoner, validator
    ensures var ads := ResolveAgentDeployments(old(d.agentDeployments), config);
            d.agentDeployments == (if ads.Ok? then Some(ads.value) else old(d.agentDeployments))
    ensures var created := CreateResult(old(d.agentDeployments), config, env);
            if created.Err? then
              && r == Err(created.error)
              && reasoner.received == old(reasoner.received)
              && validator.received == old(validator.received)
            else
              && r == Pipeline(input, consumerId, created.value, reasoner.respond, validator.respond, host)
              && reasoner.received == old(reasoner.received) + [ReasonRequest(input, consumerId, created.value)]
              && validator.received
                 == old(validator.received) + ValidationCalls(input, consumerId, created.value, reasoner.respond, host)
  {
    var orchestrator := new Orchestrator();
    var outcome := orchestrator.Create(d, config, env);
    if outcome.Fail? {
      return Err(outcome.error);
    }
    r := orchestrator.Run(input, consumerId, reasoner, validator, host);
  }
}
