/** How `create` (run.py:26-67) finds the two agent deployments and the private key: the
    deployment's own `agent_deployments` when it has at least two, otherwise the first entry
    of the configuration document; index 0 is the reasoning agent, index 1 the validation
    agent. */
module Deployments {
  import opened Results
  import opened PyValues
  import opened Errors
  import opened Envelopes

  /** The configuration document, as `json.load` read it, can stand in for the deployment's
      agent deployments: it is a non-empty list whose first entry is a dict with an
      `agent_deployments` entry of length at least 2. */
  predicate ConfigUsable(config: Option<Value>) {
    && config.Some? && config.value.List? && config.value.items != []
    && config.value.items[0].Dict?
    && var ads := Lookup(config.value.items[0].entries, "agent_deployments");
       ads.Some? && Len(ads.value).Some? && Len(ads.value).value >= 2
  }

  /** The `agent_deployments` the configuration document supplies, when it is usable. */
  function ConfigDeployments(config: Option<Value>): Value
    requires ConfigUsable(config)
  {
    Lookup(config.value.items[0].entries, "agent_deployments").value
  }

  /** The fallback of run.py:34-55. A document that is missing or does not parse is None.
      Every way the document can fall short, including the TypeError of looking a key up in
      an entry that is not a dict, is caught and becomes the one ValueError of run.py:55. */
  function FromConfig(config: Option<Value>): (r: Result<Value, Failure>)
    ensures r.Ok? <==> ConfigUsable(config)
    ensures r.Ok? ==> r.value == ConfigDeployments(config)
    ensures r.Err? ==> r.error == InsufficientDeployments
  {
    match config
    case Some(List(docs)) =>
      if docs == [] then Err(InsufficientDeployments)
      else
        (match docs[0]
         case Dict(entries) =>
           (match Lookup(entries, "agent_deployments")
            case Some(ads) =>
              if Len(ads).Some? && Len(ads).value >= 2 then Ok(ads) else Err(InsufficientDeployments)
            case None => Err(InsufficientDeployments))
         case _ => Err(InsufficientDeployments))
    case _ => Err(InsufficientDeployments)
  }

  /** The `agent_deployments` the deployment holds once run.py:32-55 has run. `supplied` is
      None when the deployment has no such attribute. A supplied value with no length raises
      the TypeError of `len` before the fallback is reached. */
  function ResolveAgentDeployments(supplied: Option<Value>, config: Option<Value>): (r: Result<Value, Failure>)
    ensures r.Ok? ==> Len(r.value).Some? && Len(r.value).value >= 2
    ensures supplied.Some? && Len(supplied.value).None? ==> r == Err(WrongShape(LenOp))
  {
    if supplied.Some? && Len(supplied.value).None? then Err(WrongShape(LenOp))
    else if supplied.Some? && Len(supplied.value).value >= 2 then Ok(supplied.value)
    else FromConfig(config)
  }

  /** The reasoning and validation deployments (run.py:57-61): elements 0 and 1 of the
      resolved `agent_deployments`, after the repeated length check of run.py:57. */
  function ResolveDescriptors(supplied: Option<Value>, config: Option<Value>): (r: Result<(Value, Value), Failure>)
    ensures ResolveAgentDeployments(supplied, config).Err? ==> r == Err(ResolveAgentDeployments(supplied, config).error)
    ensures r.Ok? ==>
              && ResolveAgentDeployments(supplied, config).Ok?
              && var items := Elements(ResolveAgentDeployments(supplied, config).value).value;
                 |items| >= 2 && r.value == (items[0], items[1])
  {
    var ads :- ResolveAgentDeployments(supplied, config);
    if Len(ads).None? || Len(ads).value < 2 then Err(InsufficientDeployments)
    else
      var reasoning :- OrRaise(IndexAt(ads, 0), IndexOp);
      var validation :- OrRaise(IndexAt(ads, 1), IndexOp);
      Ok((reasoning, validation))
  }

  /** `os.getenv("PRIVATE_KEY_FULL_PATH", os.getenv("PRIVATE_KEY"))` (run.py:64), None when
      that is unset or empty (run.py:65). */
  function KeyPath(env: map<string, string>): (r: Option<string>)
    ensures r.Some? ==> r.value != ""
    ensures "PRIVATE_KEY_FULL_PATH" in env ==>
              r == (if env["PRIVATE_KEY_FULL_PATH"] == "" then None else Some(env["PRIVATE_KEY_FULL_PATH"]))
    ensures "PRIVATE_KEY_FULL_PATH" !in env && "PRIVATE_KEY" in env ==>
              r == (if env["PRIVATE_KEY"] == "" then None else Some(env["PRIVATE_KEY"]))
    ensures "PRIVATE_KEY_FULL_PATH" !in env && "PRIVATE_KEY" !in env ==> r == None
  {
    var path :=
      if "PRIVATE_KEY_FULL_PATH" in env then Some(env["PRIVATE_KEY_FULL_PATH"])
      else if "PRIVATE_KEY" in env then Some(env["PRIVATE_KEY"])
      else None;
    if path.None? || path.value == "" then None else path
  }

  /** What a successful `create` leaves behind for `run`. */
  datatype Setup = Setup(reasoning: Value, validation: Value, key: KeyHandle)

  /** The outcome of `create` (run.py:26-67), its state changes aside. */
  function CreateResult(supplied: Option<Value>, config: Option<Value>, env: map<string, string>): (r: Result<Setup, Failure>)
    ensures ResolveDescriptors(supplied, config).Err? ==> r == Err(ResolveDescriptors(supplied, config).error)
    ensures ResolveDescriptors(supplied, config).Ok? && KeyPath(env).None? ==> r == Err(MissingPrivateKeyPath)
    ensures r.Ok? <==> ResolveDescriptors(supplied, config).Ok? && KeyPath(env).Some?
    ensures r.Ok? ==>
              && (r.value.reasoning, r.value.validation) == ResolveDescriptors(supplied, config).value
              && r.value.key == KeyFromPem(KeyPath(env).value)
  {
    var descriptors :- ResolveDescriptors(supplied, config);
    match KeyPath(env)
    case None => Err(MissingPrivateKeyPath)
    case Some(path) => Ok(Setup(descriptors.0, descriptors.1, KeyFromPem(path)))
  }

  /** When the deployment already lists two or more agent deployments as a list, the
      reasoning and validation deployments are exactly its first two elements, and the
      configuration document is never consulted. */
  lemma SuppliedDeploymentsUsed(items: seq<Value>, config: Option<Value>)
    requires |items| >= 2
    ensures ResolveAgentDeployments(Some(List(items)), config) == Ok(List(items))
    ensures ResolveDescriptors(Some(List(items)), config) == Ok((items[0], items[1]))
  {
  }

  /** Without two supplied agent deployments, resolution succeeds exactly when the
      configuration document is usable, and then uses what the document lists. */
  lemma FallbackNeedsUsableConfig(supplied: Option<Value>, config: Option<Value>)
    requires supplied.None? || (Len(supplied.value).Some? && Len(supplied.value).value < 2)
    ensures ResolveAgentDeployments(supplied, config).Ok? <==> ConfigUsable(config)
    ensures ConfigUsable(config) ==>
              ResolveAgentDeployments(supplied, config) == Ok(ConfigDeployments(config))
    ensures !ConfigUsable(config) ==>
              ResolveAgentDeployments(supplied, config) == Err(InsufficientDeployments)
  {
  }

  /** A configuration whose first entry names a list of at least two agent deployments gives
      its first two as the reasoning and validation deployments. */
  lemma ConfigDescriptorsUsed(supplied: Option<Value>, rest: seq<Value>, entries: seq<(string, Value)>, ads: seq<Value>)
    requires supplied.None? || (Len(supplied.value).Some? && Len(supplied.value).value < 2)
    requires Lookup(entries, "agent_deployments") == Some(List(ads)) && |ads| >= 2
    ensures ResolveDescriptors(supplied, Some(List([Dict(entries)] + rest))) == Ok((ads[0], ads[1]))
  {
    assert ([Dict(entries)] + rest)[0] == Dict(entries);
  }

  /** A configuration naming a single agent deployment is an error. */
  lemma SingleAgentConfigFails(supplied: Option<Value>, agent: Value, rest: seq<Value>)
    requires supplied.None? || (Len(supplied.value).Some? && Len(supplied.value).value < 2)
    ensures ResolveDescriptors(supplied, Some(List([Dict([("agent_deployments", List([agent]))])] + rest)))
         == Err(InsufficientDeployments)
  {
    var config := Some(List([Dict([("agent_deployments", List([agent]))])] + rest));
    assert config.value.items[0] == Dict([("agent_deployments", List([agent]))]);
    assert !ConfigUsable(config);
  }

  /** After resolution there are always at least two agent deployments, so the second
      length check (run.py:57-58) never fires; the only way left to fail after resolution is
      indexing a resolved value that is a dict. */
  lemma SecondCheckNeverFires(supplied: Option<Value>, config: Option<Value>)
    requires ResolveAgentDeployments(supplied, config).Ok?
    ensures var ads := ResolveAgentDeployments(supplied, config).value;
            ResolveDescriptors(supplied, config).Err? <==> ads.Dict?
  {
  }

  /** A set `PRIVATE_KEY_FULL_PATH` wins over `PRIVATE_KEY` even when it is empty, and an
      empty one makes `create` fail whatever `PRIVATE_KEY` says. */
  lemma FullKeyPathWins(env: map<string, string>)
    requires "PRIVATE_KEY_FULL_PATH" in env && "PRIVATE_KEY" in env
    requires env["PRIVATE_KEY_FULL_PATH"] == "" && env["PRIVATE_KEY"] != ""
    ensures KeyPath(env) == None
  {
  }
}
