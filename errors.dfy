/** The exceptions the orchestrator raises, one constructor per distinct cause. */
module Errors {
  import opened Results
  import opened PyValues

  datatype Failure =
    /** ValueError: fewer than two agent deployments could be found (run.py:55, 58). */
    | InsufficientDeployments
    /** ValueError: neither private-key environment variable gives a non-empty path. */
    | MissingPrivateKeyPath
    /** RuntimeError "Agent failed: ..." keeping the agent's own error message. */
    | AgentFailed(message: Option<string>)
    /** ValueError "Invalid results format: ...": `decodeError` is the message of the error
        json.loads raised; the rejected text itself is only logged. */
    | InvalidResults(decodeError: string)
    /** TypeError, KeyError, IndexError or AttributeError from a Python operation applied to
        a value of the wrong kind. */
    | WrongShape(op: PyOp)
    /** RuntimeError "Orchestrator execution failed: ..." wrapping whatever `run` caught. */
    | OrchestratorFailed(cause: Failure)

  /** Turns the None of a Python operation into the error it raises. */
  function OrRaise<T>(o: Option<T>, op: PyOp): (r: Result<T, Failure>)
    ensures r.Ok? <==> o.Some?
    ensures o.Some? ==> r.value == o.value
    ensures o.None? ==> r.error == WrongShape(op)
  {
    match o
    case Some(x) => Ok(x)
    case None => Err(WrongShape(op))
  }
}
