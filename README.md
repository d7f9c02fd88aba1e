# Reasoning–validation orchestrator, modelled in Dafny

This project models the bookkeeping of `ReasoningValidationOrchestrator`
(`reasoning_validation_orchestrator/run.py`). The orchestrator runs a reasoning agent, which
proposes thoughts about a problem. It then runs a validation agent, which picks the best
thought and gives a final answer.

The model covers each part of the orchestrator:

- `create` finds the two agent deployments and the private key. It uses the deployment's own
  `agent_deployments`, or else the first entry of the configuration document.
- `run_agent` makes one signed call to an agent and extracts the payload of the result
  envelope.
- `run` performs these steps in order:
  1. It cleans the problem text.
  2. It calls the reasoning agent.
  3. It normalises each thought to the form sent to validation.
  4. It calls the validation agent.
  5. It selects the best thought and builds the success record.
  6. It wraps any failure once as an orchestrator failure.
- The module-level `run` entry point creates an orchestrator and runs it.

Python values are modelled as `PyValues.Value`:

- The kinds are strings, integers, booleans, floats, lists, insertion-ordered dicts, and
  opaque other objects.
- Every Python operation that can raise on the wrong kind (`len`, iteration, indexing, `.get`)
  returns an `Option`. A `None` there becomes the failure `WrongShape(op)`.
- The comparison `0 <= best_thought_idx` works, as in Python, on integers, booleans and
  floats, and fails on every other kind. A boolean is also an index (`True` is 1), but a float
  is not, so a float in range fails at `thoughts[idx]`, while a float out of range falls back
  to the first thought.
- Every exception is a `Failure` constructor.

The design has three layers:

- **Pure specification functions.** `Pipeline`, `ResolveDescriptors`, `CreateResult` and
  `ExtractPayload` state what each step computes.
- **Imperative methods.** `Orchestrator.Create`, `RunAgent`, `ReasoningStep`,
  `ValidationStep`, `Run`, `RunModule` and `CleanThoughts` change state as the source does.
  Each is proved to follow the specification functions.
- **Lemmas.** These state the properties the design promises.

The remote agents are `AgentInvoker` objects. Each one answers with a fixed function
`respond` and logs every request in `received`, so the number of calls an agent gets is
`|received|`.

Where the written description of the system and the code disagree, the model follows the
code:

- The best thought is taken from the raw thoughts, not the normalised ones (run.py:166).
- Nothing in the code sanitises LaTeX.
- The configuration fallback reads only the first entry of one document. That entry must list
  at least two agent deployments, and the first two are used. There is no catalogue lookup by
  name.
- `num_thoughts` is passed through unchecked.
- A failure inside `run` is re-raised as an orchestrator failure (RuntimeError). A failure in
  `create` is raised unchanged.

## Model

| member | source | states |
|---|---|---|
| PyValues.Lookup | reasoning_validation_orchestrator/run.py:138-139 | `key in d` and `d[key]`: a value is found exactly when the key is present, and it is the value stored under that key |
| PyValues.Elements | reasoning_validation_orchestrator/run.py:137 | iteration succeeds on strings, lists and dicts only: a list yields its items, a string its characters, a dict its keys, each of the container's length |
| PyValues.Len | reasoning_validation_orchestrator/run.py:133 | `len` succeeds exactly where iteration does, and agrees with the number of elements iterated |
| PyValues.IndexAt | reasoning_validation_orchestrator/run.py:60-61 | integer indexing succeeds only on a list or string and in range, and gives the element iteration yields at that position |
| PyValues.Get | reasoning_validation_orchestrator/run.py:132 | `.get(key, default)` succeeds exactly on dicts, gives the default when the key is missing and the stored value otherwise |
| Text.RStripSpec | reasoning_validation_orchestrator/run.py:116 | `rstrip(cs)` leaves a prefix, removes only characters of `cs`, and stops at a character outside `cs` |
| Text.LStripSpec | reasoning_validation_orchestrator/run.py:116 | `lstrip(cs)` leaves a suffix, removes only characters of `cs`, and stops at a character outside `cs` |
| Text.RStripLength | reasoning_validation_orchestrator/run.py:116 | the point where `rstrip` stops is uniquely determined by the input |
| Text.LStripLength | reasoning_validation_orchestrator/run.py:116 | the point where `lstrip` stops is uniquely determined by the input |
| Text.TrimProblem | reasoning_validation_orchestrator/run.py:116 | the cleaned problem is the input with its trailing commas cut off and then whitespace cut from both ends, and has no surrounding whitespace |
| Text.CommaCut | reasoning_validation_orchestrator/run.py:116 | `rstrip(',')` leaves a prefix, followed only by commas, that does not end in a comma |
| Text.WsCut | reasoning_validation_orchestrator/run.py:116 | `strip()` leaves a slice with only whitespace around it and none at its ends |
| Text.TrimProblemUnique | reasoning_validation_orchestrator/run.py:116 | any piece of the input cut as just described is exactly the cleaned problem |
| Text.TrimProblemFixedPoint | reasoning_validation_orchestrator/run.py:116 | a problem without surrounding whitespace or a trailing comma is sent unchanged |
| Text.TrimProblemDropsTrailingCommas | reasoning_validation_orchestrator/run.py:116 | `"a,,"` is cleaned to `"a"` |
| Text.TrimProblemKeepsCommaBeforeSpace | reasoning_validation_orchestrator/run.py:116 | commas go before whitespace, so `"a, "` is cleaned to `"a,"` |
| Text.TrimProblemExample | reasoning_validation_orchestrator/run.py:116 | leading whitespace and a trailing comma are both removed |
| Envelopes.ExtractPayload | reasoning_validation_orchestrator/run.py:86-105 | fails exactly on an error status (with the agent's message) or on first-result text that does not decode (with the decoder's message); no results give `{}`; a non-text first result is returned as is; decoded text is what the decoder produced |
| Envelopes.TextAndDictResultsAgree | reasoning_validation_orchestrator/run.py:92-95 | a dict result and its JSON text give the same payload |
| Envelopes.OnlyFirstResultCounts | reasoning_validation_orchestrator/run.py:91-97 | results after the first never affect the payload |
| Envelopes.AgentInvoker.Invoke | reasoning_validation_orchestrator/run.py:74-84 | one call is logged and is answered by the agent's response function |
| Thoughts.NormalizeThought | reasoning_validation_orchestrator/run.py:137-143 | a dict with a `content` key gives that value, a string gives itself, and anything else gives its `str()` text |
| Thoughts.NormalizeAll | reasoning_validation_orchestrator/run.py:136-143 | normalisation keeps the number of thoughts and treats each thought on its own, position by position |
| Thoughts.CleanThoughts | reasoning_validation_orchestrator/run.py:136-143 | the loop builds exactly the normalised thoughts |
| Thoughts.NormalizedThoughtAt | reasoning_validation_orchestrator/run.py:137-143 | the i-th normalised thought is the `content` of a dict that has one, a string itself, and otherwise the `str()` text |
| Thoughts.NormalizeAllAppend | reasoning_validation_orchestrator/run.py:136-143 | normalising a concatenation is concatenating the normalised parts |
| Thoughts.SelectBest | reasoning_validation_orchestrator/run.py:164-171 | the selection policy: the indexed thought when an integer or boolean index is in range, the first thought when a numeric index is out of range, a failure for a float in range and for an index that cannot be compared with 0, and `""` with no thoughts |
| Thoughts.BestThought | reasoning_validation_orchestrator/run.py:164-171 | for a list or string of thoughts, the code's selection is the policy applied to the iterated thoughts |
| Thoughts.BestThoughtFollowsPolicy | reasoning_validation_orchestrator/run.py:164-171 | the code's selection never fails on an integer or boolean index, and it picks one of the thoughts or `""` |
| Thoughts.DictThoughtsFailSelection | reasoning_validation_orchestrator/run.py:165-166 | a non-empty dict of thoughts always fails the selection |
| Thoughts.SelectBestExamples | reasoning_validation_orchestrator/run.py:164-171 | an in-range index, an index too large, a negative index and no thoughts each give the expected choice |
| Thoughts.SelectBestLooseIndexExamples | reasoning_validation_orchestrator/run.py:164-169 | `true` picks the second thought, a float out of range the first, a float in range fails at indexing, and a string index fails at the comparison |
| Deployments.FromConfig | reasoning_validation_orchestrator/run.py:34-55 | the configuration fallback succeeds exactly when the document is a non-empty list whose first entry is a dict with at least two agent deployments; it then gives those deployments, and otherwise fails with the insufficient-deployments error |
| Deployments.ResolveAgentDeployments | reasoning_validation_orchestrator/run.py:32-55 | a successful resolution always has at least two agent deployments; a supplied `agent_deployments` without a length fails with the `len` TypeError before the configuration is consulted |
| Deployments.SuppliedDeploymentsUsed | reasoning_validation_orchestrator/run.py:32 | a deployment that already lists two or more agents keeps them and uses its first two, whatever the configuration says |
| Deployments.FallbackNeedsUsableConfig | reasoning_validation_orchestrator/run.py:32-55 | without two supplied agents, resolution succeeds exactly when the configuration is usable, and uses what it lists |
| Deployments.ConfigDescriptorsUsed | reasoning_validation_orchestrator/run.py:41-61 | the first two deployments of the configuration become the reasoning and validation deployments |
| Deployments.SingleAgentConfigFails | reasoning_validation_orchestrator/run.py:44-48 | a configuration with a single agent deployment is rejected |
| Deployments.SecondCheckNeverFires | reasoning_validation_orchestrator/run.py:57-61 | after resolution the repeated length check never fails; resolution then fails only when the resolved value is a dict |
| Deployments.ResolveDescriptors | reasoning_validation_orchestrator/run.py:57-61 | a failed resolution is propagated; on success the resolved deployments number at least two and the first two are the reasoning and validation deployments |
| Deployments.CreateResult | reasoning_validation_orchestrator/run.py:26-67 | `create` succeeds exactly when the descriptors resolve and a key path is found; a missing path is the missing-key error; on success the setup holds both descriptors and the key loaded from that path |
| Deployments.KeyPath | reasoning_validation_orchestrator/run.py:64-65 | `PRIVATE_KEY_FULL_PATH` wins when it is set, `PRIVATE_KEY` is used otherwise, and an empty or missing path gives no key |
| Deployments.FullKeyPathWins | reasoning_validation_orchestrator/run.py:64-66 | an empty `PRIVATE_KEY_FULL_PATH` hides a non-empty `PRIVATE_KEY` |
| Orchestration.WithDefaults | reasoning_validation_orchestrator/schemas.py:4-6 | `num_thoughts` defaults to 3 |
| Orchestration.ReasonRequest | reasoning_validation_orchestrator/run.py:119-129 | the reasoning request calls `reason` with the given problem and `num_thoughts`, for the consumer, on the reasoning deployment, signed by the key |
| Orchestration.ValidateRequest | reasoning_validation_orchestrator/run.py:148-158 | the validation request calls `validate` with the given problem and thoughts, for the consumer, on the validation deployment, signed by the key |
| Orchestration.ReasoningStage | reasoning_validation_orchestrator/run.py:125-133 | the reasoning stage succeeds exactly when the payload extracts, supports `.get`, and has a `thoughts` value with a length; an extraction failure is passed on unchanged; the thoughts are the payload's `thoughts` entry (or `[]`), and the items are those iterating it gives |
| Orchestration.ValidationCalls | reasoning_validation_orchestrator/run.py:136-158 | the validation agent is called once exactly when the reasoning stage succeeds, with `validate`, the cleaned problem and the normalised thoughts, on the validation deployment |
| Orchestration.Conclude | reasoning_validation_orchestrator/run.py:160-183 | a validation payload that is not a dict fails at `.get`; otherwise the record succeeds exactly when the selection does, and holds status `success`, the problem, the thoughts, the payload, its `final_answer` (default `""`) and the selected thought |
| Orchestration.AfterReasoning | reasoning_validation_orchestrator/run.py:136-183 | a failing validation payload is passed on; an extracted payload gives exactly `Conclude`'s outcome for it; on success the record's validation result is that payload, and its thoughts and problem are the ones passed in |
| Orchestration.Unwrapped | reasoning_validation_orchestrator/run.py:111-183 | a failing reasoning stage is passed on; a successful one leads to exactly the outcome of the validation step on its thoughts and the cleaned problem; on success the record holds status `success`, the cleaned problem and the reasoning stage's thoughts |
| Orchestration.Pipeline | reasoning_validation_orchestrator/run.py:185-188 | `run` succeeds exactly when its `try` block does, with the same record; every failure is an orchestrator failure wrapping exactly what the block raised, which is not itself wrapped |
| Orchestration.PipelineSucceeds | reasoning_validation_orchestrator/run.py:154-183 | after a reasoning stage with list or string thoughts, `run` succeeds exactly when the validation payload extracts to a dict and the selection policy accepts its index; any integer index, in range or not, completes the run |
| Orchestration.ValidationAgentErrorReported | reasoning_validation_orchestrator/run.py:86-88 | a validation agent that reports an error makes `run` fail with that agent's own message, wrapped once, after the one validation call |
| Orchestration.UnwrappedNeverWrapped | reasoning_validation_orchestrator/run.py:111-183 | nothing raised inside the `try` block of `run` is already an orchestrator failure |
| Orchestration.PipelineSuccess | reasoning_validation_orchestrator/run.py:113-183 | a successful run has status `success` and the cleaned problem; its thoughts are the `thoughts` entry of the reasoning payload; exactly one validation request is made, carrying the normalised thoughts; the validation result is the payload that request's answer extracts to; the answer is that payload's `final_answer`; the best thought is the selection policy applied at the payload's index |
| Orchestration.ReasoningFailureStopsRun | reasoning_validation_orchestrator/run.py:125-158 | a failing reasoning stage means the validation agent is never called and `run` fails with that failure, wrapped |
| Orchestration.ReasoningAgentErrorReported | reasoning_validation_orchestrator/run.py:86-88 | a reasoning agent that reports an error makes `run` fail with the agent's own message, before any validation call |
| Orchestration.MissingValidationFieldsDefault | reasoning_validation_orchestrator/run.py:161-169 | any validation payload that is a dict without `best_thought_index` and `final_answer`, given as a dict, as JSON text or as no results, picks the first thought and the answer `""` and keeps the payload as the validation result |
| Orchestration.ScenarioProblemKept | reasoning_validation_orchestrator/run.py:116 | the scenario's problem is sent unchanged |
| Orchestration.ScenarioStages | reasoning_validation_orchestrator/run.py:125-183 | the scenario's reasoning payload yields its three thoughts, and its validation payload concludes with the third and "5050" |
| Orchestration.EndToEndScenario | reasoning_validation_orchestrator/run.py:107-183 | three thoughts, then validation choosing index 2 with answer "5050", give a success record with the third raw thought |
| Orchestration.Orchestrator.Create | reasoning_validation_orchestrator/run.py:26-67 | `create` records the deployment, fills its agent deployments from the configuration when needed, and sets the reasoning, validation and key attributes as resolution says; a failure leaves unreached attributes unchanged |
| Orchestration.Orchestrator.RunAgent | reasoning_validation_orchestrator/run.py:69-105 | one signed call is made to the given deployment, and the result is the payload extracted from its envelope |
| Orchestration.Orchestrator.ReasoningStep | reasoning_validation_orchestrator/run.py:113-133 | one reasoning call is made with the cleaned problem, and its result is the reasoning stage |
| Orchestration.Orchestrator.ValidationStep | reasoning_validation_orchestrator/run.py:136-183 | one validation call is made with the normalised thoughts, and the result is what the specification of the rest of `run` says |
| Orchestration.Orchestrator.Run | reasoning_validation_orchestrator/run.py:107-188 | one reasoning call is made, then at most one validation call, and only when the reasoning stage succeeds; the result is exactly `Pipeline` |
| Orchestration.RunModule | reasoning_validation_orchestrator/run.py:190-214 | a failing `create` is raised unchanged and calls no agent; otherwise the result and the calls are those of `run` on what `create` set up; the deployment's `agent_deployments` becomes the resolved list when resolution succeeds and is otherwise unchanged |

## Left out

- Agent SDK calls (`Agent.create` and `Agent.run`) are an `AgentInvoker` that answers with a fixed function. Asynchrony and concurrency are not modelled; the calls happen in program order.
- Signing and key loading are values fixed by their arguments (`SignedBy` and `KeyFromPem`). Cryptography and file reading are not modelled.
- The file read and `json.load` of the configuration document are one parameter, the parsed document or None. A read or parse error is the same as a missing document: both end in the same error.
- `json.loads` is an abstract parameter `parseJson`, and `str()` of a value is an abstract parameter `toStr`.
- Environment variables are a map parameter.
- Logging is left out: no log call changes control flow. The `len(thoughts)` on run.py:133 is modelled because it can raise.
- Pydantic parsing of `OrchestratorRunInput`, `InputSchema` and `ValidationInputModel` (run.py:19-23, 196-203) is left out. `RunModule` takes an already-parsed input, and the thoughts sent to validation are not checked to be strings.
- `None` has no kind of its own. It falls under opaque values, so `len`, iteration, indexing, `.get` and comparison with an integer fail on it.
- Floats are real numbers. NaN and the infinities, which `json.loads` also accepts, are not modelled; as an index each of them would fall back to the first thought.
- The exception messages of run.py are not modelled. Each failure records its cause as a constructor, carrying the agent's message, or the decoder's message for an invalid-results failure. The rejected text itself is only logged (run.py:100-102), and logging is left out.
- The `__main__` block (run.py:216-247) is a local test driver and is left out.
- A deployment without an `agent_deployments` attribute is the value None of `OrchestratorDeployment.agentDeployments`. An attribute holding Python `None` is an opaque value, so `len` fails on it, as in the code.
