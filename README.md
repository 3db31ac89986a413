# Prefect agent, client and schema logic in Dafny

This project models the sequential core of Prefect's orchestration agent (release 2.x), together with the parts of its API client and core schemas the agent relies on. The network is abstract throughout: every answer from the API server is a parameter of the operation that receives it.

- `common.dfy` (module `Common`) holds the shared values:
  - `Option`, `Result` and `Outcome`;
  - `Doc`, a JSON-like value (None, scalars, lists, dicts with string keys);
  - run states;
  - Python's `str.split`, used on dot-delimited paths.
- `overrides.dfy` (module `InfraOverrides`) holds the infrastructure-override merge of `OrionAgent.get_infrastructure`.
  - Each override key is split on `.`. The merge descends through every segment but the last and assigns the value under the last one.
  - A missing intermediate key fails with `MissingKey` (Python's KeyError). Nothing is created.
  - Reading a field from something that is not a dict fails with `NotAMapping` (TypeError).
  - `SetPath` and `ApplyOverrides` are the specification.
  - `ApplyOverride` and `MergeOverrides` are the loops that walk the tree and rebuild it, proved equal to that specification.
  - The lemmas state what the merge does: the addressed leaf is set, nothing off the path changes, a later override of the same path wins, and the first error aborts the merge.
- `schemas.dfy` (module `Schemas`) holds:
  - the invalid-character name check used by every named record;
  - the documented defaults of flows, work queues, deployments, block types and flow-run policies;
  - the block-document name rules;
  - flow-run equality that ignores the two rolling estimates, and `set_name`;
  - the obfuscation of secret fields over flattened block data.
- `client.dfy` (module `Client`) holds:
  - the retry of `PrefectHttpxClient.send` on HTTP 429;
  - the per-(thread, application) lifespan reference counts, as a `LifespanRegistry` class;
  - the settings and header defaults of `OrionClient.__init__`, and the client's start/close lifecycle;
  - the request body of `update_flow_run`;
  - the dispatch of `propose_state` on the orchestration answer.
- `agent.dfy` (module `Agent`) holds the `OrionAgent` class:
  - the choice of default infrastructure;
  - the work-queue cache with its 30-second expiry;
  - the gathering of runs from the active queues;
  - the de-duplicated launch of runs not already being submitted;
  - `submit_run` and its bookkeeping of submitting ids;
  - `get_infrastructure`, which uses the merge above;
  - `shutdown`.

Time is an integer number of seconds, given by the caller.

Three behaviours of the source are modelled exactly as written:
- In `submit_run` (agent.py:187-208), an exception from `get_infrastructure` propagates before the run's id is removed from `submitting_flow_run_ids`. The agent then skips that run until `shutdown`.
- In `send` (client.py:256-283), only the first response is wrapped as a `PrefectResponse`. A 4xx/5xx response obtained by a retry therefore raises httpx's plain `HTTPStatusError`, not `PrefectHTTPStatusError`.
- A missing intermediate key is not created: `data[field]` (agent.py:175) raises KeyError, and the model does the same.

## Model

| member | source | states |
|---|---|---|
| Common.Split | src/prefect/agent.py:172 | `str.split('.')` gives at least one piece, and no piece contains the separator |
| Common.JoinSplit | src/prefect/agent.py:172 | joining the pieces of a split gives back the original path |
| Common.SplitJoin | src/prefect/agent.py:172 | splitting a join of dot-free segments gives back the segments |
| Common.PendingState | src/prefect/agent.py:213 | the state the agent proposes is of type Pending and carries (empty) details |
| InfraOverrides.Lookup | src/prefect/agent.py:174-175 | the `data = data[field]` descent: the empty path reads the document itself, and a non-empty path reads only through a dict holding its first key |
| InfraOverrides.SetPath | src/prefect/agent.py:172-178 | one override: assigning into a non-dict is a TypeError on the first segment, and a success starts from a dict and gives a dict |
| InfraOverrides.ApplyOverrides | src/prefect/agent.py:169-178 | overrides applied in order to a dict leave a dict |
| InfraOverrides.SetPathSucceeds | src/prefect/agent.py:172-178 | one override succeeds iff reading every segment but the last reaches a dict |
| InfraOverrides.SetPathMissing | src/prefect/agent.py:173-175 | a missing intermediate key fails the override with that key (KeyError); no node is created |
| InfraOverrides.SetPathSets | src/prefect/agent.py:178 | after a successful override the addressed leaf holds the value |
| InfraOverrides.SetPathBelow | src/prefect/agent.py:178 | paths below the addressed leaf read from the assigned value |
| InfraOverrides.SetPathFrame | src/prefect/agent.py:172-178 | every path that neither extends nor is an ancestor of the override path is unchanged |
| InfraOverrides.SetPathAncestors | src/prefect/agent.py:173-178 | ancestors stay dicts; only the next segment's key can be added to them, and intermediate keys already existed |
| InfraOverrides.SetPathLastWins | src/prefect/agent.py:171-178 | overriding the same path twice equals overriding it once with the later value |
| InfraOverrides.ApplyOverridesErr | src/prefect/agent.py:171-178 | the first failing override fails the whole merge with its error |
| InfraOverrides.ApplyOverridesUntouched | src/prefect/agent.py:171-178 | a path unrelated to every override path keeps its value after the merge |
| InfraOverrides.ApplyOverridesTakesEffect | src/prefect/agent.py:171-178 | an override not followed by an overlapping one holds its value after the merge |
| InfraOverrides.ApplyOverride | src/prefect/agent.py:172-178 | the descend-then-assign loop computes exactly `SetPath` (result and error) |
| InfraOverrides.MergeOverrides | src/prefect/agent.py:169-181 | the loop over all overrides computes exactly `ApplyOverrides` on the document's data |
| InfraOverrides.ExampleNestedOverride | src/prefect/agent.py:172-178 | `env.API_KEY` sets the key inside the existing `env` dict |
| InfraOverrides.ExampleNotAMapping | src/prefect/agent.py:175 | descending into a string fails (TypeError) |
| InfraOverrides.ExampleMissingIntermediate | src/prefect/agent.py:175 | `env.X` on data without `env` fails with KeyError `env` |
| Schemas.ContainsAny | src/prefect/orion/schemas/core.py:39 | true iff some listed character occurs in the name |
| Schemas.RaiseOnInvalidName | src/prefect/orion/schemas/core.py:18-43 | fails iff the name contains one of `/ % & > <`, with that name |
| Schemas.InvalidCharactersListed | src/prefect/orion/schemas/core.py:18 | the invalid characters are exactly `/ % & > <` |
| Schemas.NewFlow | src/prefect/orion/schemas/core.py:46-59 | a flow is accepted iff its name is valid; tags default to empty |
| Schemas.NewWorkQueue | src/prefect/orion/schemas/core.py:640-662 | accepted iff the name is valid; not paused, no concurrency limit, empty description, no filter |
| Schemas.NewDeployment | src/prefect/orion/schemas/core.py:328-390 | accepted iff the name is valid; schedule active, parameters, tags and overrides empty, no work queue, no infrastructure document |
| Schemas.NewBlockType | src/prefect/orion/schemas/core.py:404-428 | accepted iff the name is valid; not protected |
| Schemas.BlockDocumentErrors | src/prefect/orion/schemas/core.py:508-522 | a None name skips the character check; a non-anonymous document needs a non-empty valid name; an anonymous one may have none |
| Schemas.NewBlockDocument | src/prefect/orion/schemas/core.py:484-522 | a block document is accepted iff it passes both validators, and is rejected with their errors otherwise |
| Schemas.DefaultFlowRunPolicy | src/prefect/orion/schemas/core.py:88-94 | no retries and no retry delay |
| Schemas.SetName | src/prefect/orion/schemas/core.py:191-193 | a non-empty supplied name is kept; otherwise the generated slug is used |
| Schemas.FlowRunEquals | src/prefect/orion/schemas/core.py:195-207 | two flow runs are equal iff every field other than the two estimates is equal |
| Schemas.FlowRunEqualsIgnoresEstimates | src/prefect/orion/schemas/core.py:199-206 | changing only the estimates keeps a run equal to itself |
| Schemas.FlowRunEqualsEquivalence | src/prefect/orion/schemas/core.py:195-207 | the equality is reflexive, symmetric and transitive |
| Schemas.ObfuscateField | src/prefect/orion/schemas/core.py:545-547 | definition: one secret field's value is obfuscated when present and not None |
| Schemas.ObfuscateFields | src/prefect/orion/schemas/core.py:542-547 | definition: every secret field in the schema's order |
| Schemas.ObfuscateFieldsFrame | src/prefect/orion/schemas/core.py:538-548 | obfuscation keeps the keys, every non-secret key and every None value |
| Schemas.ObfuscateFieldsSecret | src/prefect/orion/schemas/core.py:542-547 | a secret field's non-None value becomes its obfuscated form |
| Schemas.ObfuscateSecrets | src/prefect/orion/schemas/core.py:538-548 | with `include_secrets` the data is untouched; otherwise the loop computes the fold over the secret fields, with the frame above |
| Client.Pow2 | src/prefect/client.py:272 | definition: `2**k` |
| Client.DelayBefore | src/prefect/client.py:267-272 | the wait follows a non-empty Retry-After header, and is the back-off `2**retry_count` otherwise |
| Client.IsErrorStatus | src/prefect/client.py:281 | definition: the 4xx and 5xx statuses `raise_for_status` raises for |
| Client.Send | src/prefect/client.py:254-283 | at most 6 requests; all but the last answered 429; a final 429 only after 5 retries; each wait follows Retry-After or is 2^k; any 4xx/5xx final response raises |
| Client.BackoffSchedule | src/prefect/client.py:265-272 | without Retry-After the waits are 2, 4, 8, 16 and 32 seconds |
| Client.EnterLifespans | src/prefect/client.py:175-183 | definition: a new manager with timeouts 30 only when the key is absent |
| Client.EnterCounts | src/prefect/client.py:175-183 | definition: count 1 for a new key, one more for a known key |
| Client.ExitLifespans | src/prefect/client.py:201-206 | definition: the manager is removed when the decremented count is ≤ 0 |
| Client.ExitCounts | src/prefect/client.py:201-205 | definition: the count is decremented, and removed when it is ≤ 0 |
| Client.LifespanTablesStayValid | src/prefect/client.py:174-207 | entering and exiting keep both tables on the same keys with positive counts; an exit closes iff the count was 1 |
| Client.EnterThenExitRestores | src/prefect/client.py:174-207 | a nested entry followed by its exit restores both tables |
| Client.LifespanRegistry.Enter | src/prefect/client.py:174-187 | the first entry creates a manager (timeouts 30) with count 1; later entries increment the count |
| Client.LifespanRegistry.Exit | src/prefect/client.py:199-207 | the count is decremented; at ≤ 0 the key leaves both tables together; an unknown key is a KeyError |
| Client.SetDefault | src/prefect/client.py:317-323 | `setdefault` adds the key only when absent and never changes other keys |
| Client.ClientSettings | src/prefect/client.py:316-354 | a url with `app` is a ValueError; another api type is a TypeError; the version and auth headers are added only when non-empty and absent; timeout, base url and app default as written |
| Client.OrionClient.constructor | src/prefect/client.py:326-333 | a new client is neither started nor closed and manages its lifespan |
| Client.OrionClient.AEnter | src/prefect/client.py:1942-1984 | a closed client and a started client refuse; otherwise the application's lifespan is entered when managed and the client is started last |
| Client.OrionClient.AExit | src/prefect/client.py:1986-1991 | the client is closed, stays started, and releases the lifespan it entered |
| Client.OrionClient.Enter | src/prefect/client.py:1993-1997 | synchronous entry always fails |
| Client.TagsDoc | src/prefect/client.py:648-649 | the tags are sent as a list of strings, in order |
| Client.UpdateFlowRunRequest | src/prefect/client.py:641-649 | the body holds exactly the arguments that are not None, each with its value |
| Client.ProposeTarget | src/prefect/client.py:1771-1787 | fails with neither id; the task run is preferred when both are given |
| Client.FirstDecision | src/prefect/client.py:1799-1810 | the index of the first answer that is not WAIT |
| Client.Orchestrate | src/prefect/client.py:1789-1818 | WAIT proposes again; ACCEPT returns the proposed state with the server's details when given; REJECT returns the server's state; ABORT raises with the reason; any other status is a ValueError |
| Client.ProposeState | src/prefect/client.py:1771-1818 | no id is an error; otherwise the answers for the chosen run decide |
| Agent.ProcessInfrastructure | src/prefect/agent.py:59 | the fallback `Process()` has no saved document |
| Agent.ResolveDefaults | src/prefect/agent.py:34-60 | both defaults is a ValueError; an infrastructure brings its document id; a document id alone has no infrastructure; neither gives `Process()` with no id |
| Agent.OrionAgent.constructor | src/prefect/agent.py:39-60 | the agent holds the distinct queue names, the prefetch and the resolved defaults; it is not started and its submitting set and cache are empty |
| Agent.NewAgent | src/prefect/agent.py:26-60 | construction fails exactly when both defaults are given; otherwise the agent is idle with an empty submitting set and cache |
| Agent.Dedup | src/prefect/agent.py:39 | the queue names are distinct and are exactly the given names |
| Agent.LoadQueues | src/prefect/agent.py:80-99 | the reload stops at a failed read, which it names; without one, no name's read failed |
| Agent.LoadQueuesAllAnswered | src/prefect/agent.py:80-99 | when every queue is read or created, the cache holds exactly those queues in order |
| Agent.LoadQueuesSkipsCreateFailed | src/prefect/agent.py:86-96 | a queue whose creation fails is skipped |
| Agent.LoadQueuesFailureStays | src/prefect/agent.py:81-82 | a failed read ends the reload |
| Agent.QueuesFor | src/prefect/agent.py:69-99 | a fresh cache is returned as is; otherwise the reload fails iff some read failed |
| Agent.OrionAgent.GetWorkQueues | src/prefect/agent.py:62-99 | the cache is honoured while its expiry is later than now; otherwise it is cleared, expires in 30 seconds and is refilled |
| Agent.CacheFresh | src/prefect/agent.py:70 | definition: `(expiration or now) > now`, so a missing expiry is never fresh |
| Agent.Before | src/prefect/agent.py:111-113 | the horizon is now plus `prefetch_seconds`, or plus the setting when `prefetch_seconds` is None or 0 |
| Agent.Submittable | src/prefect/agent.py:118-137 | definition: the runs of every queue, in queue order |
| Agent.QueueRuns | src/prefect/agent.py:121-137 | a paused queue or a failed fetch contributes no runs |
| Agent.Active | src/prefect/agent.py:121 | a queue is among the active queues iff it is in the list and not paused |
| Agent.SubmittableSkipsPaused | src/prefect/agent.py:118-137 | paused queues contribute nothing: gathering from the active queues alone gives the same runs |
| Agent.Launch | src/prefect/agent.py:139-150 | launched runs have distinct ids, none already being submitted; afterwards every gathered run's id is being submitted, and exactly the launched ids were added |
| Agent.GatherRuns | src/prefect/agent.py:118-137 | the gathering loop computes exactly the runs `Submittable` describes |
| Agent.OrionAgent.LaunchRuns | src/prefect/agent.py:139-150 | the submission loop's launched runs and new submitting set are exactly those of `Launch` |
| Agent.OrionAgent.GetAndSubmitFlowRuns | src/prefect/agent.py:101-152 | refused unless started; runs are fetched up to `now + prefetch` (the setting when 0 or None); the result is the gathered runs and the launch follows `Launch` |
| Agent.InfrastructureDocumentId | src/prefect/agent.py:158-161 | the deployment's document when set, otherwise the agent default |
| Agent.OrionAgent.GetInfrastructure | src/prefect/agent.py:154-185 | read failures propagate; the overrides are merged into the document's data as `ApplyOverrides` says |
| Agent.ProposePending | src/prefect/agent.py:210-234 | ready iff the proposal neither failed nor returned a non-pending state |
| Agent.PendingProposalReady | src/prefect/agent.py:210-234 | proposing Pending makes a run ready iff the deciding answer accepts, or rejects with a pending state |
| Agent.OrionAgent.SubmitRun | src/prefect/agent.py:187-208 | a ready run is launched on its infrastructure; the id is removed afterwards unless getting the infrastructure failed |
| Agent.OrionAgent.Start | src/prefect/agent.py:257-268 | the agent is started and has a default document id afterwards; an unsaved default is saved |
| Agent.OrionAgent.Shutdown | src/prefect/agent.py:270-278 | clears `started`, the submitting set, the queue cache and its expiry |

## Left out

- HTTP requests, JSON and pydantic (de)serialisation, and the mapping of 404/409 to exceptions are left out. Every server answer is a parameter.
- The `anyio` locks, `CancelScope` shielding, task groups and the `LifespanManager` startup/shutdown are concurrency and foreign code. Only the sequential bookkeeping around them is modelled.
- Client.Send: parsing a Retry-After value as a float and the sleeps are left out. A non-empty header is recorded as the wait, not converted.
- Client.Orchestrate: a server that keeps answering WAIT is modelled by a finite sequence of answers. Running out of answers is the extra error `NoAnswer`.
- Client.Orchestrate: an ACCEPT or REJECT answer without a state gives `MissingState`. The source raises AttributeError for ACCEPT and returns None for REJECT; the agent then fails on `None.is_pending()`. `ProposePending` treats both as not ready.
- Client.ClientSettings: a setting present with the value None is not distinguished from an absent setting. The caller's `headers` dict is updated in place by the shallow copy; that aliasing is not modelled.
- Client.OrionClient.AEnter: entering the httpx client and the exit stack itself are left out, as are the log messages.
- `resolve_datadoc`, `stable_hash` and task-run naming depend on foreign encoders and hashing, so they are left out.
- Agent.OrionAgent.GetWorkQueues: Python iterates `set(work_queues)` in hash order. The model iterates in first-occurrence order, which is one such order.
- Agent.OrionAgent.GetInfrastructure: the merged document is not re-validated by `BlockDocument(**doc_dict)`. `Block._from_block_document` is not part of this model, so the result is the merged block document.
- Agent.OrionAgent.SubmitRun: when REJECT comes back without a state, the source fails on `None.is_pending()` (agent.py:227) outside the `try`, so `submit_run` never reaches the removal at agent.py:208 and the id stays in the submitting set. The model reports `NotReady` and removes the id.
- Agent.OrionAgent.SubmitRun: `submit_flow_run` and `_propose_failed_state` are foreign calls. Whether the launch succeeded is a parameter, and a failed launch is reported as `SubmissionFailed`.
- Agent.OrionAgent.Start: getting and entering the agent's client is left out. The id that `_save` returns is a parameter.
- Schemas: `generate_slug` (random) is a parameter of `SetName`.
- Schemas: `obfuscate_string` is a parameter. `dict_to_flatdict` and `flatdict_to_dict` are not part of this model, so the data is taken already flattened.
- Schemas: the `str.format` message-template validator and the ORM machinery are left out. `retry_delay_seconds` is a `real`.
- Schemas.FlowRunEquals: comparison with a non-FlowRun object (`super().__eq__`) is not modelled.
- Update in place is modelled on values. The dicts that `get_infrastructure` mutates are rebuilt as new `Doc` values, so aliasing between nested dicts is not captured.
