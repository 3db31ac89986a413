/**
 * The API client's own logic, with the network abstracted: the bounded retry
 * on HTTP 429, the per-application lifespan reference counts, the client's
 * settings, its start/close lifecycle, the body of `update_flow_run` and the
 * dispatch on the orchestration answer in `propose_state`.
 */
module Client {
  import opened Common

  // ---------------------------------------------------------------------------
  // PrefectHttpxClient.send: retry on 429 Too Many Requests

  /** At most this many retries follow the first request. */
  const RetryMax: nat := 5
  const TooManyRequests: int := 429

  datatype Response = Response(status: int, retryAfter: Option<string>)

  /** What `send` sleeps for before a retry: the Retry-After header, or an exponential back-off. */
  datatype Delay = RetryAfterHeader(header: string) | Backoff(seconds: nat)

  /**
   * The error `raise_for_status` raises. Only the first response is wrapped as a
   * PrefectResponse; a response obtained by a retry raises the plain httpx error.
   */
  datatype SendError = PrefectHttpStatusError(status: int) | HttpStatusError(status: int)

  function Pow2(k: nat): nat {
    if k == 0 then 1 else 2 * Pow2(k - 1)
  }

  /** The wait before retry number `retryCount`, after the 429 response `previous`. */
  function DelayBefore(previous: Response, retryCount: nat): (d: Delay)
    ensures d.RetryAfterHeader? <==> previous.retryAfter.Some? && previous.retryAfter.value != ""
    ensures d.RetryAfterHeader? ==> d.header == previous.retryAfter.value
  {
    if previous.retryAfter.Some? && previous.retryAfter.value != "" then RetryAfterHeader(previous.retryAfter.value)
    else Backoff(Pow2(retryCount))
  }

  /** httpx's error classes: client errors (4xx) and server errors (5xx). */
  predicate IsErrorStatus(status: int) {
    400 <= status <= 599
  }

  /**
   * `send`, with `server(k)` the response to the k-th request (counting from 0).
   * At most RetryMax + 1 requests are made; all but the last were answered 429,
   * and the last is either not 429 or the sixth. The final response always goes
   * through `raise_for_status`.
   */
  method Send(server: nat -> Response)
    returns (response: Response, attempts: nat, delays: seq<Delay>, result: Result<Response, SendError>)
    ensures 1 <= attempts <= RetryMax + 1
    ensures response == server(attempts - 1)
    ensures forall k :: 0 <= k < attempts - 1 ==> server(k).status == TooManyRequests
    ensures response.status == TooManyRequests ==> attempts == RetryMax + 1
    ensures |delays| == attempts - 1
    ensures forall k :: 0 <= k < |delays| ==> delays[k] == DelayBefore(server(k), k + 1)
    ensures IsErrorStatus(response.status) ==>
              result == Err(if attempts == 1 then PrefectHttpStatusError(response.status)
                            else HttpStatusError(response.status))
    ensures !IsErrorStatus(response.status) ==> result == Ok(response)
  {
    var retryCount: nat := 0;
    response := server(0);
    delays := [];
    while response.status == TooManyRequests && retryCount < RetryMax
      invariant retryCount <= RetryMax
      invariant response == server(retryCount)
      invariant forall k :: 0 <= k < retryCount ==> server(k).status == TooManyRequests
      invariant |delays| == retryCount
      invariant forall k :: 0 <= k < retryCount ==> delays[k] == DelayBefore(server(k), k + 1)
    {
      retryCount := retryCount + 1;
      delays := delays + [DelayBefore(response, retryCount)];
      response := server(retryCount);
    }
    attempts := retryCount + 1;
    if IsErrorStatus(response.status) {
      result := Err(if retryCount == 0 then PrefectHttpStatusError(response.status)
                    else HttpStatusError(response.status));
    } else {
      result := Ok(response);
    }
  }

  /** Without Retry-After headers the five back-offs are 2, 4, 8, 16 and 32 seconds. */
  lemma BackoffSchedule(previous: Response)
    requires previous.retryAfter.None?
    ensures DelayBefore(previous, 1) == Backoff(2) && DelayBefore(previous, 2) == Backoff(4)
    ensures DelayBefore(previous, 3) == Backoff(8) && DelayBefore(previous, 4) == Backoff(16)
    ensures DelayBefore(previous, 5) == Backoff(32)
  {
  }

  // ---------------------------------------------------------------------------
  // app_lifespan_context: shared lifespans, reference counted per (thread, app)

  type AppId = nat

  /** A lifespan is kept per thread and per application instance. */
  type LifespanKey = (int, AppId)

  datatype LifespanManager = LifespanManager(app: AppId, startupTimeout: int, shutdownTimeout: int)

  /** KeyError: the exit of a context whose key is not in the tables. */
  datatype LifespanError = UnknownLifespan(key: LifespanKey)

  /** Both tables have the same keys and every count is positive. */
  predicate TablesValid(lifespans: map<LifespanKey, LifespanManager>, counts: map<LifespanKey, int>) {
    lifespans.Keys == counts.Keys && forall k :: k in counts ==> counts[k] >= 1
  }

  /** The lifespans after entering `key`: a new manager only for the first entry. */
  function EnterLifespans(lifespans: map<LifespanKey, LifespanManager>, key: LifespanKey, app: AppId)
    : map<LifespanKey, LifespanManager>
  {
    if key in lifespans then lifespans else lifespans[key := LifespanManager(app, 30, 30)]
  }

  /** The counts after entering `key`: 1 for the first entry, one more for later ones. */
  function EnterCounts(lifespans: map<LifespanKey, LifespanManager>, counts: map<LifespanKey, int>, key: LifespanKey)
    : map<LifespanKey, int>
    requires key in lifespans ==> key in counts
  {
    if key in lifespans then counts[key := counts[key] + 1] else counts[key := 1]
  }

  /** The last exit (the count drops to 0 or below) removes the key from both tables. */
  predicate ExitCloses(counts: map<LifespanKey, int>, key: LifespanKey)
    requires key in counts
  {
    counts[key] - 1 <= 0
  }

  function ExitLifespans(lifespans: map<LifespanKey, LifespanManager>, counts: map<LifespanKey, int>, key: LifespanKey)
    : map<LifespanKey, LifespanManager>
    requires key in counts
  {
    if ExitCloses(counts, key) then lifespans - {key} else lifespans
  }

  function ExitCounts(counts: map<LifespanKey, int>, key: LifespanKey): map<LifespanKey, int>
    requires key in counts
  {
    if ExitCloses(counts, key) then counts - {key} else counts[key := counts[key] - 1]
  }

  /** Entering and exiting keep the tables valid; with valid tables only the count 1 closes. */
  lemma LifespanTablesStayValid(lifespans: map<LifespanKey, LifespanManager>,
                                  counts: map<LifespanKey, int>, key: LifespanKey, app: AppId)
    requires TablesValid(lifespans, counts)
    ensures TablesValid(EnterLifespans(lifespans, key, app), EnterCounts(lifespans, counts, key))
    ensures key in counts ==> TablesValid(ExitLifespans(lifespans, counts, key), ExitCounts(counts, key))
    ensures key in counts ==> (ExitCloses(counts, key) <==> counts[key] == 1)
  {
  }

  /** A nested entry followed by its exit leaves both tables as they were. */
  lemma EnterThenExitRestores(lifespans: map<LifespanKey, LifespanManager>,
                                counts: map<LifespanKey, int>, key: LifespanKey, app: AppId)
    requires TablesValid(lifespans, counts)
    ensures key in EnterCounts(lifespans, counts, key)
    ensures ExitLifespans(EnterLifespans(lifespans, key, app), EnterCounts(lifespans, counts, key), key) == lifespans
    ensures ExitCounts(EnterCounts(lifespans, counts, key), key) == counts
  {
  }

  /** The module-level tables `APP_LIFESPANS` and `APP_LIFESPANS_REF_COUNTS`. */
  class LifespanRegistry {
    var lifespans: map<LifespanKey, LifespanManager>
    var refCounts: map<LifespanKey, int>

    ghost predicate Valid()
      reads this
    {
      TablesValid(lifespans, refCounts)
    }

    constructor ()
      ensures Valid() && lifespans == map[] && refCounts == map[]
    {
      lifespans := map[];
      refCounts := map[];
    }

    /** Entering the context for `key`; `started` says whether a new lifespan was started. */
    method Enter(key: LifespanKey, app: AppId) returns (started: bool)
      requires Valid()
      modifies this
      ensures Valid()
      ensures started <==> key !in old(lifespans)
      ensures lifespans == EnterLifespans(old(lifespans), key, app)
      ensures refCounts == EnterCounts(old(lifespans), old(refCounts), key)
      ensures refCounts[key] == if started then 1 else old(refCounts)[key] + 1
    {
      LifespanTablesStayValid(lifespans, refCounts, key, app);
      if key in lifespans {
        refCounts := refCounts[key := refCounts[key] + 1];
        started := false;
      } else {
        lifespans := lifespans[key := LifespanManager(app, 30, 30)];
        refCounts := refCounts[key := 1];
        started := true;
      }
    }

    /**
     * Exiting the context for `key`: the count drops by one, and when it reaches
     * zero the key leaves both tables together and the lifespan is closed.
     */
    method Exit(key: LifespanKey) returns (r: Result<bool, LifespanError>)
      requires Valid()
      modifies this
      ensures Valid()
      ensures key !in old(refCounts) ==>
                r == Err(UnknownLifespan(key)) && lifespans == old(lifespans) && refCounts == old(refCounts)
      ensures key in old(refCounts) ==>
                && r == Ok(old(refCounts)[key] == 1)
                && lifespans == ExitLifespans(old(lifespans), old(refCounts), key)
                && refCounts == ExitCounts(old(refCounts), key)
      ensures key in old(refCounts) ==> (key in refCounts <==> key in lifespans) && (key in refCounts <==> r == Ok(false))
    {
      if key !in refCounts {
        return Err(UnknownLifespan(key));
      }
      LifespanTablesStayValid(lifespans, refCounts, key, 0);
      var closes := refCounts[key] - 1 <= 0;
      if closes {
        refCounts := refCounts - {key};
        lifespans := lifespans - {key};
      } else {
        refCounts := refCounts[key := refCounts[key] - 1];
      }
      r := Ok(closes);
    }
  }

  // ---------------------------------------------------------------------------
  // OrionClient: settings and lifecycle

  /** The `api` argument: a URL, an in-process application, or something else. */
  datatype Api = ApiUrl(url: string) | ApiApp(app: AppId) | ApiOther(typeName: string)

  /** The httpx settings the client reads or fills in (an absent key is `None`). */
  datatype HttpxSettings = HttpxSettings(
    headers: Option<map<string, string>>,
    timeout: Option<real>,
    baseUrl: Option<string>,
    app: Option<AppId>)

  datatype ClientError =
    | AppWithUrl                        // ValueError: `app` given together with an api url
    | UnexpectedApiType(typeName: string) // TypeError
    | ClientClosed                      // RuntimeError: started again after closing
    | ClientAlreadyStarted              // RuntimeError: started twice
    | SyncContextUnsupported            // RuntimeError: `with` instead of `async with`
    | LifespanExitFailed(key: LifespanKey)

  const VersionHeader: string := "X-PREFECT-API-VERSION"
  const AuthHeader: string := "Authorization"
  const EphemeralBaseUrl: string := "http://ephemeral-orion/api"

  function SetDefault<K, V>(m: map<K, V>, k: K, v: V): (r: map<K, V>)
    ensures k in r && r[k] == (if k in m then m[k] else v)
    ensures r.Keys == m.Keys + {k}
    ensures forall j :: j in m ==> r[j] == m[j]
  {
    if k in m then m else m[k := v]
  }

  function OptionOr<T>(o: Option<T>, default: T): T {
    if o.Some? then o.value else default
  }

  /**
   * The settings `OrionClient.__init__` passes to httpx. Headers and other
   * settings the caller gave are never overwritten (`setdefault`); the version
   * and authorisation headers are added only for a non-empty version or key.
   */
  function ClientSettings(api: Api, apiKey: Option<string>, apiVersion: Option<string>,
                          given: Option<HttpxSettings>, requestTimeout: real)
    : (r: Result<HttpxSettings, ClientError>)
    ensures r.Err? <==> api.ApiOther? || (api.ApiUrl? && given.Some? && given.value.app.Some?)
    ensures api.ApiOther? ==> r == Err(UnexpectedApiType(api.typeName))
    ensures api.ApiUrl? && r.Err? ==> r.error == AppWithUrl
    ensures r.Ok? ==> r.value.headers.Some?
    ensures r.Ok? && given.Some? && given.value.headers.Some? ==>
              forall h :: h in given.value.headers.value ==>
                h in r.value.headers.value && r.value.headers.value[h] == given.value.headers.value[h]
    ensures r.Ok? ==> (VersionHeader in r.value.headers.value <==>
              (given.Some? && given.value.headers.Some? && VersionHeader in given.value.headers.value)
              || (apiVersion.Some? && apiVersion.value != ""))
    ensures r.Ok? && apiVersion.Some? && apiVersion.value != "" &&
            !(given.Some? && given.value.headers.Some? && VersionHeader in given.value.headers.value) ==>
              r.value.headers.value[VersionHeader] == apiVersion.value
    ensures r.Ok? ==> (AuthHeader in r.value.headers.value <==>
              (given.Some? && given.value.headers.Some? && AuthHeader in given.value.headers.value)
              || (apiKey.Some? && apiKey.value != ""))
    ensures r.Ok? && apiKey.Some? && apiKey.value != "" &&
            !(given.Some? && given.value.headers.Some? && AuthHeader in given.value.headers.value) ==>
              r.value.headers.value[AuthHeader] == "Bearer " + apiKey.value
    ensures r.Ok? ==> r.value.timeout == Some(if given.Some? && given.value.timeout.Some? then given.value.timeout.value else requestTimeout)
    ensures r.Ok? && api.ApiUrl? ==>
              r.value.app == None &&
              r.value.baseUrl == Some(if given.Some? && given.value.baseUrl.Some? then given.value.baseUrl.value else api.url)
    ensures r.Ok? && api.ApiApp? ==>
              r.value.app == Some(if given.Some? && given.value.app.Some? then given.value.app.value else api.app) &&
              r.value.baseUrl == Some(if given.Some? && given.value.baseUrl.Some? then given.value.baseUrl.value else EphemeralBaseUrl)
  {
    var s := OptionOr(given, HttpxSettings(None, None, None, None));
    var h0 := OptionOr(s.headers, map[]);
    var h1 := if apiVersion.Some? && apiVersion.value != "" then SetDefault(h0, VersionHeader, apiVersion.value) else h0;
    var h2 := if apiKey.Some? && apiKey.value != "" then SetDefault(h1, AuthHeader, "Bearer " + apiKey.value) else h1;
    var timeout := Some(OptionOr(s.timeout, requestTimeout));
    match api
    case ApiUrl(url) =>
      if s.app.Some? then Err(AppWithUrl)
      else Ok(HttpxSettings(Some(h2), timeout, Some(OptionOr(s.baseUrl, url)), None))
    case ApiApp(app) =>
      Ok(HttpxSettings(Some(h2), timeout, Some(OptionOr(s.baseUrl, EphemeralBaseUrl)), Some(OptionOr(s.app, app))))
    case ApiOther(name) => Err(UnexpectedApiType(name))
  }

  class OrionClient {
    const settings: HttpxSettings
    /** The in-process application, when the client was given one instead of a URL. */
    const ephemeralApp: Option<AppId>
    var manageLifespan: bool
    var started: bool
    var closed: bool
    /** The lifespan this client entered on its exit stack, released when it exits. */
    var lifespanKey: Option<LifespanKey>

    /** Built from settings that `ClientSettings` accepted for `api`. */
    constructor (api: Api, settings: HttpxSettings)
      ensures this.settings == settings
      ensures ephemeralApp == (if api.ApiApp? then Some(api.app) else None)
      ensures manageLifespan && !started && !closed && lifespanKey == None
    {
      this.settings := settings;
      ephemeralApp := if api.ApiApp? then Some(api.app) else None;
      manageLifespan := true;
      started := false;
      closed := false;
      lifespanKey := None;
    }

    /**
     * `__aenter__`: a closed or already started client refuses; otherwise the
     * application's lifespan is entered (for an in-process application whose
     * lifespan the client manages) and, last, the client is marked started.
     */
    method AEnter(registry: LifespanRegistry, threadId: int) returns (r: Outcome<ClientError>)
      requires registry.Valid()
      modifies this, registry
      ensures registry.Valid()
      ensures closed == old(closed) && manageLifespan == old(manageLifespan)
      ensures old(closed) ==> r == Fail(ClientClosed)
      ensures !old(closed) && old(started) ==> r == Fail(ClientAlreadyStarted)
      ensures r.Fail? ==> started == old(started) && lifespanKey == old(lifespanKey) &&
                          registry.lifespans == old(registry.lifespans) && registry.refCounts == old(registry.refCounts)
      ensures !old(closed) && !old(started) ==> r == Pass && started
      ensures r.Pass? && ephemeralApp.Some? && manageLifespan ==>
                var key := (threadId, ephemeralApp.value);
                && lifespanKey == Some(key)
                && registry.lifespans == EnterLifespans(old(registry.lifespans), key, ephemeralApp.value)
                && registry.refCounts == EnterCounts(old(registry.lifespans), old(registry.refCounts), key)
      ensures r.Pass? && !(ephemeralApp.Some? && manageLifespan) ==>
                lifespanKey == old(lifespanKey) &&
                registry.lifespans == old(registry.lifespans) && registry.refCounts == old(registry.refCounts)
    {
      if closed {
        return Fail(ClientClosed);
      }
      if started {
        return Fail(ClientAlreadyStarted);
      }
      if ephemeralApp.Some? && manageLifespan {
        var key := (threadId, ephemeralApp.value);
        var _ := registry.Enter(key, ephemeralApp.value);
        lifespanKey := Some(key);
      }
      started := true;
      r := Pass;
    }

    /**
     * `__aexit__`: the client is closed for good and the exit stack releases
     * the lifespan it entered, if any; `started` is left as it was.
     */
    method AExit(registry: LifespanRegistry) returns (r: Outcome<ClientError>)
      requires registry.Valid()
      modifies this, registry
      ensures registry.Valid()
      ensures closed && started == old(started) && lifespanKey == None
      ensures old(lifespanKey).None? ==>
                r == Pass && registry.lifespans == old(registry.lifespans) && registry.refCounts == old(registry.refCounts)
      ensures old(lifespanKey).Some? && old(lifespanKey).value in old(registry.refCounts) ==>
                var key := old(lifespanKey).value;
                && r == Pass
                && registry.lifespans == ExitLifespans(old(registry.lifespans), old(registry.refCounts), key)
                && registry.refCounts == ExitCounts(old(registry.refCounts), key)
      ensures old(lifespanKey).Some? && old(lifespanKey).value !in old(registry.refCounts) ==>
                r == Fail(LifespanExitFailed(old(lifespanKey).value)) &&
                registry.lifespans == old(registry.lifespans) && registry.refCounts == old(registry.refCounts)
    {
      closed := true;
      r := Pass;
      if lifespanKey.Some? {
        var key := lifespanKey.value;
        lifespanKey := None;
        var exited := registry.Exit(key);
        if exited.Err? {
          r := Fail(LifespanExitFailed(key));
        }
      }
    }

    /** `__enter__`: the client can only be used as an asynchronous context manager. */
    method Enter() returns (r: Outcome<ClientError>)
      ensures r == Fail(SyncContextUnsupported)
    {
      r := Fail(SyncContextUnsupported);
    }
  }

  // ---------------------------------------------------------------------------
  // update_flow_run: only the arguments that are not None are sent

  datatype FlowRunUpdate = FlowRunUpdate(flowRunId: Uuid, body: map<string, Doc>)

  function TagsDoc(tags: seq<string>): (d: Doc)
    ensures d.Arr? && |d.items| == |tags|
    ensures forall i :: 0 <= i < |tags| ==> d.items[i] == Str(tags[i])
  {
    Arr(seq(|tags|, i requires 0 <= i < |tags| => Str(tags[i])))
  }

  function UpdateFlowRunRequest(flowRunId: Uuid, flowVersion: Option<string>, parameters: Option<map<string, Doc>>,
                                name: Option<string>, tags: Option<seq<string>>): (r: FlowRunUpdate)
    ensures r.flowRunId == flowRunId
    ensures "flow_version" in r.body <==> flowVersion.Some?
    ensures "parameters" in r.body <==> parameters.Some?
    ensures "name" in r.body <==> name.Some?
    ensures "tags" in r.body <==> tags.Some?
    ensures r.body.Keys <= {"flow_version", "parameters", "name", "tags"}
    ensures flowVersion.Some? ==> r.body["flow_version"] == Str(flowVersion.value)
    ensures parameters.Some? ==> r.body["parameters"] == Obj(parameters.value)
    ensures name.Some? ==> r.body["name"] == Str(name.value)
    ensures tags.Some? ==> r.body["tags"] == TagsDoc(tags.value)
  {
    var p0: map<string, Doc> := map[];
    var p1 := if flowVersion.Some? then p0["flow_version" := Str(flowVersion.value)] else p0;
    var p2 := if parameters.Some? then p1["parameters" := Obj(parameters.value)] else p1;
    var p3 := if name.Some? then p2["name" := Str(name.value)] else p2;
    var p4 := if tags.Some? then p3["tags" := TagsDoc(tags.value)] else p3;
    FlowRunUpdate(flowRunId, p4)
  }

  // ---------------------------------------------------------------------------
  // propose_state: dispatch on the orchestration answer

  datatype SetStateStatus = Accept | Reject | Abort | Wait | Unrecognised(code: string)

  datatype OrchestrationResult = OrchestrationResult(status: SetStateStatus, state: Option<State>, reason: string)

  datatype ProposeError =
    | MissingRunId                          // ValueError: neither id given
    | Aborted(reason: string)               // prefect.exceptions.Abort
    | UnexpectedStatus(status: SetStateStatus) // ValueError
    | MissingState                          // the answer carries no state to read
    | NoAnswer                              // the server gave no further answer after WAIT

  /** The run a proposal is made for. */
  datatype RunRef = TaskRunRef(id: Uuid) | FlowRunRef(id: Uuid)

  /** Which run the state is proposed for: the task run when given, else the flow run. */
  function ProposeTarget(taskRunId: Option<Uuid>, flowRunId: Option<Uuid>): (r: Result<RunRef, ProposeError>)
    ensures taskRunId.Some? ==> r == Ok(TaskRunRef(taskRunId.value))
    ensures taskRunId.None? && flowRunId.Some? ==> r == Ok(FlowRunRef(flowRunId.value))
    ensures taskRunId.None? && flowRunId.None? ==> r == Err(MissingRunId)
  {
    if taskRunId.Some? then Ok(TaskRunRef(taskRunId.value))
    else if flowRunId.Some? then Ok(FlowRunRef(flowRunId.value))
    else Err(MissingRunId)
  }

  /** The index of the first answer that is not WAIT (`|answers|` if there is none). */
  function FirstDecision(answers: seq<OrchestrationResult>): (i: nat)
    ensures i <= |answers|
    ensures forall k :: 0 <= k < i ==> answers[k].status == Wait
    ensures i < |answers| ==> answers[i].status != Wait
  {
    if answers == [] then 0
    else if answers[0].status == Wait then 1 + FirstDecision(answers[1..])
    else 0
  }

  /**
   * The outcome of proposing `proposed`, given the server's successive answers:
   * every WAIT is followed by a new proposal, and the first other answer decides.
   */
  function Orchestrate(proposed: State, answers: seq<OrchestrationResult>): (r: Result<State, ProposeError>)
    ensures FirstDecision(answers) == |answers| ==> r == Err(NoAnswer)
    ensures FirstDecision(answers) < |answers| ==>
              var a := answers[FirstDecision(answers)];
              match a.status
              case Accept =>
                r == (if a.state.None? then Err(MissingState)
                      else Ok(proposed.(details := if a.state.value.details.Some? then a.state.value.details
                                                   else proposed.details)))
              case Reject => r == (if a.state.None? then Err(MissingState) else Ok(a.state.value))
              case Abort => r == Err(Aborted(a.reason))
              case Wait => false
              case Unrecognised(_) => r == Err(UnexpectedStatus(a.status))
    decreases |answers|
  {
    if answers == [] then Err(NoAnswer)
    else
      var a := answers[0];
      match a.status
      case Accept =>
        if a.state.None? then Err(MissingState)
        else if a.state.value.details.Some? then Ok(proposed.(details := a.state.value.details))
        else Ok(proposed)
      case Abort => Err(Aborted(a.reason))
      case Wait => Orchestrate(proposed, answers[1..])
      case Reject => if a.state.None? then Err(MissingState) else Ok(a.state.value)
      case Unrecognised(_) => Err(UnexpectedStatus(a.status))
  }

  /**
   * `propose_state`: the run to propose for is chosen first; `server` gives the
   * answers the orchestration API returns to successive proposals for that run.
   */
  function ProposeState(proposed: State, taskRunId: Option<Uuid>, flowRunId: Option<Uuid>,
                        server: RunRef -> seq<OrchestrationResult>): (r: Result<State, ProposeError>)
    ensures taskRunId.None? && flowRunId.None? ==> r == Err(MissingRunId)
    ensures taskRunId.Some? ==> r == Orchestrate(proposed, server(TaskRunRef(taskRunId.value)))
    ensures taskRunId.None? && flowRunId.Some? ==> r == Orchestrate(proposed, server(FlowRunRef(flowRunId.value)))
  {
    match ProposeTarget(taskRunId, flowRunId)
    case Err(e) => Err(e)
    case Ok(target) => Orchestrate(proposed, server(target))
  }
}
