/**
 * The agent: which infrastructure it defaults to, the work-queue cache with
 * its 30-second expiry, the de-duplicated submission of scheduled flow runs,
 * the infrastructure a run is launched on (with the deployment's overrides
 * merged in) and the bookkeeping of runs being submitted.
 *
 * The API client's answers are parameters: `lookup` for reading or creating a
 * work queue by name, `fetch` for the runs of a queue, `readDeployment` and
 * `readBlock` for the documents, and the outcome of `propose_state`.
 * "Now" is an integer number of seconds.
 */
module Agent {
  import opened Common
  import Schemas
  import InfraOverrides
  import Client

  type WorkQueue = Schemas.WorkQueue
  type FlowRun = Schemas.FlowRun

  // ---------------------------------------------------------------------------
  // Default infrastructure

  /** An infrastructure block: its kind and the block document it was saved as, if any. */
  datatype Infrastructure = Infrastructure(kind: string, blockDocumentId: Option<Uuid>)

  /** `Process()`: a local process, not yet saved. */
  function ProcessInfrastructure(): (i: Infrastructure)
    ensures i.blockDocumentId == None
  {
    Infrastructure("process", None)
  }

  /** A failure reported by the API for a read. */
  datatype ApiFailure = ObjectNotFound | RequestFailed

  datatype AgentError =
    | BothDefaults                        // ValueError in __init__
    | NotStarted                          // RuntimeError: used outside `async with`
    | QueueReadFailed(name: string)       // reading a work queue failed other than by ObjectNotFound
    | DeploymentUnavailable(failure: ApiFailure)
    | BlockDocumentUnavailable(failure: ApiFailure)
    | OverrideFailed(error: InfraOverrides.MergeError)
    | UnknownRun(id: Uuid)                // KeyError: removing an id that is not being submitted

  /** The agent's default infrastructure and the id of its block document. */
  datatype Defaults = Defaults(infrastructure: Option<Infrastructure>, documentId: Option<Uuid>)

  /**
   * `__init__`'s choice of defaults: at most one of the two may be given; an
   * infrastructure brings its own document id, and with neither the agent uses
   * an unsaved `Process`.
   */
  function ResolveDefaults(infrastructure: Option<Infrastructure>, documentId: Option<Uuid>)
    : (r: Result<Defaults, AgentError>)
    ensures r.Err? <==> infrastructure.Some? && documentId.Some?
    ensures r.Err? ==> r.error == BothDefaults
    ensures r.Ok? ==> r.value.infrastructure.Some? || r.value.documentId.Some?
    ensures r.Ok? && infrastructure.Some? ==>
              r.value == Defaults(infrastructure, infrastructure.value.blockDocumentId)
    ensures r.Ok? && documentId.Some? ==> r.value == Defaults(None, documentId)
    ensures infrastructure.None? && documentId.None? ==> r == Ok(Defaults(Some(ProcessInfrastructure()), None))
  {
    if infrastructure.Some? && documentId.Some? then Err(BothDefaults)
    else if infrastructure.Some? then Ok(Defaults(infrastructure, infrastructure.value.blockDocumentId))
    else if documentId.Some? then Ok(Defaults(None, documentId))
    else Ok(Defaults(Some(ProcessInfrastructure()), None))
  }

  predicate Distinct(s: seq<string>) {
    forall i, j :: 0 <= i < j < |s| ==> s[i] != s[j]
  }

  /** `set(work_queues)`, iterated in order of first occurrence. */
  function Dedup(names: seq<string>): (r: seq<string>)
    ensures Distinct(r)
    ensures forall n :: n in r <==> n in names
    decreases |names|
  {
    if names == [] then []
    else
      var init := Dedup(names[..|names| - 1]);
      var last := names[|names| - 1];
      assert names == names[..|names| - 1] + [last];
      if last in init then init else init + [last]
  }

  // ---------------------------------------------------------------------------
  // Work queues

  /**
   * The API's answer for one queue name: read, created after the read reported
   * it missing, creation failed (the name is skipped), or the read failed
   * otherwise (the error propagates).
   */
  datatype QueueLookup = Found(queue: WorkQueue) | Created(queue: WorkQueue) | CreateFailed | ReadFailed

  /** The queues loaded from the names, and the name whose read failed, if any. */
  datatype Loading = Loading(queues: seq<WorkQueue>, failedAt: Option<string>)

  /** Loading the queues for `names` in order, stopping at the first failed read. */
  function LoadQueues(names: seq<string>, lookup: string -> QueueLookup): (r: Loading)
    ensures |r.queues| <= |names|
    ensures r.failedAt.Some? ==> r.failedAt.value in names && lookup(r.failedAt.value) == ReadFailed
    ensures r.failedAt.None? ==> forall i :: 0 <= i < |names| ==> lookup(names[i]) != ReadFailed
    decreases |names|
  {
    if names == [] then Loading([], None)
    else
      var prev := LoadQueues(names[..|names| - 1], lookup);
      var name := names[|names| - 1];
      if prev.failedAt.Some? then prev
      else
        match lookup(name)
        case Found(q) => Loading(prev.queues + [q], None)
        case Created(q) => Loading(prev.queues + [q], None)
        case CreateFailed => prev
        case ReadFailed => Loading(prev.queues, Some(name))
  }

  /** When every name is read or created, the queues are exactly those answers, in order. */
  lemma {:induction false} LoadQueuesAllAnswered(names: seq<string>, lookup: string -> QueueLookup)
    requires forall i :: 0 <= i < |names| ==> lookup(names[i]).Found? || lookup(names[i]).Created?
    ensures LoadQueues(names, lookup).failedAt == None
    ensures LoadQueues(names, lookup).queues == seq(|names|, i requires 0 <= i < |names| => lookup(names[i]).queue)
    decreases |names|
  {
    if names != [] {
      var init := names[..|names| - 1];
      forall i | 0 <= i < |init| ensures lookup(init[i]).Found? || lookup(init[i]).Created? {
        assert init[i] == names[i];
      }
      LoadQueuesAllAnswered(init, lookup);
    }
  }

  /** Names whose creation failed contribute nothing; the others keep their order. */
  lemma LoadQueuesSkipsCreateFailed(names: seq<string>, name: string, lookup: string -> QueueLookup)
    requires lookup(name) == CreateFailed
    ensures LoadQueues(names + [name], lookup) == LoadQueues(names, lookup)
  {
  }

  /** Once a read has failed, the later names change nothing. */
  lemma {:induction false} LoadQueuesFailureStays(names: seq<string>, k: nat, lookup: string -> QueueLookup)
    requires k <= |names| && LoadQueues(names[..k], lookup).failedAt.Some?
    ensures LoadQueues(names, lookup) == LoadQueues(names[..k], lookup)
    decreases |names|
  {
    if k < |names| {
      var init := names[..|names| - 1];
      assert init[..k] == names[..k];
      LoadQueuesFailureStays(init, k, lookup);
    } else {
      assert names[..k] == names;
    }
  }

  /** The cache is used while its expiry is later than now; a missing expiry never is. */
  predicate CacheFresh(expiration: Option<int>, now: int) {
    expiration.Some? && expiration.value > now
  }

  const CacheSeconds: int := 30

  /** What `get_work_queues` yields: the cache while fresh, otherwise the reloaded queues. */
  function QueuesFor(cache: seq<WorkQueue>, expiration: Option<int>, now: int,
                     names: seq<string>, lookup: string -> QueueLookup): (r: Result<seq<WorkQueue>, AgentError>)
    ensures CacheFresh(expiration, now) ==> r == Ok(cache)
    ensures !CacheFresh(expiration, now) && r.Ok? ==> r.value == LoadQueues(names, lookup).queues
    ensures !CacheFresh(expiration, now) ==>
              (r.Err? <==> exists i :: 0 <= i < |names| && lookup(names[i]) == ReadFailed)
  {
    if CacheFresh(expiration, now) then Ok(cache)
    else
      var l := LoadQueues(names, lookup);
      if l.failedAt.Some? then
        assert exists i :: 0 <= i < |names| && names[i] == l.failedAt.value;
        Err(QueueReadFailed(l.failedAt.value))
      else Ok(l.queues)
  }

  // ---------------------------------------------------------------------------
  // Runs of the queues

  /** The API's answer when asked for the scheduled runs of a queue. */
  datatype RunsAnswer = Runs(runs: seq<FlowRun>) | QueueNotFound | FetchFailed

  /** At most this many runs are requested per queue. */
  const RunLimit: nat := 10

  /** `self.prefetch_seconds or PREFECT_AGENT_PREFETCH_SECONDS`: 0 and None fall back to the setting. */
  function Before(now: int, prefetchSeconds: Option<int>, prefetchSetting: int): (before: int)
    ensures prefetchSeconds.Some? && prefetchSeconds.value != 0 ==> before == now + prefetchSeconds.value
    ensures prefetchSeconds.None? || prefetchSeconds.value == 0 ==> before == now + prefetchSetting
  {
    now + (if prefetchSeconds.Some? && prefetchSeconds.value != 0 then prefetchSeconds.value else prefetchSetting)
  }

  /** The runs a queue contributes: none when paused or when fetching them failed. */
  function QueueRuns(queue: WorkQueue, fetch: (Uuid, nat, int) -> RunsAnswer, before: int): (runs: seq<FlowRun>)
    ensures queue.isPaused ==> runs == []
    ensures !queue.isPaused && fetch(queue.id, RunLimit, before).Runs? ==> runs == fetch(queue.id, RunLimit, before).runs
    ensures !fetch(queue.id, RunLimit, before).Runs? ==> runs == []
  {
    if queue.isPaused then []
    else
      match fetch(queue.id, RunLimit, before)
      case Runs(rs) => rs
      case _ => []
  }

  /** All runs gathered from the queues, in queue order. */
  function Submittable(queues: seq<WorkQueue>, fetch: (Uuid, nat, int) -> RunsAnswer, before: int): seq<FlowRun>
    decreases |queues|
  {
    if queues == [] then []
    else Submittable(queues[..|queues| - 1], fetch, before) + QueueRuns(queues[|queues| - 1], fetch, before)
  }

  /** The queues that are not paused, in order. */
  function Active(queues: seq<WorkQueue>): (r: seq<WorkQueue>)
    ensures forall i :: 0 <= i < |r| ==> !r[i].isPaused && r[i] in queues
    ensures forall q :: q in r <==> q in queues && !q.isPaused
    decreases |queues|
  {
    if queues == [] then []
    else
      var init := Active(queues[..|queues| - 1]);
      var q := queues[|queues| - 1];
      assert queues == queues[..|queues| - 1] + [q];
      if q.isPaused then init else init + [q]
  }

  /** Paused queues contribute no runs: gathering from the active queues alone gives the same runs. */
  lemma {:induction false} SubmittableSkipsPaused(queues: seq<WorkQueue>, fetch: (Uuid, nat, int) -> RunsAnswer, before: int)
    ensures Submittable(queues, fetch, before) == Submittable(Active(queues), fetch, before)
    decreases |queues|
  {
    if queues != [] {
      var init := queues[..|queues| - 1];
      var q := queues[|queues| - 1];
      SubmittableSkipsPaused(init, fetch, before);
      if !q.isPaused {
        var a := Active(init) + [q];
        assert a[..|a| - 1] == Active(init);
      }
    }
  }

  /**
   * The gathering loop of `get_and_submit_flow_runs`: the runs of every queue
   * in order, none from a paused queue or from a queue whose fetch failed.
   */
  method GatherRuns(queues: seq<WorkQueue>, fetch: (Uuid, nat, int) -> RunsAnswer, before: int)
    returns (runs: seq<FlowRun>)
    ensures runs == Submittable(queues, fetch, before)
  {
    runs := [];
    var j := 0;
    while j < |queues|
      invariant 0 <= j <= |queues|
      invariant runs == Submittable(queues[..j], fetch, before)
    {
      var q := queues[j];
      assert queues[..j + 1][..j] == queues[..j];
      if !q.isPaused {
        match fetch(q.id, RunLimit, before) {
          case Runs(rs) =>
            runs := runs + rs;
          case QueueNotFound =>
          case FetchFailed =>
        }
      }
      j := j + 1;
    }
    assert queues[..j] == queues;
  }

  /** The runs handed to `submit_run`, and the ids being submitted afterwards. */
  datatype Launching = Launching(launched: seq<FlowRun>, submitting: set<Uuid>)

  function IdsOf(runs: seq<FlowRun>): set<Uuid> {
    set i | 0 <= i < |runs| :: runs[i].id
  }

  /**
   * The submission loop: a run whose id is already being submitted is
   * skipped; any other run is launched and its id added first. So the runs
   * launched have distinct ids, none of them was being submitted before, and
   * afterwards every gathered run's id is being submitted.
   */
  function Launch(runs: seq<FlowRun>, submitting: set<Uuid>): (r: Launching)
    ensures r.submitting == submitting + IdsOf(r.launched)
    ensures forall i :: 0 <= i < |r.launched| ==> r.launched[i].id !in submitting
    ensures forall i, j :: 0 <= i < j < |r.launched| ==> r.launched[i].id != r.launched[j].id
    ensures forall i :: 0 <= i < |r.launched| ==> r.launched[i] in runs
    ensures forall k :: 0 <= k < |runs| ==> runs[k].id in r.submitting
    decreases |runs|
  {
    if runs == [] then Launching([], submitting)
    else
      var prev := Launch(runs[..|runs| - 1], submitting);
      var run := runs[|runs| - 1];
      assert forall x :: x in runs[..|runs| - 1] ==> x in runs;
      if run.id in prev.submitting then prev
      else
        var l := prev.launched + [run];
        assert IdsOf(l) == IdsOf(prev.launched) + {run.id} by {
          forall x | x in IdsOf(l) ensures x in IdsOf(prev.launched) + {run.id} {
            var i :| 0 <= i < |l| && l[i].id == x;
            if i < |prev.launched| { assert l[i] == prev.launched[i]; }
          }
          forall x | x in IdsOf(prev.launched) ensures x in IdsOf(l) {
            var i :| 0 <= i < |prev.launched| && prev.launched[i].id == x;
            assert l[i] == prev.launched[i];
          }
          assert l[|l| - 1] == run;
        }
        Launching(l, prev.submitting + {run.id})
  }

  // ---------------------------------------------------------------------------
  // Infrastructure for a run

  /** The infrastructure document: the deployment's when it names one, otherwise the agent's default. */
  function InfrastructureDocumentId(deployment: Schemas.Deployment, default: Option<Uuid>): (id: Option<Uuid>)
    ensures deployment.infrastructureDocumentId.Some? ==> id == deployment.infrastructureDocumentId
    ensures deployment.infrastructureDocumentId.None? ==> id == default
  {
    if deployment.infrastructureDocumentId.Some? then deployment.infrastructureDocumentId else default
  }

  /** `_propose_pending_state`: ready exactly when the proposal went through and the run is pending. */
  function ProposePending(proposal: Result<State, Client.ProposeError>): (ready: bool)
    ensures ready <==> proposal.Ok? && proposal.value.stateType == Pending
  {
    match proposal
    case Err(_) => false
    case Ok(state) => state.stateType == Pending
  }

  /**
   * Proposing `Pending()` for a flow run makes it ready exactly when the
   * deciding answer accepts (carrying a state), or rejects with a pending state.
   */
  lemma PendingProposalReady(runId: Uuid, server: Client.RunRef -> seq<Client.OrchestrationResult>)
    ensures var answers := server(Client.FlowRunRef(runId));
            var i := Client.FirstDecision(answers);
            ProposePending(Client.ProposeState(PendingState(), None, Some(runId), server)) <==>
              i < |answers| && answers[i].state.Some? &&
              (answers[i].status == Client.Accept ||
               (answers[i].status == Client.Reject && answers[i].state.value.stateType == Pending))
  {
  }

  /** How `submit_run` ended for a run that was ready. */
  datatype SubmitOutcome = NotReady | Submitted(document: Schemas.BlockDocument) | SubmissionFailed(document: Schemas.BlockDocument)

  // ---------------------------------------------------------------------------
  // The agent

  class OrionAgent {
    var workQueues: seq<string>
    var prefetchSeconds: Option<int>
    var submitting: set<Uuid>
    var started: bool
    var cache: seq<WorkQueue>
    var cacheExpiration: Option<int>
    var defaultInfrastructure: Option<Infrastructure>
    var defaultDocumentId: Option<Uuid>

    /** The queue names are distinct and some default infrastructure is known. */
    ghost predicate Valid()
      reads this`workQueues, this`defaultInfrastructure, this`defaultDocumentId
    {
      Distinct(workQueues) && (defaultInfrastructure.Some? || defaultDocumentId.Some?)
    }

    /** Built from defaults that `ResolveDefaults` accepted; see `NewAgent`. */
    constructor (workQueues: seq<string>, prefetchSeconds: Option<int>, defaults: Defaults)
      requires defaults.infrastructure.Some? || defaults.documentId.Some?
      ensures Valid()
      ensures this.workQueues == Dedup(workQueues) && this.prefetchSeconds == prefetchSeconds
      ensures submitting == {} && !started && cache == [] && cacheExpiration == None
      ensures defaultInfrastructure == defaults.infrastructure && defaultDocumentId == defaults.documentId
    {
      this.workQueues := Dedup(workQueues);
      this.prefetchSeconds := prefetchSeconds;
      submitting := {};
      started := false;
      cache := [];
      cacheExpiration := None;
      defaultInfrastructure := defaults.infrastructure;
      defaultDocumentId := defaults.documentId;
    }

    /**
     * `start`: the agent is started, and a default infrastructure without a
     * document is saved; `savedId` is the id that save returns.
     */
    method Start(savedId: Uuid)
      requires Valid()
      modifies this`started, this`defaultDocumentId
      ensures Valid() && started
      ensures defaultDocumentId.Some?
      ensures old(defaultDocumentId).Some? ==> defaultDocumentId == old(defaultDocumentId)
      ensures old(defaultDocumentId).None? ==> defaultDocumentId == Some(savedId)
    {
      started := true;
      if defaultInfrastructure.Some? && defaultDocumentId.None? {
        defaultDocumentId := Some(savedId);
      }
    }

    /**
     * `get_work_queues`: a fresh cache is returned as it is. Otherwise the cache
     * is cleared, expires 30 seconds from now, and is refilled name by name; a
     * failed read stops the reload and leaves the queues loaded so far cached.
     */
    method GetWorkQueues(now: int, lookup: string -> QueueLookup) returns (r: Result<seq<WorkQueue>, AgentError>)
      modifies this`cache, this`cacheExpiration
      ensures r == QueuesFor(old(cache), old(cacheExpiration), now, workQueues, lookup)
      ensures CacheFresh(old(cacheExpiration), now) ==> cache == old(cache) && cacheExpiration == old(cacheExpiration)
      ensures !CacheFresh(old(cacheExpiration), now) ==>
                cacheExpiration == Some(now + CacheSeconds) && cache == LoadQueues(workQueues, lookup).queues
    {
      if CacheFresh(cacheExpiration, now) {
        return Ok(cache);
      }
      cache := [];
      cacheExpiration := Some(now + CacheSeconds);
      var i := 0;
      while i < |workQueues|
        invariant 0 <= i <= |workQueues|
        invariant cacheExpiration == Some(now + CacheSeconds)
        invariant LoadQueues(workQueues[..i], lookup) == Loading(cache, None)
      {
        var name := workQueues[i];
        assert workQueues[..i + 1][..i] == workQueues[..i];
        match lookup(name) {
          case Found(q) =>
            cache := cache + [q];
          case Created(q) =>
            cache := cache + [q];
          case CreateFailed =>
          case ReadFailed =>
            assert LoadQueues(workQueues[..i + 1], lookup) == Loading(cache, Some(name));
            LoadQueuesFailureStays(workQueues, i + 1, lookup);
            return Err(QueueReadFailed(name));
        }
        i := i + 1;
      }
      assert workQueues[..i] == workQueues;
      r := Ok(cache);
    }

    /**
     * The submission loop of `get_and_submit_flow_runs`: each run whose id is
     * not being submitted has its id added and is launched.
     */
    method LaunchRuns(runs: seq<FlowRun>) returns (launched: seq<FlowRun>)
      modifies this`submitting
      ensures Launching(launched, submitting) == Launch(runs, old(submitting))
    {
      launched := [];
      var i := 0;
      while i < |runs|
        invariant 0 <= i <= |runs|
        invariant Launch(runs[..i], old(submitting)) == Launching(launched, submitting)
      {
        var run := runs[i];
        assert runs[..i + 1][..i] == runs[..i];
        if run.id !in submitting {
          submitting := submitting + {run.id};
          launched := launched + [run];
        }
        i := i + 1;
      }
      assert runs[..i] == runs;
    }

    /**
     * `get_and_submit_flow_runs`: refused unless started; otherwise the runs of
     * every active queue are gathered, and each run not already being
     * submitted is launched, its id added to `submitting` first.
     * `prefetchSetting` is the value of the prefetch setting.
     */
    method GetAndSubmitFlowRuns(now: int, prefetchSetting: int, lookup: string -> QueueLookup,
                                fetch: (Uuid, nat, int) -> RunsAnswer)
      returns (r: Result<seq<FlowRun>, AgentError>, launched: seq<FlowRun>)
      modifies this`cache, this`cacheExpiration, this`submitting
      ensures !old(started) ==>
                r == Err(NotStarted) && launched == [] &&
                cache == old(cache) && cacheExpiration == old(cacheExpiration) && submitting == old(submitting)
      ensures old(started) ==>
                var queues := QueuesFor(old(cache), old(cacheExpiration), now, workQueues, lookup);
                && (CacheFresh(old(cacheExpiration), now) ==> cache == old(cache) && cacheExpiration == old(cacheExpiration))
                && (!CacheFresh(old(cacheExpiration), now) ==>
                      cacheExpiration == Some(now + CacheSeconds) && cache == LoadQueues(workQueues, lookup).queues)
                && (queues.Err? ==> r == Err(queues.error) && launched == [] && submitting == old(submitting))
                && (queues.Ok? ==>
                      && r == Ok(Submittable(queues.value, fetch, Before(now, prefetchSeconds, prefetchSetting)))
                      && Launching(launched, submitting) == Launch(r.value, old(submitting)))
    {
      launched := [];
      if !started {
        return Err(NotStarted), [];
      }
      var before := Before(now, prefetchSeconds, prefetchSetting);
      var queues := GetWorkQueues(now, lookup);
      if queues.Err? {
        return Err(queues.error), [];
      }
      var runs := GatherRuns(queues.value, fetch, before);
      launched := LaunchRuns(runs);
      r := Ok(runs);
    }

    /**
     * `get_infrastructure`: the run's deployment is read, then the block
     * document it names (or the agent's default), and the deployment's
     * overrides are merged into the document's data in order.
     */
    method GetInfrastructure(run: FlowRun,
                             readDeployment: Option<Uuid> -> Result<Schemas.Deployment, ApiFailure>,
                             readBlock: Option<Uuid> -> Result<Schemas.BlockDocument, ApiFailure>)
      returns (r: Result<Schemas.BlockDocument, AgentError>)
      ensures readDeployment(run.deploymentId).Err? ==>
                r == Err(DeploymentUnavailable(readDeployment(run.deploymentId).error))
      ensures readDeployment(run.deploymentId).Ok? ==>
                var deployment := readDeployment(run.deploymentId).value;
                var block := readBlock(InfrastructureDocumentId(deployment, defaultDocumentId));
                && (block.Err? ==> r == Err(BlockDocumentUnavailable(block.error)))
                && (block.Ok? ==>
                      var merged := InfraOverrides.ApplyOverrides(Obj(block.value.data), deployment.infraOverrides);
                      && (merged.Err? ==> r == Err(OverrideFailed(merged.error)))
                      && (merged.Ok? ==> r == Ok(block.value.(data := merged.value.fields))))
    {
      var deployment := readDeployment(run.deploymentId);
      if deployment.Err? {
        return Err(DeploymentUnavailable(deployment.error));
      }
      var documentId := InfrastructureDocumentId(deployment.value, defaultDocumentId);
      var block := readBlock(documentId);
      if block.Err? {
        return Err(BlockDocumentUnavailable(block.error));
      }
      var merged := InfraOverrides.MergeOverrides(block.value.data, deployment.value.infraOverrides);
      if merged.Err? {
        return Err(OverrideFailed(merged.error));
      }
      r := Ok(block.value.(data := merged.value.fields));
    }

    /**
     * `submit_run`: a run that becomes pending gets its infrastructure and is
     * launched (`launchSucceeded` says whether the launch worked; a failure is
     * reported, not raised). The run's id is then removed from `submitting`,
     * except when resolving the infrastructure failed: that error propagates
     * before the removal.
     */
    method SubmitRun(run: FlowRun, proposal: Result<State, Client.ProposeError>,
                     readDeployment: Option<Uuid> -> Result<Schemas.Deployment, ApiFailure>,
                     readBlock: Option<Uuid> -> Result<Schemas.BlockDocument, ApiFailure>,
                     launchSucceeded: bool)
      returns (r: Result<SubmitOutcome, AgentError>)
      modifies this`submitting
      ensures !ProposePending(proposal) ==>
                if run.id in old(submitting) then r == Ok(NotReady) && submitting == old(submitting) - {run.id}
                else r == Err(UnknownRun(run.id)) && submitting == old(submitting)
      ensures ProposePending(proposal) && readDeployment(run.deploymentId).Err? ==>
                r.Err? && r.error.DeploymentUnavailable? && submitting == old(submitting)
      ensures ProposePending(proposal) && readDeployment(run.deploymentId).Ok? ==>
                var deployment := readDeployment(run.deploymentId).value;
                var block := readBlock(InfrastructureDocumentId(deployment, defaultDocumentId));
                && (block.Err? ==> r == Err(BlockDocumentUnavailable(block.error)) && submitting == old(submitting))
                && (block.Ok? ==>
                      var merged := InfraOverrides.ApplyOverrides(Obj(block.value.data), deployment.infraOverrides);
                      && (merged.Err? ==> r == Err(OverrideFailed(merged.error)) && submitting == old(submitting))
                      && (merged.Ok? && run.id in old(submitting) ==>
                            var document := block.value.(data := merged.value.fields);
                            && r == Ok(if launchSucceeded then Submitted(document) else SubmissionFailed(document))
                            && submitting == old(submitting) - {run.id})
                      && (merged.Ok? && run.id !in old(submitting) ==>
                            r == Err(UnknownRun(run.id)) && submitting == old(submitting)))
    {
      var outcome := NotReady;
      if ProposePending(proposal) {
        var infrastructure := GetInfrastructure(run, readDeployment, readBlock);
        if infrastructure.Err? {
          return Err(infrastructure.error);
        }
        outcome := if launchSucceeded then Submitted(infrastructure.value) else SubmissionFailed(infrastructure.value);
      }
      if run.id !in submitting {
        return Err(UnknownRun(run.id));
      }
      submitting := submitting - {run.id};
      r := Ok(outcome);
    }

    /** `shutdown`: the agent is stopped and forgets its submissions and its queue cache. */
    method Shutdown()
      modifies this`started, this`submitting, this`cache, this`cacheExpiration
      ensures !started && submitting == {} && cache == [] && cacheExpiration == None
    {
      started := false;
      submitting := {};
      cache := [];
      cacheExpiration := None;
    }
  }

  /** `OrionAgent(...)`: refused when both defaults are given. */
  method NewAgent(workQueues: seq<string>, prefetchSeconds: Option<int>,
                  infrastructure: Option<Infrastructure>, documentId: Option<Uuid>)
    returns (r: Result<OrionAgent, AgentError>)
    ensures r.Err? <==> infrastructure.Some? && documentId.Some?
    ensures r.Err? ==> r.error == BothDefaults
    ensures r.Ok? ==>
              && fresh(r.value) && r.value.Valid()
              && r.value.workQueues == Dedup(workQueues) && r.value.prefetchSeconds == prefetchSeconds
              && r.value.submitting == {} && !r.value.started
              && r.value.cache == [] && r.value.cacheExpiration == None
              && Defaults(r.value.defaultInfrastructure, r.value.defaultDocumentId)
                 == ResolveDefaults(infrastructure, documentId).value
  {
    var defaults := ResolveDefaults(infrastructure, documentId);
    if defaults.Err? {
      return Err(defaults.error);
    }
    var agent := new OrionAgent(workQueues, prefetchSeconds, defaults.value);
    r := Ok(agent);
  }
}
