/**
 * The orchestration API's core records: the name check shared by flows,
 * deployments, block types and work queues; the documented field defaults;
 * the block-document validators; flow-run equality that ignores the rolling
 * estimates; and the obfuscation of secret fields when a block document is
 * read without its secrets.
 */
module Schemas {
  import opened Common

  /** Characters a flow, deployment, block-type, work-queue or block-document name may not contain. */
  const InvalidCharacters: seq<char> := ['/', '%', '&', '>', '<']

  datatype SchemaError = InvalidName(name: string) | NameRequired

  // ---------------------------------------------------------------------------
  // Names

  /** Some character of `chars` occurs in `name`. */
  function ContainsAny(chars: seq<char>, name: string): (r: bool)
    ensures r <==> exists i :: 0 <= i < |chars| && chars[i] in name
  {
    if chars == [] then false else chars[0] in name || ContainsAny(chars[1..], name)
  }

  predicate NameIsValid(name: string) {
    !ContainsAny(InvalidCharacters, name)
  }

  /** `raise_on_invalid_name`: fails exactly when one of the five invalid characters occurs. */
  function RaiseOnInvalidName(name: string): (r: Outcome<SchemaError>)
    ensures r.Fail? <==> ('/' in name || '%' in name || '&' in name || '>' in name || '<' in name)
    ensures r.Fail? ==> r.error == InvalidName(name)
  {
    InvalidCharactersListed(name);
    if ContainsAny(InvalidCharacters, name) then Fail(InvalidName(name)) else Pass
  }

  lemma InvalidCharactersListed(name: string)
    ensures ContainsAny(InvalidCharacters, name) <==>
              ('/' in name || '%' in name || '&' in name || '>' in name || '<' in name)
  {
    var cs := InvalidCharacters;
    if '/' in name { assert cs[0] in name; }
    if '%' in name { assert cs[1] in name; }
    if '&' in name { assert cs[2] in name; }
    if '>' in name { assert cs[3] in name; }
    if '<' in name { assert cs[4] in name; }
  }

  // ---------------------------------------------------------------------------
  // Records and their defaults

  datatype Flow = Flow(id: Uuid, name: string, tags: seq<string>)

  /** A flow with the given name; `tags` defaults to the empty list. */
  function NewFlow(id: Uuid, name: string): (r: Result<Flow, SchemaError>)
    ensures r.Ok? <==> NameIsValid(name)
    ensures r.Ok? ==> r.value.id == id && r.value.name == name && r.value.tags == []
    ensures r.Err? ==> r.error == InvalidName(name)
  {
    match RaiseOnInvalidName(name)
    case Fail(e) => Err(e)
    case Pass => Ok(Flow(id, name, []))
  }

  datatype QueueFilter = QueueFilter(tags: Option<seq<string>>, deploymentIds: Option<seq<Uuid>>)

  datatype WorkQueue = WorkQueue(
    id: Uuid,
    name: string,
    description: Option<string>,
    isPaused: bool,
    concurrencyLimit: Option<int>,
    filter: Option<QueueFilter>)

  /** A work queue with only its name given: not paused, no concurrency limit, empty description. */
  function NewWorkQueue(id: Uuid, name: string): (r: Result<WorkQueue, SchemaError>)
    ensures r.Ok? <==> NameIsValid(name)
    ensures r.Ok? ==> r.value.id == id && r.value.name == name
    ensures r.Ok? ==> !r.value.isPaused && r.value.concurrencyLimit == None
    ensures r.Ok? ==> r.value.description == Some("") && r.value.filter == None
    ensures r.Err? ==> r.error == InvalidName(name)
  {
    match RaiseOnInvalidName(name)
    case Fail(e) => Err(e)
    case Pass => Ok(WorkQueue(id, name, Some(""), false, None, None))
  }

  datatype Deployment = Deployment(
    id: Uuid,
    name: string,
    version: Option<string>,
    description: Option<string>,
    flowId: Uuid,
    schedule: Option<Doc>,
    isScheduleActive: bool,
    infraOverrides: seq<(string, Doc)>,   // a dict: insertion-ordered, keys distinct
    parameters: map<string, Doc>,
    tags: seq<string>,
    workQueueName: Option<string>,
    parameterOpenapiSchema: Option<map<string, Doc>>,
    path: Option<string>,
    entrypoint: Option<string>,
    manifestPath: Option<string>,
    storageDocumentId: Option<Uuid>,
    infrastructureDocumentId: Option<Uuid>)

  /**
   * A deployment with only its required fields given: the schedule is active,
   * parameters, tags and overrides are empty, and no work queue is named.
   */
  function NewDeployment(id: Uuid, name: string, flowId: Uuid): (r: Result<Deployment, SchemaError>)
    ensures r.Ok? <==> NameIsValid(name)
    ensures r.Ok? ==> r.value.id == id && r.value.name == name && r.value.flowId == flowId
    ensures r.Ok? ==> r.value.isScheduleActive && r.value.schedule == None
    ensures r.Ok? ==> r.value.parameters == map[] && r.value.tags == [] && r.value.infraOverrides == []
    ensures r.Ok? ==> r.value.workQueueName == None && r.value.infrastructureDocumentId == None
    ensures r.Err? ==> r.error == InvalidName(name)
  {
    match RaiseOnInvalidName(name)
    case Fail(e) => Err(e)
    case Pass =>
      Ok(Deployment(id, name, None, None, flowId, None, true, [], map[], [], None, None,
                    None, None, None, None, None))
  }

  datatype BlockType = BlockType(
    id: Uuid,
    name: string,
    slug: string,
    logoUrl: Option<string>,
    documentationUrl: Option<string>,
    description: Option<string>,
    codeExample: Option<string>,
    isProtected: bool)

  /** A block type with only its name and slug given: unprotected, no urls or texts. */
  function NewBlockType(id: Uuid, name: string, slug: string): (r: Result<BlockType, SchemaError>)
    ensures r.Ok? <==> NameIsValid(name)
    ensures r.Ok? ==> r.value.name == name && r.value.slug == slug && !r.value.isProtected
    ensures r.Err? ==> r.error == InvalidName(name)
  {
    match RaiseOnInvalidName(name)
    case Fail(e) => Err(e)
    case Pass => Ok(BlockType(id, name, slug, None, None, None, None, false))
  }

  // ---------------------------------------------------------------------------
  // Block documents

  datatype BlockDocument = BlockDocument(
    id: Uuid,
    name: Option<string>,
    data: map<string, Doc>,
    blockSchemaId: Uuid,
    blockTypeId: Uuid,
    isAnonymous: bool)

  /**
   * The errors validation collects for a block document's name: the character
   * check runs only on a present name; the root validator then sees the name
   * only if that check passed, and requires a non-empty name unless the
   * document is anonymous.
   */
  function BlockDocumentErrors(name: Option<string>, isAnonymous: bool): (errors: seq<SchemaError>)
    ensures InvalidName(if name.Some? then name.value else "") in errors <==>
              name.Some? && !NameIsValid(name.value)
    ensures NameRequired in errors <==>
              !isAnonymous && (name.None? || name.value == "" || !NameIsValid(name.value))
    ensures errors == [] <==>
              (name.None? || NameIsValid(name.value)) && (isAnonymous || (name.Some? && name.value != ""))
  {
    var fieldErrors := if name.Some? && RaiseOnInvalidName(name.value).Fail? then [InvalidName(name.value)] else [];
    var seenName := if fieldErrors == [] then name else None;
    var rootErrors := if !isAnonymous && (seenName.None? || seenName.value == "") then [NameRequired] else [];
    fieldErrors + rootErrors
  }

  function NewBlockDocument(id: Uuid, name: Option<string>, data: map<string, Doc>,
                            blockSchemaId: Uuid, blockTypeId: Uuid, isAnonymous: bool)
    : (r: Result<BlockDocument, seq<SchemaError>>)
    ensures r.Ok? <==> (name.None? || NameIsValid(name.value)) && (isAnonymous || (name.Some? && name.value != ""))
    ensures r.Ok? ==> r.value == BlockDocument(id, name, data, blockSchemaId, blockTypeId, isAnonymous)
    ensures r.Err? ==> r.error == BlockDocumentErrors(name, isAnonymous) && r.error != []
  {
    var errors := BlockDocumentErrors(name, isAnonymous);
    if errors == [] then Ok(BlockDocument(id, name, data, blockSchemaId, blockTypeId, isAnonymous))
    else Err(errors)
  }

  // ---------------------------------------------------------------------------
  // Flow runs

  datatype FlowRunPolicy = FlowRunPolicy(maxRetries: int, retryDelaySeconds: real)

  /** The empirical policy of a flow run created without one: no retries, no delay. */
  function DefaultFlowRunPolicy(): (p: FlowRunPolicy)
    ensures p.maxRetries == 0 && p.retryDelaySeconds == 0.0
  {
    FlowRunPolicy(0, 0.0)
  }

  datatype FlowRun = FlowRun(
    id: Uuid,
    created: Option<int>,
    updated: Option<int>,
    name: string,
    flowId: Uuid,
    stateId: Option<Uuid>,
    deploymentId: Option<Uuid>,
    workQueueName: Option<string>,
    flowVersion: Option<string>,
    parameters: map<string, Doc>,
    idempotencyKey: Option<string>,
    context: map<string, Doc>,
    empiricalPolicy: FlowRunPolicy,
    tags: seq<string>,
    parentTaskRunId: Option<Uuid>,
    stateType: Option<StateType>,
    stateName: Option<string>,
    runCount: int,
    expectedStartTime: Option<int>,
    nextScheduledStartTime: Option<int>,
    startTime: Option<int>,
    endTime: Option<int>,
    totalRunTime: int,
    estimatedRunTime: int,
    estimatedStartTimeDelta: int,
    autoScheduled: bool,
    infrastructureDocumentId: Option<Uuid>,
    state: Option<State>)

  /** The `name` validator: a supplied non-empty name is kept, otherwise a generated slug is used. */
  function SetName(name: Option<string>, generatedSlug: string): (r: string)
    ensures name.Some? && name.value != "" ==> r == name.value
    ensures name.None? || name.value == "" ==> r == generatedSlug
  {
    if name.Some? && name.value != "" then name.value else generatedSlug
  }

  /** The record with the two rolling estimates blanked: `dict(exclude=...)`. */
  function WithoutEstimates(run: FlowRun): FlowRun {
    run.(estimatedRunTime := 0, estimatedStartTimeDelta := 0)
  }

  /** `FlowRun.__eq__`: equal on every field except the two rolling estimates. */
  function FlowRunEquals(a: FlowRun, b: FlowRun): (r: bool)
    ensures r <==>
      a.id == b.id && a.created == b.created && a.updated == b.updated &&
      a.name == b.name && a.flowId == b.flowId && a.stateId == b.stateId &&
      a.deploymentId == b.deploymentId && a.workQueueName == b.workQueueName &&
      a.flowVersion == b.flowVersion && a.parameters == b.parameters &&
      a.idempotencyKey == b.idempotencyKey && a.context == b.context &&
      a.empiricalPolicy == b.empiricalPolicy && a.tags == b.tags &&
      a.parentTaskRunId == b.parentTaskRunId && a.stateType == b.stateType &&
      a.stateName == b.stateName && a.runCount == b.runCount &&
      a.expectedStartTime == b.expectedStartTime &&
      a.nextScheduledStartTime == b.nextScheduledStartTime &&
      a.startTime == b.startTime && a.endTime == b.endTime &&
      a.totalRunTime == b.totalRunTime && a.autoScheduled == b.autoScheduled &&
      a.infrastructureDocumentId == b.infrastructureDocumentId && a.state == b.state
  {
    WithoutEstimates(a) == WithoutEstimates(b)
  }

  /** Re-reading a run whose estimates have rolled on still compares equal. */
  lemma FlowRunEqualsIgnoresEstimates(a: FlowRun, runTime: int, startDelta: int)
    ensures FlowRunEquals(a, a.(estimatedRunTime := runTime, estimatedStartTimeDelta := startDelta))
  {
  }

  /** The equality is an equivalence: reflexive, symmetric and transitive. */
  lemma FlowRunEqualsEquivalence(a: FlowRun, b: FlowRun, c: FlowRun)
    ensures FlowRunEquals(a, a)
    ensures FlowRunEquals(a, b) ==> FlowRunEquals(b, a)
    ensures FlowRunEquals(a, b) && FlowRunEquals(b, c) ==> FlowRunEquals(a, c)
  {
  }

  // ---------------------------------------------------------------------------
  // Secret obfuscation over the flattened block data

  /** A key of the flattened data: the path of field names to a leaf. */
  type FlatKey = seq<string>

  /** The flattened keys named by the schema's dot-delimited `secret_fields`. */
  function SecretKeys(secretFields: seq<string>): set<FlatKey> {
    set i | 0 <= i < |secretFields| :: Split(secretFields[i], '.')
  }

  /** One secret field: its value is obfuscated when present and not None. */
  function ObfuscateField(flat: map<FlatKey, Doc>, field: string, obfuscate: Doc -> Doc): map<FlatKey, Doc> {
    var key := Split(field, '.');
    if key in flat && flat[key] != Null then flat[key := obfuscate(flat[key])] else flat
  }

  /** Every secret field, in the schema's order. */
  function ObfuscateFields(flat: map<FlatKey, Doc>, secretFields: seq<string>, obfuscate: Doc -> Doc)
    : map<FlatKey, Doc>
    decreases |secretFields|
  {
    if secretFields == [] then flat
    else ObfuscateField(ObfuscateFields(flat, secretFields[..|secretFields| - 1], obfuscate),
                        secretFields[|secretFields| - 1], obfuscate)
  }

  /**
   * Obfuscation keeps the key set, leaves every non-secret key and every None
   * value alone.
   */
  lemma {:induction false} ObfuscateFieldsFrame(flat: map<FlatKey, Doc>, secretFields: seq<string>, obfuscate: Doc -> Doc)
    ensures ObfuscateFields(flat, secretFields, obfuscate).Keys == flat.Keys
    ensures forall k :: k in flat && k !in SecretKeys(secretFields) ==>
              ObfuscateFields(flat, secretFields, obfuscate)[k] == flat[k]
    ensures forall k :: k in flat && flat[k] == Null ==>
              ObfuscateFields(flat, secretFields, obfuscate)[k] == Null
    decreases |secretFields|
  {
    if secretFields != [] {
      var n := |secretFields| - 1;
      var init := secretFields[..n];
      ObfuscateFieldsFrame(flat, init, obfuscate);
      assert SecretKeys(secretFields) == SecretKeys(init) + {Split(secretFields[n], '.')} by {
        forall k | k in SecretKeys(secretFields) ensures k in SecretKeys(init) + {Split(secretFields[n], '.')} {
          var i :| 0 <= i < |secretFields| && k == Split(secretFields[i], '.');
          if i < n { assert secretFields[i] == init[i]; }
        }
        forall k | k in SecretKeys(init) ensures k in SecretKeys(secretFields) {
          var i :| 0 <= i < |init| && k == Split(init[i], '.');
          assert init[i] == secretFields[i];
        }
      }
    }
  }

  /**
   * A secret field named once in the schema has its non-None value replaced by
   * the obfuscated value.
   */
  lemma {:induction false} ObfuscateFieldsSecret(flat: map<FlatKey, Doc>, secretFields: seq<string>,
                                                 obfuscate: Doc -> Doc, i: nat)
    requires i < |secretFields|
    requires forall j :: 0 <= j < |secretFields| && j != i ==>
               Split(secretFields[j], '.') != Split(secretFields[i], '.')
    requires Split(secretFields[i], '.') in flat && flat[Split(secretFields[i], '.')] != Null
    ensures Split(secretFields[i], '.') in ObfuscateFields(flat, secretFields, obfuscate)
    ensures ObfuscateFields(flat, secretFields, obfuscate)[Split(secretFields[i], '.')]
              == obfuscate(flat[Split(secretFields[i], '.')])
    decreases |secretFields|
  {
    var n := |secretFields| - 1;
    var init := secretFields[..n];
    var key := Split(secretFields[i], '.');
    ObfuscateFieldsFrame(flat, init, obfuscate);
    if i == n {
      forall j | 0 <= j < |init| ensures Split(init[j], '.') != key {
        assert init[j] == secretFields[j];
      }
      assert key !in SecretKeys(init);
    } else {
      forall j | 0 <= j < |init| && j != i ensures Split(init[j], '.') != Split(init[i], '.') {
        assert init[j] == secretFields[j] && init[i] == secretFields[i];
      }
      assert init[i] == secretFields[i];
      ObfuscateFieldsSecret(flat, init, obfuscate, i);
    }
  }

  /**
   * The obfuscation in `from_orm_model`: with `includeSecrets` the data is
   * returned untouched; otherwise the loop over the schema's secret fields
   * replaces each one's non-None value with its obfuscated form.
   */
  method ObfuscateSecrets(flat: map<FlatKey, Doc>, secretFields: seq<string>, includeSecrets: bool,
                          obfuscate: Doc -> Doc) returns (r: map<FlatKey, Doc>)
    ensures includeSecrets ==> r == flat
    ensures !includeSecrets ==> r == ObfuscateFields(flat, secretFields, obfuscate)
    ensures r.Keys == flat.Keys
    ensures forall k :: k in flat && k !in SecretKeys(secretFields) ==> r[k] == flat[k]
    ensures forall k :: k in flat && flat[k] == Null ==> r[k] == Null
  {
    if includeSecrets {
      return flat;
    }
    r := flat;
    var i := 0;
    while i < |secretFields|
      invariant 0 <= i <= |secretFields|
      invariant r == ObfuscateFields(flat, secretFields[..i], obfuscate)
    {
      assert secretFields[..i + 1][..i] == secretFields[..i];
      var key := Split(secretFields[i], '.');
      if key in r && r[key] != Null {
        r := r[key := obfuscate(r[key])];
      }
      i := i + 1;
    }
    assert secretFields[..i] == secretFields;
    ObfuscateFieldsFrame(flat, secretFields, obfuscate);
  }
}
