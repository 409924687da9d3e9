/** The whole path: a capability made from a template, any admin calls since, a request that reaches the
    adapter, and an adapter that answers (src/grantora/adapters/templates.py, src/grantora/api/admin.py,
    src/grantora/api/runtime.py). */
module Delivery {
  import opened Prelude
  import opened Json
  import opened Tables
  import opened AdminOps
  import opened Constraints
  import opened AdminRuns
  import opened AdminHistory
  import opened JsonSchema
  import SchemaWalk
  import opened TemplateShapes
  import opened AdapterFields
  import opened Retry
  import NethVoice
  import Nextcloud
  import opened Queries
  import opened Invocation
  import opened Accounting

  const NETHVOICE_TEMPLATE := Template(
    "nethvoice.phonebook.search", "Search phonebook", 1, "nethvoice", "nethvoice", "phonebook.search",
    UserAuth, ReadOnly, SEARCH_INPUT_SCHEMA, NETHVOICE_OUTPUT_SCHEMA)

  const NEXTCLOUD_TEMPLATE := Template(
    "nextcloud.files.search", "Search files", 1, "nextcloud", "nextcloud", "files.search",
    UserAuth, ReadOnly, SEARCH_INPUT_SCHEMA, NEXTCLOUD_OUTPUT_SCHEMA)

  /** validate_json_schema: the shape check, then the validator; the code of the error it raises. */
  ghost function ValidationError(instance: Json, schema: Json, code: string): Option<string> {
    if !schema.Obj? || !SchemaWalk.ShapeOk(schema.fields) then Some("capability_schema_invalid")
    else if Validates(schema, instance) then None
    else Some(code)
  }

  /** The pipeline's two checks are validate_json_schema on the template schemas. */
  ghost predicate ChecksSchemas(services: Services) {
    && (forall input, schema :: IsTemplateSchema(schema) ==>
          services.inputError(input, schema) == ValidationError(input, schema, "invalid_capability_input"))
    && (forall data, schema :: IsTemplateSchema(schema) ==>
          services.outputError(data, schema) == ValidationError(data, schema, "adapter_invalid_response"))
  }

  // ----- The adapters -----

  /** The deployment's settings, the upstream's outcomes and the library the adapters run on. */
  datatype Upstream = Upstream(readOnlyAttempts: int, maxBytes: nat, outcomes: nat -> SendOutcome,
    lib: Nextcloud.Library)

  function BaseUrl(db: Db, row: Capability): Option<string> {
    if row.application in db.applications then db.applications[row.application].baseUrl else None
  }

  /** The adapter registered under the capability's adapter id, called as the pipeline calls it. */
  function AdapterRun(db: Db, row: Capability, call: AdapterCall, up: Upstream): AdapterResult {
    if !row.inputSchema.Obj? || !call.input.Obj? then AdapterRaised
    else if call.adapter == "nethvoice" then
      NethVoice.InvokeResult(row, call.input.fields, BaseUrl(db, row), call.secret.secretType,
        up.readOnlyAttempts, up.maxBytes, up.outcomes)
    else
      Nextcloud.InvokeResult(row, call.input.fields, BaseUrl(db, row), call.secret.secretType, call.secret.value,
        up.readOnlyAttempts, up.maxBytes, up.outcomes, up.lib)
  }

  /** How a result reaches the pipeline: both adapters report one usage unit. */
  function OutcomeOf(result: AdapterResult): AdapterOutcome {
    match result
    case AdapterOk(data) => Returned(data, 1)
    case AdapterError(code, _, _) => Reported(Some(code))
    case AdapterRaised => Raised
  }

  function ListName(template: Template): string {
    if template == NETHVOICE_TEMPLATE then "contacts" else "files"
  }

  /** The limit the adapter of a template asks for. */
  function LimitOf(input: Json): int {
    if input.Obj? then RequestedLimit(input.fields, SEARCH_INPUT_SCHEMA.fields) else 50
  }

  /** What the adapter of a template returns is valid and no longer than asked; its errors have codes. */
  lemma AdapterConforms(db: Db, id: string, template: Template, call: AdapterCall, up: Upstream)
    requires template == NETHVOICE_TEMPLATE || template == NEXTCLOUD_TEMPLATE
    requires MadeFrom(db, id, template) && call.adapter == template.adapter && call.input.Obj?
    ensures var r := AdapterRun(db, db.capabilities[id], call, up);
      && (r.AdapterOk? ==>
           Validates(template.outputSchema, r.data) && AtMost(r.data, ListName(template), LimitOf(call.input)))
      && (r.AdapterError? ==> IsErrorCode(r.code))
  {
    hide Validates, RequestedLimit, NethVoice.InvokeResult, Nextcloud.InvokeResult, AtMost, SEARCH_INPUT_SCHEMA;
    var row := db.capabilities[id];
    if row.inputSchema.Obj? {
      if template == NETHVOICE_TEMPLATE {
        NethVoice.InvokeConforms(row, call.input.fields, BaseUrl(db, row), call.secret.secretType,
          up.readOnlyAttempts, up.maxBytes, up.outcomes);
      } else {
        Nextcloud.InvokeConforms(row, call.input.fields, BaseUrl(db, row), call.secret.secretType, call.secret.value,
          up.readOnlyAttempts, up.maxBytes, up.outcomes, up.lib);
      }
    }
  }

  /** The last answer of the upstream has a body within bounds and no error status. */
  ghost predicate Answered(last: SendOutcome, maxBytes: nat) {
    last.Answer? && last.response.status < 400 && last.response.size <= maxBytes && last.response.body.Some?
  }

  /** An adapter succeeds exactly when the application of the capability has a base URL, the secret is of a usable
      kind, and the last answer can be normalised; it then returns the items of that answer. */
  lemma AdapterSucceedsIff(db: Db, id: string, template: Template, call: AdapterCall, up: Upstream)
    requires template == NETHVOICE_TEMPLATE || template == NEXTCLOUD_TEMPLATE
    requires MadeFrom(db, id, template) && call.adapter == template.adapter && call.input.Obj?
    ensures var r, row := AdapterRun(db, db.capabilities[id], call, up), db.capabilities[id];
      var last := LastOutcome(ReadOnly, up.readOnlyAttempts, up.outcomes);
      var reachable := row.application in db.applications && db.applications[row.application].baseUrl.Some?;
      if template == NETHVOICE_TEMPLATE then
        r.AdapterOk? <==>
          && reachable && call.secret.secretType in {"bearer_token", "api_key"} && Answered(last, up.maxBytes)
          && NethVoice.Contacts(last.response.body.value, LimitOf(call.input)).Got?
      else
        r.AdapterOk? <==>
          && reachable && Answered(last, up.maxBytes)
          && (call.secret.secretType == "bearer_token"
               || (call.secret.secretType == "basic_auth" && ':' in call.secret.value))
          && Nextcloud.Files(last.response.body.value, LimitOf(call.input), up.lib).Got?
  {
    hide Validates, RequestedLimit, NethVoice.InvokeResult, Nextcloud.InvokeResult, AtMost, LastOutcome,
      NethVoice.Contacts, Nextcloud.Files, SEARCH_INPUT_SCHEMA, NETHVOICE_OUTPUT_SCHEMA, NEXTCLOUD_OUTPUT_SCHEMA;
    var row := db.capabilities[id];
    TemplatesDiffer();
    SearchSchemaIsObject();
    if template == NETHVOICE_TEMPLATE {
      NethVoice.InvokeConforms(row, call.input.fields, BaseUrl(db, row), call.secret.secretType,
        up.readOnlyAttempts, up.maxBytes, up.outcomes);
    } else {
      Nextcloud.InvokeConforms(row, call.input.fields, BaseUrl(db, row), call.secret.secretType, call.secret.value,
        up.readOnlyAttempts, up.maxBytes, up.outcomes, up.lib);
    }
  }

  lemma TemplatesDiffer()
    ensures "nethvoice" != "nextcloud" && NETHVOICE_TEMPLATE != NEXTCLOUD_TEMPLATE
  {
    assert "nethvoice"[2] == 't' && "nextcloud"[2] == 'x';
    assert NETHVOICE_TEMPLATE.adapter == "nethvoice" && NEXTCLOUD_TEMPLATE.adapter == "nextcloud";
  }

  lemma SearchSchemaIsObject()
    ensures SEARCH_INPUT_SCHEMA.Obj?
  {
  }

  /** A capability row carries the definition its template gave it. */
  predicate MadeFrom(db: Db, id: string, template: Template) {
    && id in db.capabilities
    && var row := db.capabilities[id];
       (row.provider, row.adapter, row.operation, row.authMode, row.risk, row.inputSchema, row.outputSchema)
       == (template.provider, template.adapter, template.operation, template.authMode, template.risk,
         template.inputSchema, template.outputSchema)
  }

  function RowOf(op: AdminOp): Capability
    requires op.CreateCapabilityFromTemplate? && op.template.Some?
  {
    CapabilityOf(op.template.value, op.workspace, op.application, op.newId, op.newName, op.newVersion, op.status)
  }

  /** Creating from a template leaves such a row, and no later admin call changes it. */
  lemma TemplateDefinitionLasts(store: Store, admin: Admin, op: AdminOp, env: Env, calls: seq<Call>)
    requires op.CreateCapabilityFromTemplate? && Step(store, admin, op, env).1.Done?
    ensures op.template.Some? && RowOf(op).id !in store.db.capabilities
    ensures MadeFrom(PerformAll(Step(store, admin, op, env).0, calls).db, RowOf(op).id, op.template.value)
  {
    hide Accepts, ActiveWorkspace, ActiveApplication, RequireAdminWorkspace, RequireSameWorkspace, PerformAll,
      PrincipalsContinue, RolesContinue, BindingsContinue, SecretsContinue;
    HistoryContinues(Step(store, admin, op, env).0, calls);
  }

  lemma IntegerLimitIsKept(input: Json)
    requires Validates(SEARCH_INPUT_SCHEMA, input)
    ensures input.Obj? && "limit" in input.fields && input.fields["limit"].Int? ==>
      LimitOf(input) == input.fields["limit"].i
  {
    hide Validates, RequestedLimit;
    if input.Obj? && "limit" in input.fields { AcceptedLimitIsKeptIff(input.fields); }
  }

  lemma SearchInputIsObject(input: Json)
    requires Validates(SEARCH_INPUT_SCHEMA, input)
    ensures input.Obj?
  {
    assert SEARCH_INPUT_SCHEMA.fields["type"] == Str("object");
  }

  /** What the adapter returned, as the caller sees it if the events can be stored; and they can exactly when
      the request id, the address and the capability id fit their columns. */
  ghost predicate Delivered(a: Arrival, t: Attempt, id: string, template: Template, input: Json, r: AdapterResult) {
    && (IsRecordable(a, t) <==> TextsFit(a, id))
    && (r.AdapterOk? ==>
          t.audit.success && t.usage.units == 1 && t.response == Data(id, r.data)
            && AtMost(r.data, ListName(template), LimitOf(input)))
    && (r.AdapterError? ==> !t.audit.success && t.response == ApiError(502, r.code))
    && (r.AdapterRaised? ==> !t.audit.success && t.response == ApiError(502, "adapter_error"))
  }

  lemma AdapterResultIsDelivered(a: Arrival, externalId: string, id: string, template: Template, input: Json,
                                 up: Upstream)
    requires KeyedCapabilities(a.db) && MadeFrom(a.db, id, template) && ChecksSchemas(a.services)
    requires template == NETHVOICE_TEMPLATE || template == NEXTCLOUD_TEMPLATE
    requires var t := InvokeById(a, externalId, id, input);
      t.calls != [] ==> a.outcome == OutcomeOf(AdapterRun(a.db, a.db.capabilities[id], t.calls[0], up))
    ensures var t := InvokeById(a, externalId, id, input);
      t.calls != [] ==>
        && Validates(SEARCH_INPUT_SCHEMA, input)
        && Delivered(a, t, id, template, input, AdapterRun(a.db, a.db.capabilities[id], t.calls[0], up))
  {
    hide Validates, InvokeById, ResolveSecret, Authorize, ActiveSelectedUser, IsTemplateSchema, SchemaWalk.ShapeOk,
      AdapterRun, AtMost,
      SEARCH_INPUT_SCHEMA, NETHVOICE_OUTPUT_SCHEMA, NEXTCLOUD_OUTPUT_SCHEMA, RequestedLimit;
    var t := InvokeById(a, externalId, id, input);
    InvocationOutcomes(a, externalId, id, input);
    var user := ActiveSelectedUser(a.db, a.workspace, externalId);
    if t.calls != [] {
      AuthorizedRow(a.db, a.workspace, a.agent, user.value, id);
      TemplatesCarryTheirSchemas(template);
      TemplateSchemasPass(template.inputSchema);
      TemplateSchemasPass(template.outputSchema);
      assert Validates(SEARCH_INPUT_SCHEMA, input);
      SearchInputIsObject(input);
      AdapterConforms(a.db, id, template, t.calls[0], up);
      InvocationIsWellAccounted(a, externalId, id, input);
      InvocationRecordsItsId(a, externalId, id, input);
      AdapterErrorIsACode();
      ShortCodesFit(t);
    }
  }

  lemma ShortCodesFit(t: Attempt)
    requires WellAccounted(t)
    requires t.response.ApiError? ==> IsErrorCode(t.response.code)
    requires t.response.Data? ==> t.usage.units == 1
    ensures ResultFits(t)
  {
  }

  lemma AdapterErrorIsACode()
    ensures IsErrorCode("adapter_error")
  {
  }

  lemma TemplatesCarryTheirSchemas(template: Template)
    requires template == NETHVOICE_TEMPLATE || template == NEXTCLOUD_TEMPLATE
    ensures IsTemplateSchema(template.inputSchema) && IsTemplateSchema(template.outputSchema)
    ensures template.inputSchema == SEARCH_INPUT_SCHEMA
  {
  }

  /** End to end: a capability is made from a template, any admin calls follow, and an invocation reaches the
      adapter, which retries, reads the last answer and normalises it. Then the input was valid, and the
      caller gets what the adapter returned: its data under one success event, with no more items than an
      integer limit asked for, or its error code; never a rejection of the adapter's own output. Only a request
      id, an address or a capability id too long for the events turns the answer into a server error. */
  lemma TemplateAnswersAreDelivered(store: Store, admin: Admin, op: AdminOp, env: Env, calls: seq<Call>,
                                    a: Arrival, externalId: string, input: Json, up: Upstream)
    requires Inv(store.db) && op.CreateCapabilityFromTemplate? && Step(store, admin, op, env).1.Done?
    requires op.template == Some(NETHVOICE_TEMPLATE) || op.template == Some(NEXTCLOUD_TEMPLATE)
    requires a.db == PerformAll(Step(store, admin, op, env).0, calls).db
    requires ChecksSchemas(a.services)
    requires var id := RowOf(op).id;
      var t := InvokeById(a, externalId, id, input);
      t.calls != [] && id in a.db.capabilities ==>
        a.outcome == OutcomeOf(AdapterRun(a.db, a.db.capabilities[id], t.calls[0], up))
    ensures var id := RowOf(op).id;
      var t := InvokeById(a, externalId, id, input);
      t.calls != [] ==>
        && id in a.db.capabilities && Validates(SEARCH_INPUT_SCHEMA, input) && input.Obj?
        && Delivered(a, t, id, op.template.value, input, AdapterRun(a.db, a.db.capabilities[id], t.calls[0], up))
        && ("limit" in input.fields && input.fields["limit"].Int? ==> LimitOf(input) == input.fields["limit"].i)
  {
    hide Step, PerformAll, InvokeById, Validates, RequestedLimit, RowOf, ChecksSchemas, Accepts, AdapterRun, OutcomeOf,
      Delivered,
      SEARCH_INPUT_SCHEMA, NETHVOICE_TEMPLATE, NEXTCLOUD_TEMPLATE;
    var id := RowOf(op).id;
    TemplateDefinitionLasts(store, admin, op, env, calls);
    StepKeepsInv(store, admin, op, env);
    EveryReachableStoreIsSound(Step(store, admin, op, env).0, calls);
    AdapterResultIsDelivered(a, externalId, id, op.template.value, input, up);
    if InvokeById(a, externalId, id, input).calls != [] {
      SearchInputIsObject(input);
      IntegerLimitIsKept(input);
    }
  }

  lemma StepKeepsInv(store: Store, admin: Admin, op: AdminOp, env: Env)
    requires Inv(store.db)
    ensures Inv(Step(store, admin, op, env).0.db)
  {
    hide Inv, Step;
    PerformKeepsInv(store, Mutate(admin, op, env));
  }
}
