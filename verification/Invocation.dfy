/** The invocation pipeline and its accounting (src/grantora/api/runtime.py, src/grantora/secrets/resolution.py). */
module Invocation {
  import opened Prelude
  import opened Text
  import opened Json
  import opened Tables
  import opened AdminOps
  import opened Constraints
  import opened Queries
  import opened ToolNames
  import opened NameMap
  import opened ToolSurfaces

  /** The parts outside the pipeline: schema validation (an error code or None), decryption with the
      external store (None when it fails), the registered adapters, and the hash of the tool names. */
  datatype Services = Services(
    inputError: (Json, Json) -> Option<string>,
    outputError: (Json, Json) -> Option<string>,
    unseal: string -> Option<string>,
    adapters: set<string>,
    sha: string -> Digest)

  /** What the adapter does if it is called: raise, report an error, or return data. */
  datatype AdapterOutcome = Raised | Reported(code: Option<string>) | Returned(data: Json, usageUnits: int)

  datatype Request =
    | Invoke(user: string, capability: string, input: Json)
    | McpCall(user: string, tool: string, input: Json)

  /** An authenticated request with the state it meets. The request id is the client's header, of any length. */
  datatype Arrival = Arrival(
    db: Db, workspace: Id, agent: Id, request: Request, services: Services, outcome: AdapterOutcome,
    requestId: string, remoteAddress: Option<string>)

  datatype SecretMaterial = SecretMaterial(secretType: string, value: string)

  datatype AdapterCall = AdapterCall(adapter: string, capability: string, user: Id, input: Json, secret: SecretMaterial)

  datatype UsageStatus = Success | Error | Denied

  datatype RuntimeAudit = RuntimeAudit(
    user: Option<Id>, capability: string, application: Option<Id>, allowed: bool, success: bool,
      errorCode: Option<string>)

  datatype UsageEvent = UsageEvent(
    user: Option<Id>, capability: string, application: Option<Id>, units: int, status: UsageStatus)

  datatype Response = Data(capability: string, data: Json) | ApiError(status: int, code: string) | ServerError

  // ----- What a request may say, and what the event columns hold -----

  /** EXTERNAL_ID_PATTERN, ^[A-Za-z0-9][A-Za-z0-9._@:-]*$, up to 128 characters. */
  predicate ValidExternalId(s: string) {
    && 0 < |s| <= 128 && IsAlnum(s[0])
    && forall i :: 0 <= i < |s| ==> IsAlnum(s[i]) || s[i] in "._@:-"
  }

  /** What the request schemas let through to the handler. The capability id in the path has no schema. */
  predicate Admissible(request: Request) {
    match request
    case Invoke(user, _, _) => ValidExternalId(user)
    case McpCall(user, tool, _) => ValidExternalId(user) && Callable(tool)
  }

  const TEXT_WIDTH := 128
  const ADDRESS_WIDTH := 64
  const MAX_INTEGER := 2147483647

  /** What PostgreSQL stores in a varchar of the given width. */
  predicate FitsColumn(text: string, width: nat) {
    |text| <= width && '\0' !in text
  }

  /** The insert of the two events succeeds: request id, capability id, error code, address and units fit. */
  predicate Recordable(a: Arrival, audit: RuntimeAudit, usage: UsageEvent) {
    && FitsColumn(a.requestId, TEXT_WIDTH)
    && (a.remoteAddress.Some? ==> FitsColumn(a.remoteAddress.value, ADDRESS_WIDTH))
    && FitsColumn(audit.capability, TEXT_WIDTH) && FitsColumn(usage.capability, TEXT_WIDTH)
    && (audit.errorCode.Some? ==> FitsColumn(audit.errorCode.value, TEXT_WIDTH))
    && usage.units <= MAX_INTEGER
  }

  // ----- Secrets -----

  /** The secret an auth mode asks for; None for the modes that never reach one at run time. */
  function SecretOwner(capability: Capability, user: Id): Option<(OwnerType, Id)> {
    match capability.authMode
    case UserAuth => Some((UserOwner, user))
    case UserScopeAuth => Some((UserOwner, user))
    case SystemAuth => Some((WorkspaceOwner, capability.workspace))
    case AdminAuth => None
  }

  /** resolve_secret_material: fails closed with an error code. */
  function ResolveSecret(db: Db, capability: Capability, user: Id,
                         unseal: string -> Option<string>): Result<SecretMaterial, string> {
    match SecretOwner(capability, user)
    case None => Err("capability_denied")
    case Some((ownerType, owner)) =>
      match ActiveSecret(db, capability.workspace, capability.application, ownerType, owner)
      case None => Err("secret_not_found")
      case Some(secret) =>
        match unseal(secret.cipher)
        case None => Err("secret_unavailable")
        case Some(value) => Ok(SecretMaterial(secret.secretType, value))
  }

  /** The secret an auth mode asks for: an active one for the capability's own application, both in its own
      live workspace, and owned by the caller or, in system mode, by the workspace. */
  predicate OwnedSecret(db: Db, capability: Capability, user: Id, secret: Secret) {
    && secret.workspace == capability.workspace && secret.application == capability.application && secret.status.Live?
    && (match capability.authMode
        case UserAuth => secret.ownerType == UserOwner && secret.owner == user
        case UserScopeAuth => secret.ownerType == UserOwner && secret.owner == user
        case SystemAuth => secret.ownerType == WorkspaceOwner && secret.owner == capability.workspace
        case AdminAuth => false)
    && secret.workspace in db.workspaces && db.workspaces[secret.workspace].status.Active?
    && secret.application in db.applications && db.applications[secret.application].status.Active?
    && db.applications[secret.application].workspace == secret.workspace
  }

  /** Resolution gives the one such secret, unsealed; otherwise it fails with the code for the reason: the mode
      reaches no secret at run time, there is none, or the one there is cannot be unsealed. */
  lemma ResolvedSecretIsTheOwners(db: Db, capability: Capability, user: Id, unseal: string -> Option<string>)
    requires UniqueActiveSecrets(db)
    ensures capability.authMode == AdminAuth ==>
      ResolveSecret(db, capability, user, unseal) == Err("capability_denied")
    ensures capability.authMode != AdminAuth && (forall k :: k in db.secrets ==>
        !OwnedSecret(db, capability, user, db.secrets[k])) ==>
      ResolveSecret(db, capability, user, unseal) == Err("secret_not_found")
    ensures forall k :: k in db.secrets && OwnedSecret(db, capability, user, db.secrets[k]) ==> (
      var value := unseal(db.secrets[k].cipher);
      ResolveSecret(db, capability, user, unseal) ==
        if value.None? then Err("secret_unavailable") else Ok(SecretMaterial(db.secrets[k].secretType, value.value)))
  {
    hide SecretRuns, OwnedSecret;
    if SecretOwner(capability, user).Some? {
      var owner := SecretOwner(capability, user).value;
      var found := set k | k in db.secrets
        && SecretRuns(db, capability.workspace, capability.application, owner.0, owner.1, db.secrets[k]);
      forall a, b | a in found && b in found ensures a == b {
        if a != b { RunningSecretsShareKey(db, capability.workspace, capability.application, owner.0, owner.1, a, b); }
      }
      forall k | k in db.secrets ensures k in found <==> OwnedSecret(db, capability, user, db.secrets[k]) {
        OwnedIsSelected(db, capability, user, db.secrets[k]);
      }
      assert forall k :: k in found ==> k == Smallest(found);
    } else {
      forall k | k in db.secrets ensures !OwnedSecret(db, capability, user, db.secrets[k]) {
        OwnedIsSelected(db, capability, user, db.secrets[k]);
      }
    }
  }

  lemma OwnedIsSelected(db: Db, capability: Capability, user: Id, secret: Secret)
    ensures var owner := SecretOwner(capability, user);
      OwnedSecret(db, capability, user, secret) <==>
        && owner.Some?
        && SecretRuns(db, capability.workspace, capability.application, owner.value.0, owner.value.1, secret)
  {
  }

  lemma RunningSecretsShareKey(db: Db, workspace: Id, application: Id, ownerType: OwnerType, owner: Id, a: Id, b: Id)
    requires a in db.secrets && b in db.secrets
    requires SecretRuns(db, workspace, application, ownerType, owner, db.secrets[a])
    requires SecretRuns(db, workspace, application, ownerType, owner, db.secrets[b])
    ensures SameSecretKey(db.secrets[a], db.secrets[b]) && db.secrets[a].status.Live? && db.secrets[b].status.Live?
  {
  }

  // ----- One attempt -----

  /** What one attempt adds to the logs and answers. */
  datatype Attempt = Attempt(audit: RuntimeAudit, usage: UsageEvent, response: Response, calls: seq<AdapterCall>)

  function Refusal(user: Option<Id>, capability: string, application: Option<Id>, allowed: bool, status: int,
                   code: string, calls: seq<AdapterCall>): Attempt {
    Attempt(
      RuntimeAudit(user, capability, application, allowed, false, Some(code)),
      UsageEvent(user, capability, application, 1, if allowed then Error else Denied),
      ApiError(status, code), calls)
  }

  /** The selected user row, and the same row if it is active. */
  function SelectedUser(db: Db, workspace: Id, externalId: string): Option<Id> {
    UserByExternalId(db, workspace, externalId)
  }

  function ActiveSelectedUser(db: Db, workspace: Id, externalId: string): Option<Id> {
    match SelectedUser(db, workspace, externalId)
    case None => None
    case Some(user) => if user in db.users && db.users[user].status.Active? then Some(user) else None
  }

  /** A request selects the user with the external id it names, in the agent's live workspace. */
  lemma SelectedUserIff(db: Db, workspace: Id, externalId: string, k: Id)
    requires UniqueUsers(db)
    ensures SelectedUser(db, workspace, externalId) == Some(k) <==> (
      && k in db.users && db.users[k].workspace == workspace && db.users[k].externalId == externalId
      && workspace in db.workspaces && db.workspaces[workspace].status.Active?)
    ensures ActiveSelectedUser(db, workspace, externalId) == Some(k) <==>
      SelectedUser(db, workspace, externalId) == Some(k) && db.users[k].status.Active?
  {
    var found := set u | u in db.users && db.users[u].workspace == workspace && db.users[u].externalId == externalId
      && LiveWorkspace(db, workspace);
    assert First(found) == SelectedUser(db, workspace, externalId);
    if k in found { assert k == Smallest(found); }
  }

  /** The stages after authorization, for an authorized capability. */
  function Serve(a: Arrival, user: Id, capability: Capability, input: Json): Attempt {
    var who, application := Some(user), Some(capability.application);
    var invalid := a.services.inputError(input, capability.inputSchema);
    if invalid.Some? then Refusal(who, capability.id, application, true, 422, invalid.value, [])
    else
      match ResolveSecret(a.db, capability, user, a.services.unseal)
      case Err(code) => Refusal(who, capability.id, application, false, 424, code, [])
      case Ok(secret) =>
        if capability.adapter !in a.services.adapters then
          Refusal(who, capability.id, application, true, 502, "adapter_not_found", [])
        else
          var calls := [AdapterCall(capability.adapter, capability.id, user, input, secret)];
          match a.outcome
          case Raised => Refusal(who, capability.id, application, true, 502, "adapter_error", calls)
          case Reported(code) =>
            var reported := if code.Some? && code.value != "" then code.value else "adapter_error";
            Refusal(who, capability.id, application, true, 502, reported, calls)
          case Returned(data, units) =>
            var broken := a.services.outputError(data, capability.outputSchema);
            if broken.Some? then Refusal(who, capability.id, application, true, 502, broken.value, calls)
            else
              Attempt(
                RuntimeAudit(who, capability.id, application, true, true, None),
                UsageEvent(who, capability.id, application, if units < 1 then 1 else units, Success),
                Data(capability.id, data), calls)
  }

  /** _invoke_capability_by_id */
  function InvokeById(a: Arrival, externalId: string, id: string, input: Json): Attempt {
    match ActiveSelectedUser(a.db, a.workspace, externalId)
    case None => Refusal(SelectedUser(a.db, a.workspace, externalId), id, None, false, 403, "capability_denied", [])
    case Some(user) =>
      match ActiveCapabilityById(a.db, a.workspace, id)
      case None => Refusal(Some(user), id, None, false, 403, "capability_denied", [])
      case Some(capability) =>
        if !ApplicationLive(a.db, capability) then Refusal(Some(user), id, None, false, 403, "capability_denied", [])
        else if !Granted(a.db, a.workspace, a.agent, user, capability) then
          Refusal(Some(user), id, Some(capability.application), false, 403, "capability_denied", [])
        else Serve(a, user, capability, input)
  }

  /** call_mcp_tool; None is the ValueError of the name map, which ends the request without any event. */
  function CallTool(a: Arrival, externalId: string, tool: string, input: Json): Option<Attempt> {
    match ActiveSelectedUser(a.db, a.workspace, externalId)
    case None =>
      Some(Refusal(SelectedUser(a.db, a.workspace, externalId), tool, None, false, 403, "capability_denied", []))
    case Some(user) =>
      match Lookup(VisibleCapabilities(a.db, a.workspace, a.agent, user), tool, a.services.sha)
      case None => None
      case Some(None) => Some(Refusal(Some(user), tool, None, false, 403, "capability_denied", []))
      case Some(Some(capability)) => Some(InvokeById(a, externalId, capability.id, input))
  }

  function AttemptOf(a: Arrival): Option<Attempt> {
    match a.request
    case Invoke(user, capability, input) => Some(InvokeById(a, user, capability, input))
    case McpCall(user, tool, input) => CallTool(a, user, tool, input)
  }

  // ----- What becomes of a request -----

  /** Refused by the request schema, ended by a raising name map, ended by a failing commit of its events
      after whatever it did, or recorded and answered. */
  datatype Handling = Refused | MapRaised | Unrecorded(attempt: Attempt) | Recorded(attempt: Attempt)

  predicate IsRecordable(a: Arrival, t: Attempt) {
    Recordable(a, t.audit, t.usage)
  }

  function Handled(a: Arrival): Handling {
    if !Admissible(a.request) then Refused
    else
      match AttemptOf(a)
      case None => MapRaised
      case Some(t) => if IsRecordable(a, t) then Recorded(t) else Unrecorded(t)
  }

  /** What the caller gets for an attempt: nothing catches the database error of a failing commit. */
  function Reply(a: Arrival, t: Attempt): Response {
    if IsRecordable(a, t) then t.response else ServerError
  }

  /** What an attempt adds to the audit and usage events, and to the adapter calls. */
  function Logged(a: Arrival, t: Attempt): (seq<RuntimeAudit>, seq<UsageEvent>, seq<AdapterCall>) {
    if IsRecordable(a, t) then ([t.audit], [t.usage], t.calls) else ([], [], t.calls)
  }

  /** The same for a request. */
  function LoggedBy(a: Arrival): (seq<RuntimeAudit>, seq<UsageEvent>, seq<AdapterCall>) {
    match Handled(a)
    case Refused => ([], [], [])
    case MapRaised => ([], [], [])
    case Unrecorded(t) => Logged(a, t)
    case Recorded(t) => Logged(a, t)
  }

  function Answer(a: Arrival): Response {
    match Handled(a)
    case Refused => ApiError(422, "request_validation_failed")
    case MapRaised => ServerError
    case Unrecorded(_) => ServerError
    case Recorded(t) => t.response
  }

  // ----- The runtime with its logs -----

  class Runtime {
    var audit: seq<RuntimeAudit>
    var usage: seq<UsageEvent>
    var calls: seq<AdapterCall>

    constructor ()
      ensures audit == [] && usage == [] && calls == []
    {
      audit, usage, calls := [], [], [];
    }

    /** _record_invocation_attempt: one audit event and one usage event, committed together, or neither when
        a value does not fit its column. */
    method Record(a: Arrival, user: Option<Id>, capability: Option<Capability>, capabilityId: string,
                  allowed: bool, success: bool, errorCode: Option<string>, status: UsageStatus, units: int)
      returns (ok: bool)
      modifies this`audit, this`usage
      ensures var application := if capability.Some? then Some(capability.value.application) else None;
        var event := RuntimeAudit(user, capabilityId, application, allowed, success, errorCode);
        var use := UsageEvent(user, capabilityId, application, units, status);
        && ok == Recordable(a, event, use)
        && audit == old(audit) + (if ok then [event] else [])
        && usage == old(usage) + (if ok then [use] else [])
    {
      var application := if capability.Some? then Some(capability.value.application) else None;
      var event := RuntimeAudit(user, capabilityId, application, allowed, success, errorCode);
      var use := UsageEvent(user, capabilityId, application, units, status);
      ok := Recordable(a, event, use);
      if ok {
        audit := audit + [event];
        usage := usage + [use];
      }
    }

    /** _record_and_raise_invocation_error */
    method RecordError(a: Arrival, user: Option<Id>, capability: Option<Capability>, capabilityId: string,
                       allowed: bool, status: int, code: string)
      returns (response: Response)
      modifies this`audit, this`usage
      ensures var application := if capability.Some? then Some(capability.value.application) else None;
        var refusal := Refusal(user, capabilityId, application, allowed, status, code, []);
        var logged := Logged(a, refusal);
        && audit == old(audit) + logged.0 && usage == old(usage) + logged.1 && response == Reply(a, refusal)
    {
      var usageStatus := if allowed then Error else Denied;
      var ok := Record(a, user, capability, capabilityId, allowed, false, Some(code), usageStatus, 1);
      response := if ok then ApiError(status, code) else ServerError;
    }

    method Call(a: Arrival, capability: Capability, user: Id, input: Json, secret: SecretMaterial)
      returns (outcome: AdapterOutcome)
      modifies this`calls
      ensures calls == old(calls) + [AdapterCall(capability.adapter, capability.id, user, input, secret)]
      ensures outcome == a.outcome
    {
      calls := calls + [AdapterCall(capability.adapter, capability.id, user, input, secret)];
      outcome := a.outcome;
    }

    method InvokeCapability(a: Arrival, externalId: string, id: string, input: Json) returns (response: Response)
      requires KeyedCapabilities(a.db)
      modifies this
      ensures var attempt := InvokeById(a, externalId, id, input);
        var logged := Logged(a, attempt);
        && audit == old(audit) + logged.0
        && usage == old(usage) + logged.1
        && calls == old(calls) + logged.2
        && response == Reply(a, attempt)
    {
      hide Granted, CapabilityRuns, ResolveSecret, UserByExternalId, Recordable;
      var selected := SelectedUser(a.db, a.workspace, externalId);
      if selected.None? || selected.value !in a.db.users || a.db.users[selected.value].status.Disabled? {
        response := RecordError(a, selected, None, id, false, 403, "capability_denied");
        return;
      }
      var user := selected.value;
      var found := ActiveCapabilityById(a.db, a.workspace, id);
      if found.None? || !ApplicationLive(a.db, found.value) {
        response := RecordError(a, selected, None, id, false, 403, "capability_denied");
        return;
      }
      var capability := found.value;
      AuthorizedKey(a.db, a.workspace, id);
      if !Granted(a.db, a.workspace, a.agent, user, capability) {
        response := RecordError(a, selected, found, id, false, 403, "capability_denied");
        return;
      }
      var invalid := a.services.inputError(input, capability.inputSchema);
      if invalid.Some? {
        response := RecordError(a, selected, found, id, true, 422, invalid.value);
        return;
      }
      var secret := ResolveSecret(a.db, capability, user, a.services.unseal);
      if secret.Err? {
        response := RecordError(a, selected, found, id, false, 424, secret.error);
        return;
      }
      if capability.adapter !in a.services.adapters {
        response := RecordError(a, selected, found, id, true, 502, "adapter_not_found");
        return;
      }
      var outcome := Call(a, capability, user, input, secret.value);
      if outcome.Raised? {
        response := RecordError(a, selected, found, id, true, 502, "adapter_error");
        return;
      }
      if outcome.Reported? {
        var code := if outcome.code.Some? && outcome.code.value != "" then outcome.code.value else "adapter_error";
        response := RecordError(a, selected, found, id, true, 502, code);
        return;
      }
      var broken := a.services.outputError(outcome.data, capability.outputSchema);
      if broken.Some? {
        response := RecordError(a, selected, found, id, true, 502, broken.value);
        return;
      }
      var units := if outcome.usageUnits < 1 then 1 else outcome.usageUnits;
      var ok := Record(a, selected, found, id, true, true, None, Success, units);
      response := if ok then Data(capability.id, outcome.data) else ServerError;
    }

    method CallMcpTool(a: Arrival, externalId: string, tool: string, input: Json) returns (response: Response)
      requires KeyedCapabilities(a.db)
      modifies this
      ensures var attempt := CallTool(a, externalId, tool, input);
        if attempt.None? then response.ServerError? && audit == old(audit) && usage == old(usage) && calls == old(calls)
        else
          var logged := Logged(a, attempt.value);
          && audit == old(audit) + logged.0
          && usage == old(usage) + logged.1
          && calls == old(calls) + logged.2
          && response == Reply(a, attempt.value)
    {
      hide VisibleCapabilities, Lookup, InvokeById, UserByExternalId, Recordable;
      var selected := SelectedUser(a.db, a.workspace, externalId);
      if selected.None? || selected.value !in a.db.users || a.db.users[selected.value].status.Disabled? {
        response := RecordError(a, selected, None, tool, false, 403, "capability_denied");
        return;
      }
      var visible := ListVisibleCapabilities(a.db, a.workspace, a.agent, selected.value);
      var found := CapabilityByToolName(visible, tool, a.services.sha);
      if found.None? {
        return ServerError;
      }
      if found.value.None? {
        response := RecordError(a, selected, None, tool, false, 403, "capability_denied");
        return;
      }
      response := InvokeCapability(a, externalId, found.value.value.id, input);
    }

    /** A request from its schema to its answer. */
    method Handle(a: Arrival) returns (response: Response)
      requires KeyedCapabilities(a.db)
      modifies this
      ensures var logged := LoggedBy(a);
        && audit == old(audit) + logged.0
        && usage == old(usage) + logged.1
        && calls == old(calls) + logged.2
      ensures response == Answer(a)
    {
      hide CallTool, InvokeById, Recordable, Admissible;
      if !Admissible(a.request) {
        return ApiError(422, "request_validation_failed");
      }
      match a.request
      case Invoke(user, capability, input) => response := InvokeCapability(a, user, capability, input);
      case McpCall(user, tool, input) => response := CallMcpTool(a, user, tool, input);
    }
  }

  lemma AuthorizedKey(db: Db, workspace: Id, id: string)
    requires KeyedCapabilities(db) && ActiveCapabilityById(db, workspace, id).Some?
    ensures ActiveCapabilityById(db, workspace, id).value.id == id
  {
  }

  // ----- Accounting -----

  /** The two events tell one story, and the story fits the answer and the adapter calls. */
  ghost predicate WellAccounted(t: Attempt) {
    && t.audit.user == t.usage.user && t.audit.capability == t.usage.capability
         && t.audit.application == t.usage.application
    && (!t.audit.allowed <==> t.usage.status.Denied?)
    && (t.audit.success <==> t.audit.errorCode.None?)
    && (t.audit.success <==> t.usage.status.Success?)
    && (t.audit.success <==> t.response.Data?)
    && (!t.audit.success ==> t.response.ApiError? && t.audit.errorCode == Some(t.response.code))
    && t.usage.units >= 1
    && (!t.audit.success ==> t.usage.units == 1)
    && |t.calls| <= 1
    && (!t.audit.allowed ==> t.calls == [])
    && (t.audit.success ==> |t.calls| == 1)
  }

  lemma EveryAttemptIsWellAccounted(a: Arrival)
    requires AttemptOf(a).Some?
    ensures WellAccounted(AttemptOf(a).value)
  {
    hide InvokeById, WellAccounted, Lookup, VisibleCapabilities, ActiveSelectedUser, SelectedUser;
    if a.request.Invoke? {
      InvocationIsWellAccounted(a, a.request.user, a.request.capability, a.request.input);
    } else {
      RefusalIsWellAccounted(SelectedUser(a.db, a.workspace, a.request.user), a.request.tool);
      var user := ActiveSelectedUser(a.db, a.workspace, a.request.user);
      if user.Some? {
        RefusalIsWellAccounted(user, a.request.tool);
        var found :=
          Lookup(VisibleCapabilities(a.db, a.workspace, a.agent, user.value), a.request.tool, a.services.sha);
        if found.Some? && found.value.Some? {
          InvocationIsWellAccounted(a, a.request.user, found.value.value.id, a.request.input);
        }
      }
    }
  }

  lemma RefusalIsWellAccounted(user: Option<Id>, capability: string)
    ensures WellAccounted(Refusal(user, capability, None, false, 403, "capability_denied", []))
  {
  }

  lemma InvocationIsWellAccounted(a: Arrival, externalId: string, id: string, input: Json)
    ensures WellAccounted(InvokeById(a, externalId, id, input))
  {
    hide Granted, ActiveCapabilityById, Serve, ActiveSelectedUser, SelectedUser;
    var user := ActiveSelectedUser(a.db, a.workspace, externalId);
    if user.Some? && ActiveCapabilityById(a.db, a.workspace, id).Some? {
      ServeIsWellAccounted(a, user.value, ActiveCapabilityById(a.db, a.workspace, id).value, input);
    }
  }

  lemma ServeIsWellAccounted(a: Arrival, user: Id, capability: Capability, input: Json)
    ensures WellAccounted(Serve(a, user, capability, input))
  {
    hide ResolveSecret;
  }

  /** How far an attempt gets before the adapter: user, authorization, input, secret, registration. */
  ghost predicate ReachesAdapter(a: Arrival, user: Id, capability: Capability, input: Json) {
    && a.services.inputError(input, capability.inputSchema).None?
    && ResolveSecret(a.db, capability, user, a.services.unseal).Ok?
    && capability.adapter in a.services.adapters
  }

  ghost predicate OutcomeAccepted(a: Arrival, capability: Capability) {
    a.outcome.Returned? && a.services.outputError(a.outcome.data, capability.outputSchema).None?
  }

  /** The status a failing stage answers with: 422 for the input, 424 for the secret, 502 for the adapter. */
  ghost function FailureStatus(a: Arrival, capability: Capability, user: Id, input: Json): int {
    if a.services.inputError(input, capability.inputSchema).Some? then 422
    else if ResolveSecret(a.db, capability, user, a.services.unseal).Err? then 424
    else 502
  }

  /** And its code: the stage's own, or the adapter's if it gives one. */
  ghost function FailureCode(a: Arrival, capability: Capability, user: Id, input: Json): string {
    var invalid := a.services.inputError(input, capability.inputSchema);
    var secret := ResolveSecret(a.db, capability, user, a.services.unseal);
    if invalid.Some? then invalid.value
    else if secret.Err? then secret.error
    else if capability.adapter !in a.services.adapters then "adapter_not_found"
    else if a.outcome.Reported? && a.outcome.code.Some? && a.outcome.code.value != "" then a.outcome.code.value
    else if a.outcome.Returned? && a.services.outputError(a.outcome.data, capability.outputSchema).Some? then
      a.services.outputError(a.outcome.data, capability.outputSchema).value
    else "adapter_error"
  }

  /** An invocation is denied exactly when the caller is not authorized, or the input is valid and the
      secret cannot be resolved; it succeeds, and hands on the adapter's data, exactly when every stage does.
      The adapter is called, once and with the resolved secret, exactly when all stages before it pass. */
  lemma InvocationOutcomes(a: Arrival, externalId: string, id: string, input: Json)
    requires KeyedCapabilities(a.db)
    ensures var t := InvokeById(a, externalId, id, input);
      var user := ActiveSelectedUser(a.db, a.workspace, externalId);
      if user.None? || Authorize(a.db, a.workspace, a.agent, user.value, id).None? then
        !t.audit.allowed && t.calls == [] && t.response == ApiError(403, "capability_denied")
      else
        var c := Authorize(a.db, a.workspace, a.agent, user.value, id).value;
        var secret := ResolveSecret(a.db, c, user.value, a.services.unseal);
        && (!t.audit.allowed <==> a.services.inputError(input, c.inputSchema).None? && secret.Err?)
        && (t.calls != [] <==> ReachesAdapter(a, user.value, c, input))
        && (t.calls != [] ==> t.calls == [AdapterCall(c.adapter, id, user.value, input, secret.value)])
        && (t.audit.success <==> ReachesAdapter(a, user.value, c, input) && OutcomeAccepted(a, c))
        && (t.audit.success ==> (
              && t.response == Data(id, a.outcome.data)
              && t.usage.units == if a.outcome.usageUnits < 1 then 1 else a.outcome.usageUnits))
        && (!t.audit.success ==> t.response == ApiError(FailureStatus(a, c, user.value, input),
             FailureCode(a, c, user.value, input)))
  {
    hide Granted, ResolveSecret, UserByExternalId, CapabilityRuns;
    var user := ActiveSelectedUser(a.db, a.workspace, externalId);
    if user.Some? && ActiveCapabilityById(a.db, a.workspace, id).Some? {
      AuthorizedKey(a.db, a.workspace, id);
    }
  }

  /** The user with the external id a request names, in the agent's live workspace. */
  ghost predicate IsNamedUser(a: Arrival, k: Id) {
    && k in a.db.users && a.db.users[k].workspace == a.workspace && a.db.users[k].externalId == a.request.user
    && a.workspace in a.db.workspaces && a.db.workspaces[a.workspace].status.Active?
  }

  /** Both events name that user, active or not, and nobody if there is none; the adapter is only ever called
      for that user, active, and with the input of the request. */
  lemma AttemptIsTheNamedUsers(a: Arrival)
    requires UniqueUsers(a.db) && AttemptOf(a).Some?
    ensures var t := AttemptOf(a).value;
      && t.audit.user == t.usage.user
      && (forall k: Id :: t.audit.user == Some(k) <==> IsNamedUser(a, k))
      && (forall i :: 0 <= i < |t.calls| ==>
            && IsNamedUser(a, t.calls[i].user) && a.db.users[t.calls[i].user].status.Active?
            && t.calls[i].input == a.request.input)
  {
    hide UserByExternalId, UniqueUsers, Lookup, VisibleCapabilities, InvokeById;
    forall k: Id ensures SelectedUser(a.db, a.workspace, a.request.user) == Some(k) <==> IsNamedUser(a, k) {
      SelectedUserIff(a.db, a.workspace, a.request.user, k);
    }
    if a.request.Invoke? {
      InvocationIsTheSelectedUsers(a, a.request.user, a.request.capability, a.request.input);
    } else {
      var user := ActiveSelectedUser(a.db, a.workspace, a.request.user);
      if user.Some? {
        var found :=
          Lookup(VisibleCapabilities(a.db, a.workspace, a.agent, user.value), a.request.tool, a.services.sha);
        if found.Some? && found.value.Some? {
          InvocationIsTheSelectedUsers(a, a.request.user, found.value.value.id, a.request.input);
        }
      }
    }
  }

  lemma InvocationIsTheSelectedUsers(a: Arrival, externalId: string, id: string, input: Json)
    ensures var t := InvokeById(a, externalId, id, input);
      && t.audit.user == t.usage.user == SelectedUser(a.db, a.workspace, externalId)
      && forall i :: 0 <= i < |t.calls| ==>
           && ActiveSelectedUser(a.db, a.workspace, externalId) == Some(t.calls[i].user)
           && t.calls[i].user in a.db.users && a.db.users[t.calls[i].user].status.Active?
           && t.calls[i].input == input
  {
    hide Granted, ActiveCapabilityById, Serve, UserByExternalId;
    var user := ActiveSelectedUser(a.db, a.workspace, externalId);
    if user.Some? && ActiveCapabilityById(a.db, a.workspace, id).Some? {
      ServeIsTheUsers(a, user.value, ActiveCapabilityById(a.db, a.workspace, id).value, input);
    }
  }

  lemma ServeIsTheUsers(a: Arrival, user: Id, capability: Capability, input: Json)
    ensures var t := Serve(a, user, capability, input);
      && t.audit.user == t.usage.user == Some(user)
      && t.usage.application == t.audit.application == Some(capability.application)
      && forall i :: 0 <= i < |t.calls| ==> t.calls[i].user == user && t.calls[i].input == input
  {
    hide ResolveSecret;
  }

  /** The events of an invocation name an application exactly when the user is active and the capability is live
      in the agent's workspace, whether or not the caller may use it; it is the capability's. */
  lemma InvocationNamesItsApplication(a: Arrival, externalId: string, id: string, input: Json)
    ensures var t := InvokeById(a, externalId, id, input);
      && t.usage.application == t.audit.application
      && (t.audit.application.Some? <==>
            ActiveSelectedUser(a.db, a.workspace, externalId).Some? && CapabilityRuns(a.db, a.workspace, id))
      && (t.audit.application.Some? ==> t.audit.application.value == a.db.capabilities[id].application)
  {
    hide Granted, Serve, UserByExternalId;
    var user := ActiveSelectedUser(a.db, a.workspace, externalId);
    if user.Some? && CapabilityRuns(a.db, a.workspace, id) {
      ServeIsTheUsers(a, user.value, a.db.capabilities[id], input);
    }
  }

  /** A tool call that finds its capability is authorized already, so it behaves exactly as an invocation
      of that id and can be denied only for its secret. */
  lemma McpCallIsAnInvocation(a: Arrival, externalId: string, tool: string, input: Json)
    requires KeyedCapabilities(a.db) && ActiveSelectedUser(a.db, a.workspace, externalId).Some?
    ensures var user := ActiveSelectedUser(a.db, a.workspace, externalId).value;
      var found := Lookup(VisibleCapabilities(a.db, a.workspace, a.agent, user), tool, a.services.sha);
      found.Some? && found.value.Some? ==>
        var id := found.value.value.id;
        && CallTool(a, externalId, tool, input) == Some(InvokeById(a, externalId, id, input))
        && Authorize(a.db, a.workspace, a.agent, user, id) == Some(found.value.value)
  {
    hide Granted, VisibleCapabilities, InvokeById, UserByExternalId, Names, Duplicated, Sort, ToolNameMap,
      CapabilityRuns;
    var user := ActiveSelectedUser(a.db, a.workspace, externalId).value;
    var visible := VisibleCapabilities(a.db, a.workspace, a.agent, user);
    var found := Lookup(visible, tool, a.services.sha);
    if found.Some? && found.value.Some? {
      var sorted := Sort(visible, CapabilityId);
      NamesCover(sorted, a.services.sha);
      FirstNamedHasTheName(sorted, ToolNameMap(sorted, a.services.sha).value, tool);
      SortCorrect(visible, CapabilityId);
      SameElements(sorted, visible);
      VisibleIsAuthorized(a.db, a.workspace, a.agent, user, found.value.value);
    }
  }

  lemma VisibleIsAuthorized(db: Db, workspace: Id, agent: Id, user: Id, c: Capability)
    requires KeyedCapabilities(db) && c in VisibleCapabilities(db, workspace, agent, user)
    ensures Authorize(db, workspace, agent, user, c.id) == Some(c)
  {
    hide Granted, ListedCapabilities, BindingRuns, CapabilityRuns;
    KeepGrantedMembers(db, workspace, agent, user, ListedCapabilities(db, workspace, agent, user), c);
    ListedMembers(db, workspace, agent, user, c);
    RunningJoin(db, workspace, agent, user);
    ActiveCapabilityIsLive(db, workspace, c.id);
  }
}
