/** The admin endpoints that change tables (src/grantora/api/admin.py): guards and lookups, then one staged
    change, then flush, audit event and commit. */
module AdminOps {
  import opened Prelude
  import opened Json
  import opened Tables

  /** A scoped admin has a workspace; a super admin has none. */
  datatype Admin = Admin(workspace: Option<Id>)

  datatype Error =
    | Forbidden(code: string)
    | NotFound(code: string)
    | Unprocessable(code: string)
    | Conflict(code: string)
    | Unavailable(code: string)

  /** A value, or the API error that ends the request. */
  datatype Check<+T> = Pass(value: T) | Fail(error: Error) {
    predicate IsFailure() { Fail? }
    function PropagateFailure<U>(): Check<U> requires Fail? { Fail(error) }
    function Extract(): T requires Pass? { value }
  }

  datatype AuditEvent = AuditEvent(
    workspace: Option<Id>, agent: Option<Id>, user: Option<Id>, capability: Option<string>, application: Option<Id>)

  /** What the session holds before the flush: the new tables, whether the inserted primary key was
      free, the audit event, and the code of the 409 if a constraint fails. */
  datatype Change = Change(db: Db, keyFree: bool, audit: AuditEvent, conflictCode: string)

  /** Values the endpoints draw from outside: a new UUID, a new token's hash, and the encrypted secret
      (None when encryption is unavailable). */
  datatype Env = Env(nextId: Id, tokenHash: string, cipher: Option<string>)

  datatype Template = Template(
    id: string, name: string, version: int, provider: string, adapter: string, operation: string,
    authMode: AuthMode, risk: RiskClass, inputSchema: Json, outputSchema: Json)

  datatype AdminOp =
    | CreateWorkspace(slug: string, displayName: string, status: Status)
    | UpdateWorkspace(target: Id, status: Status)
    | CreateApplication(workspace: Id, slug: string, displayName: string, provider: string, baseUrl: Option<string>,
      status: Status)
    | UpdateApplication(target: Id, status: Status)
    | CreateUser(workspace: Id, externalId: string, displayName: string, status: Status)
    | UpdateUser(target: Id, status: Status)
    | CreateAgent(workspace: Id, slug: string, displayName: string)
    | UpdateAgent(target: Id, status: Status)
    | RotateAgentToken(target: Id)
    | CreateCapability(row: Capability, definitionOk: bool, rawPassthrough: bool)
    | CreateCapabilityFromTemplate(
        template: Option<Template>, schemasOk: bool, workspace: Id, application: Id,
        newId: Option<string>, newName: Option<string>, newVersion: Option<int>, status: Status)
    | UpdateCapability(capability: string, status: Status)
    | CreatePermission(code: string)
    | CreateRole(workspace: Id, slug: string, displayName: string, codes: seq<string>, status: Status)
    | UpdateRole(target: Id, status: Status)
    | CreateBinding(workspace: Id, agent: Id, user: Id, capability: string, role: Id, status: Status)
    | UpdateBinding(target: Id, status: Status)
    | CreateSecret(workspace: Id, application: Id, ownerType: OwnerType, owner: Id, secretType: string)
    | UpdateSecret(target: Id, secretStatus: SecretStatus)
    | RotateSecret(target: Id, newType: Option<string>)

  const DESCRIBE_PERMISSION := "capability.describe"

  const DEFAULT_PERMISSIONS: set<string> := {
    DESCRIBE_PERMISSION, "capability.invoke.read_only", "capability.invoke.side_effect",
    "capability.invoke.destructive"}

  // ----- Guards -----

  function RequireSuperAdmin(admin: Admin): Check<()> {
    if admin.workspace.None? then Pass(()) else Fail(Forbidden("admin_scope_denied"))
  }

  function RequireAdminWorkspace(admin: Admin, workspace: Id): Check<()> {
    if admin.workspace.None? || admin.workspace.value == workspace then Pass(())
      else Fail(Forbidden("admin_scope_denied"))
  }

  function Require(condition: bool, error: Error): Check<()> {
    if condition then Pass(()) else Fail(error)
  }

  /** session.get or 404 */
  function Fetch<K, V>(table: map<K, V>, key: K, code: string): Check<V> {
    if key in table then Pass(table[key]) else Fail(NotFound(code))
  }

  function ActiveWorkspace(db: Db, id: Id): Check<Workspace> {
    var row :- Fetch(db.workspaces, id, "workspace_not_found");
    if row.status.Active? then Pass(row) else Fail(NotFound("workspace_not_found"))
  }

  function ActiveApplication(db: Db, id: Id): Check<Application> {
    var row :- Fetch(db.applications, id, "application_not_found");
    if row.status.Active? then Pass(row) else Fail(NotFound("application_not_found"))
  }

  function ActiveAgent(db: Db, id: Id): Check<Agent> {
    var row :- Fetch(db.agents, id, "agent_not_found");
    if row.status.Active? then Pass(row) else Fail(NotFound("agent_not_found"))
  }

  function ActiveUser(db: Db, id: Id): Check<User> {
    var row :- Fetch(db.users, id, "user_not_found");
    if row.status.Active? then Pass(row) else Fail(NotFound("user_not_found"))
  }

  function ActiveCapability(db: Db, id: string): Check<Capability> {
    var row :- Fetch(db.capabilities, id, "capability_not_found");
    if row.status.Active? then Pass(row) else Fail(NotFound("capability_not_found"))
  }

  function ActiveRole(db: Db, id: Id): Check<Role> {
    var row :- Fetch(db.roles, id, "role_not_found");
    if row.status.Active? then Pass(row) else Fail(NotFound("role_not_found"))
  }

  function RequireSameWorkspace(actual: Id, expected: Id, code: string): Check<()> {
    Require(actual == expected, Unprocessable(code))
  }

  /** Switching a row on needs its workspace to be active; switching it off needs nothing. */
  function RequireWorkspaceIfActivating(db: Db, status: Status, workspace: Id): Check<()> {
    if status.Disabled? then Pass(())
    else
      var _ :- ActiveWorkspace(db, workspace);
      Pass(())
  }

  /** _validate_binding_can_be_active, also the lookups of create_binding. */
  function ValidateBinding(db: Db, workspace: Id, agent: Id, user: Id, capability: string,
                           role: Id): Check<Capability> {
    var _ :- ActiveWorkspace(db, workspace);
    var agentRow :- ActiveAgent(db, agent);
    var userRow :- ActiveUser(db, user);
    var capabilityRow :- ActiveCapability(db, capability);
    var roleRow :- ActiveRole(db, role);
    var _ :- RequireSameWorkspace(agentRow.workspace, workspace, "agent_workspace_mismatch");
    var _ :- RequireSameWorkspace(userRow.workspace, workspace, "user_workspace_mismatch");
    var _ :- RequireSameWorkspace(capabilityRow.workspace, workspace, "capability_workspace_mismatch");
    var _ :- RequireSameWorkspace(roleRow.workspace, workspace, "role_workspace_mismatch");
    Pass(capabilityRow)
  }

  /** _validate_secret_owner */
  function ValidateSecretOwner(db: Db, workspace: Id, ownerType: OwnerType, owner: Id): Check<()> {
    match ownerType
    case WorkspaceOwner => Require(owner == workspace, Unprocessable("secret_owner_mismatch"))
    case UserOwner =>
      var row :- ActiveUser(db, owner);
      RequireSameWorkspace(row.workspace, workspace, "user_workspace_mismatch")
    case AgentOwner =>
      var row :- ActiveAgent(db, owner);
      RequireSameWorkspace(row.workspace, workspace, "agent_workspace_mismatch")
  }

  /** _validate_secret_can_be_active, also the lookups of create_secret. */
  function ValidateSecret(db: Db, workspace: Id, application: Id, ownerType: OwnerType, owner: Id): Check<()> {
    var _ :- ActiveWorkspace(db, workspace);
    var applicationRow :- ActiveApplication(db, application);
    var _ :- RequireSameWorkspace(applicationRow.workspace, workspace, "application_workspace_mismatch");
    ValidateSecretOwner(db, workspace, ownerType, owner)
  }

  // ----- Audit events -----

  function WorkspaceEvent(workspace: Option<Id>): AuditEvent {
    AuditEvent(workspace, None, None, None, None)
  }

  function SecretEvent(secret: Secret): AuditEvent {
    AuditEvent(
      Some(secret.workspace),
      if secret.ownerType.AgentOwner? then Some(secret.owner) else None,
      if secret.ownerType.UserOwner? then Some(secret.owner) else None,
      None, Some(secret.application))
  }

  // ----- The staged change of each endpoint -----

  function StageWorkspace(db: Db, admin: Admin, op: AdminOp, env: Env): Check<Change>
    requires op.CreateWorkspace? || op.UpdateWorkspace?
  {
    match op
    case CreateWorkspace(slug, displayName, status) =>
      var _ :- RequireSuperAdmin(admin);
      Pass(Change(
        db.(workspaces := db.workspaces[env.nextId := Workspace(slug, displayName, status)]),
        env.nextId !in db.workspaces, WorkspaceEvent(Some(env.nextId)), "workspace_conflict"))
    case UpdateWorkspace(target, status) =>
      var _ :- RequireAdminWorkspace(admin, target);
      var row :- Fetch(db.workspaces, target, "workspace_not_found");
      Pass(Change(
        db.(workspaces := db.workspaces[target := row.(status := status)]),
        true, WorkspaceEvent(Some(target)), "workspace_conflict"))
  }

  function StageApplication(db: Db, admin: Admin, op: AdminOp, env: Env): Check<Change>
    requires op.CreateApplication? || op.UpdateApplication?
  {
    match op
    case CreateApplication(workspace, slug, displayName, provider, baseUrl, status) =>
      var _ :- RequireAdminWorkspace(admin, workspace);
      var _ :- ActiveWorkspace(db, workspace);
      Pass(Change(
        db.(applications :=
          db.applications[env.nextId := Application(workspace, slug, displayName, provider, baseUrl, status)]),
        env.nextId !in db.applications, WorkspaceEvent(Some(workspace)).(application := Some(env.nextId)),
          "application_conflict"))
    case UpdateApplication(target, status) =>
      var row :- Fetch(db.applications, target, "application_not_found");
      var _ :- RequireAdminWorkspace(admin, row.workspace);
      var _ :- RequireWorkspaceIfActivating(db, status, row.workspace);
      Pass(Change(
        db.(applications := db.applications[target := row.(status := status)]),
        true, WorkspaceEvent(Some(row.workspace)).(application := Some(target)), "application_conflict"))
  }

  function StageUser(db: Db, admin: Admin, op: AdminOp, env: Env): Check<Change>
    requires op.CreateUser? || op.UpdateUser?
  {
    match op
    case CreateUser(workspace, externalId, displayName, status) =>
      var _ :- RequireAdminWorkspace(admin, workspace);
      var _ :- ActiveWorkspace(db, workspace);
      Pass(Change(
        db.(users := db.users[env.nextId := User(workspace, externalId, displayName, status)]),
        env.nextId !in db.users, WorkspaceEvent(Some(workspace)).(user := Some(env.nextId)), "user_conflict"))
    case UpdateUser(target, status) =>
      var row :- Fetch(db.users, target, "user_not_found");
      var _ :- RequireAdminWorkspace(admin, row.workspace);
      var _ :- RequireWorkspaceIfActivating(db, status, row.workspace);
      Pass(Change(
        db.(users := db.users[target := row.(status := status)]),
        true, WorkspaceEvent(Some(row.workspace)).(user := Some(target)), "user_conflict"))
  }

  function StageAgent(db: Db, admin: Admin, op: AdminOp, env: Env): Check<Change>
    requires op.CreateAgent? || op.UpdateAgent? || op.RotateAgentToken?
  {
    match op
    case CreateAgent(workspace, slug, displayName) =>
      var _ :- RequireAdminWorkspace(admin, workspace);
      var _ :- ActiveWorkspace(db, workspace);
      Pass(Change(
        db.(agents := db.agents[env.nextId := Agent(workspace, slug, displayName, env.tokenHash, Active)]),
        env.nextId !in db.agents, WorkspaceEvent(Some(workspace)).(agent := Some(env.nextId)), "agent_conflict"))
    case UpdateAgent(target, status) =>
      var row :- Fetch(db.agents, target, "agent_not_found");
      var _ :- RequireAdminWorkspace(admin, row.workspace);
      var _ :- RequireWorkspaceIfActivating(db, status, row.workspace);
      Pass(Change(
        db.(agents := db.agents[target := row.(status := status)]),
        true, WorkspaceEvent(Some(row.workspace)).(agent := Some(target)), "agent_conflict"))
    case RotateAgentToken(target) =>
      var row :- Fetch(db.agents, target, "agent_not_found");
      var _ :- RequireAdminWorkspace(admin, row.workspace);
      Pass(Change(
        db.(agents := db.agents[target := row.(tokenHash := env.tokenHash)]),
        true, WorkspaceEvent(Some(row.workspace)).(agent := Some(target)), "agent_conflict"))
  }

  /** The insert shared by create_capability and create_capability_from_template. */
  function InsertCapability(db: Db, row: Capability): Change {
    Change(
      db.(capabilities := db.capabilities[row.id := row]),
      row.id !in db.capabilities,
      AuditEvent(Some(row.workspace), None, None, Some(row.id), Some(row.application)), "capability_conflict")
  }

  function CapabilityOf(template: Template, workspace: Id, application: Id, newId: Option<string>,
                        newName: Option<string>, newVersion: Option<int>, status: Status): Capability {
    Capability(
      if newId.Some? then newId.value else template.id, workspace, application,
      if newName.Some? then newName.value else template.name,
      if newVersion.Some? then newVersion.value else template.version,
      template.provider, template.adapter, template.operation, template.authMode, template.risk,
      template.inputSchema, template.outputSchema, status)
  }

  function StageCapability(db: Db, admin: Admin, op: AdminOp): Check<Change>
    requires op.CreateCapability? || op.CreateCapabilityFromTemplate? || op.UpdateCapability?
  {
    match op
    case CreateCapability(row, definitionOk, rawPassthrough) =>
      var _ :- RequireAdminWorkspace(admin, row.workspace);
      var _ :- ActiveWorkspace(db, row.workspace);
      var application :- ActiveApplication(db, row.application);
      var _ :- RequireSameWorkspace(application.workspace, row.workspace, "application_workspace_mismatch");
      var _ :- Require(application.provider == row.provider, Unprocessable("application_provider_mismatch"));
      var _ :- Require(definitionOk, Unprocessable("capability_definition_invalid"));
      var _ :- Require(!rawPassthrough, Unprocessable("raw_passthrough_unavailable"));
      Pass(InsertCapability(db, row))
    case CreateCapabilityFromTemplate(template, schemasOk, workspace, application, newId, newName, newVersion,
      status) =>
      var _ :- RequireAdminWorkspace(admin, workspace);
      var _ :- Require(template.Some?, NotFound("capability_template_not_found"));
      var _ :- ActiveWorkspace(db, workspace);
      var applicationRow :- ActiveApplication(db, application);
      var _ :- RequireSameWorkspace(applicationRow.workspace, workspace, "application_workspace_mismatch");
      var _ :- Require(applicationRow.provider == template.value.provider,
        Unprocessable("application_provider_mismatch"));
      var _ :- Require(schemasOk, Unprocessable("capability_schema_invalid"));
      Pass(InsertCapability(db,
        CapabilityOf(template.value, workspace, application, newId, newName, newVersion, status)))
    case UpdateCapability(capability, status) =>
      var row :- Fetch(db.capabilities, capability, "capability_not_found");
      var _ :- RequireAdminWorkspace(admin, row.workspace);
      var _ :- RequireWorkspaceIfActivating(db, status, row.workspace);
      var _ :- RequireApplicationIfActivating(db, status, row);
      Pass(Change(
        db.(capabilities := db.capabilities[capability := row.(status := status)]),
        true, AuditEvent(Some(row.workspace), None, None, Some(capability), Some(row.application)),
          "capability_conflict"))
  }

  function RequireApplicationIfActivating(db: Db, status: Status, row: Capability): Check<()> {
    if status.Disabled? then Pass(())
    else
      var application :- ActiveApplication(db, row.application);
      RequireSameWorkspace(application.workspace, row.workspace, "application_workspace_mismatch")
  }

  /** create_role also commits any default permission that was still missing. */
  function StageRole(db: Db, admin: Admin, op: AdminOp, env: Env): Check<Change>
    requires op.CreatePermission? || op.CreateRole? || op.UpdateRole?
  {
    match op
    case CreatePermission(code) =>
      var _ :- RequireSuperAdmin(admin);
      Pass(Change(db.(permissions := db.permissions + {code}), code !in db.permissions, WorkspaceEvent(None),
        "permission_conflict"))
    case CreateRole(workspace, slug, displayName, codes, status) =>
      var _ :- RequireAdminWorkspace(admin, workspace);
      var _ :- ActiveWorkspace(db, workspace);
      var permissions := db.permissions + DEFAULT_PERMISSIONS;
      var _ :- Require(Elems(codes) <= permissions, Unprocessable("permission_unknown"));
      Pass(Change(
        db.(permissions := permissions,
            roles := db.roles[env.nextId := Role(workspace, slug, displayName, status)],
            rolePermissions := db.rolePermissions + set code | code in codes :: (env.nextId, code)),
        env.nextId !in db.roles, WorkspaceEvent(Some(workspace)), "role_conflict"))
    case UpdateRole(target, status) =>
      var row :- Fetch(db.roles, target, "role_not_found");
      var _ :- RequireAdminWorkspace(admin, row.workspace);
      var _ :- RequireWorkspaceIfActivating(db, status, row.workspace);
      Pass(Change(
        db.(roles := db.roles[target := row.(status := status)]),
        true, WorkspaceEvent(Some(row.workspace)), "role_conflict"))
  }

  function BindingEvent(row: Binding, application: Option<Id>): AuditEvent {
    AuditEvent(Some(row.workspace), Some(row.agent), Some(row.user), Some(row.capability), application)
  }

  function StageBinding(db: Db, admin: Admin, op: AdminOp, env: Env): Check<Change>
    requires op.CreateBinding? || op.UpdateBinding?
  {
    match op
    case CreateBinding(workspace, agent, user, capability, role, status) =>
      var _ :- RequireAdminWorkspace(admin, workspace);
      var capabilityRow :- ValidateBinding(db, workspace, agent, user, capability, role);
      var row := Binding(workspace, agent, user, capability, role, status);
      Pass(Change(
        db.(bindings := db.bindings[env.nextId := row]),
        env.nextId !in db.bindings, BindingEvent(row, Some(capabilityRow.application)), "binding_conflict"))
    case UpdateBinding(target, status) =>
      var row :- Fetch(db.bindings, target, "binding_not_found");
      var _ :- RequireAdminWorkspace(admin, row.workspace);
      var _ :- RequireBindingIfActivating(db, status, row);
      Pass(Change(
        db.(bindings := db.bindings[target := row.(status := status)]),
        true,
        BindingEvent(row, if row.capability in db.capabilities then Some(db.capabilities[row.capability].application)
          else None),
        "binding_conflict"))
  }

  function RequireBindingIfActivating(db: Db, status: Status, row: Binding): Check<()> {
    if status.Disabled? then Pass(())
    else
      var _ :- ValidateBinding(db, row.workspace, row.agent, row.user, row.capability, row.role);
      Pass(())
  }

  function StageSecret(db: Db, admin: Admin, op: AdminOp, env: Env): Check<Change>
    requires op.CreateSecret? || op.UpdateSecret? || op.RotateSecret?
  {
    match op
    case CreateSecret(workspace, application, ownerType, owner, secretType) =>
      var _ :- RequireAdminWorkspace(admin, workspace);
      var _ :- ValidateSecret(db, workspace, application, ownerType, owner);
      var _ :- Require(env.cipher.Some?, Unavailable("secret_encryption_unavailable"));
      var row := Secret(workspace, application, ownerType, owner, secretType, env.cipher.value, Live);
      Pass(Change(
        db.(secrets := db.secrets[env.nextId := row]),
        env.nextId !in db.secrets, SecretEvent(row), "secret_conflict"))
    case UpdateSecret(target, status) =>
      var row :- Fetch(db.secrets, target, "secret_not_found");
      var _ :- RequireAdminWorkspace(admin, row.workspace);
      var _ :- RequireSecretIfActivating(db, status, row);
      Pass(Change(
        db.(secrets := db.secrets[target := row.(status := status)]),
        true, SecretEvent(row), "secret_conflict"))
    case RotateSecret(target, newType) =>
      var row :- Fetch(db.secrets, target, "secret_not_found");
      var _ :- Require(row.status.Live?, NotFound("secret_not_found"));
      var _ :- RequireAdminWorkspace(admin, row.workspace);
      var _ :- ValidateSecret(db, row.workspace, row.application, row.ownerType, row.owner);
      var _ :- Require(env.cipher.Some?, Unavailable("secret_encryption_unavailable"));
      var revoked := row.(status := Revoked);
      var replacement :=
        row.(secretType := if newType.Some? then newType.value else row.secretType, cipher := env.cipher.value);
      Pass(Change(
        db.(secrets := db.secrets[target := revoked][env.nextId := replacement]),
        env.nextId !in db.secrets, SecretEvent(replacement), "secret_conflict"))
  }

  function RequireSecretIfActivating(db: Db, status: SecretStatus, row: Secret): Check<()> {
    if status.Revoked? then Pass(()) else ValidateSecret(db, row.workspace, row.application, row.ownerType, row.owner)
  }

  function Stage(db: Db, admin: Admin, op: AdminOp, env: Env): Check<Change> {
    match op
    case CreateWorkspace(_, _, _) => StageWorkspace(db, admin, op, env)
    case UpdateWorkspace(_, _) => StageWorkspace(db, admin, op, env)
    case CreateApplication(_, _, _, _, _, _) => StageApplication(db, admin, op, env)
    case UpdateApplication(_, _) => StageApplication(db, admin, op, env)
    case CreateUser(_, _, _, _) => StageUser(db, admin, op, env)
    case UpdateUser(_, _) => StageUser(db, admin, op, env)
    case CreateAgent(_, _, _) => StageAgent(db, admin, op, env)
    case UpdateAgent(_, _) => StageAgent(db, admin, op, env)
    case RotateAgentToken(_) => StageAgent(db, admin, op, env)
    case CreateCapability(_, _, _) => StageCapability(db, admin, op)
    case CreateCapabilityFromTemplate(_, _, _, _, _, _, _, _) => StageCapability(db, admin, op)
    case UpdateCapability(_, _) => StageCapability(db, admin, op)
    case CreatePermission(_) => StageRole(db, admin, op, env)
    case CreateRole(_, _, _, _, _) => StageRole(db, admin, op, env)
    case UpdateRole(_, _) => StageRole(db, admin, op, env)
    case CreateBinding(_, _, _, _, _, _) => StageBinding(db, admin, op, env)
    case UpdateBinding(_, _) => StageBinding(db, admin, op, env)
    case CreateSecret(_, _, _, _, _) => StageSecret(db, admin, op, env)
    case UpdateSecret(_, _) => StageSecret(db, admin, op, env)
    case RotateSecret(_, _) => StageSecret(db, admin, op, env)
  }
}
