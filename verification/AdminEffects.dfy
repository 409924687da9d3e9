/** What a committed admin call means for the runtime, and what its audit event tells (src/grantora/api/admin.py,
    src/grantora/db/queries.py, src/grantora/secrets/resolution.py). */
module AdminEffects {
  import opened Prelude
  import opened Tables
  import opened AdminOps
  import opened Constraints
  import opened AdminRuns
  import opened AdminHistory
  import opened Queries
  import opened Invocation

  // ----- Secrets -----

  /** The type a newly issued secret gets. */
  function IssuedType(db: Db, op: AdminOp): string
    requires op.CreateSecret? || op.RotateSecret?
  {
    match op
    case CreateSecret(_, _, _, _, secretType) => secretType
    case RotateSecret(target, newType) =>
      if newType.Some? then newType.value
      else if target in db.secrets then db.secrets[target].secretType
      else ""
  }

  lemma IssuedSecret(store: Store, admin: Admin, op: AdminOp, env: Env)
    requires op.CreateSecret? || op.RotateSecret?
    requires Step(store, admin, op, env).1.Done?
    ensures var after := Step(store, admin, op, env).0.db;
      && env.cipher.Some? && env.nextId in after.secrets
      && after.secrets[env.nextId].cipher == env.cipher.value
      && after.secrets[env.nextId].secretType == IssuedType(store.db, op)
  {
    hide ValidateSecret, Accepts;
  }

  /** A created secret, or the replacement of a rotated one, is what its owner's calls unseal from then on: after
      any further admin calls that leave it live. */
  lemma IssuedSecretIsUnsealed(store: Store, admin: Admin, op: AdminOp, env: Env, calls: seq<Call>,
                               capability: Capability, user: Id, unseal: string -> Option<string>)
    requires Inv(store.db) && (op.CreateSecret? || op.RotateSecret?) && Step(store, admin, op, env).1.Done?
    requires var later := PerformAll(Step(store, admin, op, env).0, calls).db;
      env.nextId in later.secrets ==> OwnedSecret(later, capability, user, later.secrets[env.nextId])
    ensures env.cipher.Some?
    ensures ResolveSecret(PerformAll(Step(store, admin, op, env).0, calls).db, capability, user, unseal) ==
      match unseal(env.cipher.value)
      case None => Err("secret_unavailable")
      case Some(value) => Ok(SecretMaterial(IssuedType(store.db, op), value))
  {
    hide Step, PerformAll, ResolveSecret, OwnedSecret, IssuedType, PrincipalsContinue, RolesContinue, Accepts,
      WellReferenced;
    IssuedSecret(store, admin, op, env);
    PerformKeepsInv(store, Mutate(admin, op, env));
    assert Perform(store, Mutate(admin, op, env)) == Step(store, admin, op, env).0;
    HistoryContinues(Step(store, admin, op, env).0, calls);
    EveryReachableStoreIsSound(Step(store, admin, op, env).0, calls);
    var later := PerformAll(Step(store, admin, op, env).0, calls).db;
    InvGivesSecretIndex(later);
    ResolvedSecretIsTheOwners(later, capability, user, unseal);
  }

  lemma InvGivesSecretIndex(db: Db)
    requires Inv(db)
    ensures UniqueActiveSecrets(db) && UniqueUsers(db) && UniqueActiveBindings(db) && UniqueAgents(db)
  {
  }

  /** Whoever resolved the old secret before a rotation resolves the new value right after it. */
  lemma RotationReachesTheOwner(store: Store, admin: Admin, target: Id, newType: Option<string>, env: Env,
                                capability: Capability, user: Id, unseal: string -> Option<string>)
    requires Inv(store.db) && Step(store, admin, RotateSecret(target, newType), env).1.Done?
    requires target in store.db.secrets && OwnedSecret(store.db, capability, user, store.db.secrets[target])
    ensures env.cipher.Some?
    ensures var after := Step(store, admin, RotateSecret(target, newType), env).0.db;
      ResolveSecret(after, capability, user, unseal) ==
        if unseal(env.cipher.value).None? then Err("secret_unavailable")
        else
          var secretType := if newType.Some? then newType.value else store.db.secrets[target].secretType;
          Ok(SecretMaterial(secretType, unseal(env.cipher.value).value))
  {
    hide Step, ResolveSecret, Accepts, Inv;
    var op := RotateSecret(target, newType);
    RotationReplacesTheSecret(store, admin, target, newType, env);
    OnlySecretsChange(store, admin, op, env);
    assert PerformAll(Step(store, admin, op, env).0, []) == Step(store, admin, op, env).0;
    IssuedSecretIsUnsealed(store, admin, op, env, [], capability, user, unseal);
  }

  lemma OnlySecretsChange(store: Store, admin: Admin, op: AdminOp, env: Env)
    requires IsSecretOp(op)
    ensures var after := Step(store, admin, op, env).0.db; after.(secrets := store.db.secrets) == store.db
  {
    hide StageSecret, Accepts;
    if StageSecret(store.db, admin, op, env).Pass? { StagedSecretsOnly(store.db, admin, op, env); }
  }

  lemma StagedSecretsOnly(db: Db, admin: Admin, op: AdminOp, env: Env)
    requires IsSecretOp(op) && StageSecret(db, admin, op, env).Pass?
    ensures StageSecret(db, admin, op, env).value.db.(secrets := db.secrets) == db
  {
    hide ValidateSecret, RequireSecretIfActivating, RequireAdminWorkspace, SecretEvent;
  }

  /** Revoking a secret leaves its owner without one; making it live again restores every table. */
  lemma RevokedSecretIsNotResolved(store: Store, admin: Admin, target: Id, env: Env,
                                   capability: Capability, user: Id, unseal: string -> Option<string>)
    requires Inv(store.db) && target in store.db.secrets
      && OwnedSecret(store.db, capability, user, store.db.secrets[target])
    requires Step(store, admin, UpdateSecret(target, Revoked), env).1.Done?
    ensures var after := Step(store, admin, UpdateSecret(target, Revoked), env).0;
      && ResolveSecret(after.db, capability, user, unseal) == Err("secret_not_found")
      && (Step(after, admin, UpdateSecret(target, Live), env).1.Done? ==>
            Step(after, admin, UpdateSecret(target, Live), env).0.db == store.db)
  {
    hide ResolveSecret, ValidateSecret, Accepts, WellReferenced;
    var after := Step(store, admin, UpdateSecret(target, Revoked), env).0.db;
    InvGivesSecretIndex(store.db);
    PerformKeepsInv(store, Mutate(admin, UpdateSecret(target, Revoked), env));
    InvGivesSecretIndex(after);
    assert after == store.db.(secrets := store.db.secrets[target := store.db.secrets[target].(status := Revoked)]);
    forall k | k in after.secrets ensures !OwnedSecret(after, capability, user, after.secrets[k]) {
      assert k == target || !store.db.secrets[k].status.Live?
        || !SameSecretKey(store.db.secrets[k], store.db.secrets[target]);
    }
    ResolvedSecretIsTheOwners(after, capability, user, unseal);
  }

  // ----- Users and agents -----

  /** A created user is the one selected by its external id; every other selection is as before. */
  lemma CreatedUserIsSelected(store: Store, admin: Admin, op: AdminOp, env: Env, workspace: Id, externalId: string)
    requires Inv(store.db) && op.CreateUser? && Step(store, admin, op, env).1.Done?
    ensures var after := Step(store, admin, op, env).0.db;
      SelectedUser(after, workspace, externalId) ==
        if (workspace, externalId) == (op.workspace, op.externalId) then Some(env.nextId)
        else SelectedUser(store.db, workspace, externalId)
    ensures ActiveSelectedUser(Step(store, admin, op, env).0.db, op.workspace, op.externalId) ==
      if op.status.Active? then Some(env.nextId) else None
  {
    hide SelectedUser, Accepts, WellReferenced;
    var after := Step(store, admin, op, env).0.db;
    PerformKeepsInv(store, Mutate(admin, op, env));
    InvGivesSecretIndex(store.db);
    InvGivesSecretIndex(after);
    assert LiveWorkspace(after, op.workspace);
    SelectedUserIff(after, op.workspace, op.externalId, env.nextId);
    var earlier, now := SelectedUser(store.db, workspace, externalId), SelectedUser(after, workspace, externalId);
    if earlier.Some? {
      SelectedUserIff(store.db, workspace, externalId, earlier.value);
      SelectedUserIff(after, workspace, externalId, earlier.value);
    }
    if now.Some? {
      SelectedUserIff(store.db, workspace, externalId, now.value);
      SelectedUserIff(after, workspace, externalId, now.value);
    }
  }

  lemma AgentByTokenIff(db: Db, tokenHash: string, k: Id)
    requires UniqueAgents(db)
    ensures AgentByToken(db, tokenHash) == Some(k) <==> (
      && k in db.agents && db.agents[k].tokenHash == tokenHash && db.agents[k].status.Active?
      && db.agents[k].workspace in db.workspaces && db.workspaces[db.agents[k].workspace].status.Active?)
  {
    var found := set j | j in db.agents && db.agents[j].tokenHash == tokenHash && db.agents[j].status.Active?
      && LiveWorkspace(db, db.agents[j].workspace);
    assert First(found) == AgentByToken(db, tokenHash);
    if k in found { assert k == Smallest(found); }
  }

  /** The agent whose token an endpoint sets. */
  function TokenHolder(op: AdminOp, env: Env): Id
    requires op.CreateAgent? || op.RotateAgentToken?
  {
    if op.CreateAgent? then env.nextId else op.target
  }

  /** A new token identifies its agent, while agent and workspace are active; a replaced one identifies nobody;
      all other tokens identify whom they did. */
  lemma NewTokenIdentifiesItsAgent(store: Store, admin: Admin, op: AdminOp, env: Env, tokenHash: string)
    requires Inv(store.db) && (op.CreateAgent? || op.RotateAgentToken?) && Step(store, admin, op, env).1.Done?
    ensures var after, k := Step(store, admin, op, env).0.db, TokenHolder(op, env);
      && k in after.agents
      && AgentByToken(after, tokenHash) ==
        if tokenHash == env.tokenHash then
          if after.agents[k].status.Active? && LiveWorkspace(after, after.agents[k].workspace) then Some(k) else None
        else if AgentByToken(store.db, tokenHash) == Some(k) then None
        else AgentByToken(store.db, tokenHash)
  {
    hide AgentByToken, Accepts, WellReferenced;
    var after := Step(store, admin, op, env).0.db;
    PerformKeepsInv(store, Mutate(admin, op, env));
    InvGivesSecretIndex(store.db);
    InvGivesSecretIndex(after);
    AgentByTokenIff(after, tokenHash, TokenHolder(op, env));
    var earlier, now := AgentByToken(store.db, tokenHash), AgentByToken(after, tokenHash);
    if earlier.Some? {
      AgentByTokenIff(store.db, tokenHash, earlier.value);
      AgentByTokenIff(after, tokenHash, earlier.value);
    }
    if now.Some? {
      AgentByTokenIff(store.db, tokenHash, now.value);
      AgentByTokenIff(after, tokenHash, now.value);
    }
  }

  // ----- Bindings, roles and capabilities -----

  /** An active binding lets its user call the capability through its agent exactly when the application is active
      and the role may call the capability's risk class. */
  lemma CreatedBindingOpensTheGateIff(store: Store, admin: Admin, op: AdminOp, env: Env)
    requires Inv(store.db) && op.CreateBinding? && op.status.Active? && Step(store, admin, op, env).1.Done?
    ensures op.capability in store.db.capabilities
      && store.db.capabilities[op.capability].application in store.db.applications
    ensures Authorize(Step(store, admin, op, env).0.db, op.workspace, op.agent, op.user, op.capability).Some? <==>
      && store.db.applications[store.db.capabilities[op.capability].application].status.Active?
      && MayCall(store.db, op.role, store.db.capabilities[op.capability].risk)
  {
    hide Authorize, Accepts, MayCall, WellReferenced;
    var after := Step(store, admin, op, env).0.db;
    var row := Binding(op.workspace, op.agent, op.user, op.capability, op.role, Active);
    assert after == store.db.(bindings := store.db.bindings[env.nextId := row]);
    PerformKeepsInv(store, Mutate(admin, op, env));
    InvGivesSecretIndex(after);
    CreatedBindingRow(store.db, row);
    KeysAreIds(after);
    AuthorizedIff(after, op.workspace, op.agent, op.user, op.capability);
    MayCallIgnoresBindings(store.db, after, op.role);
    if k :| Authorizes(after, op.workspace, op.agent, op.user, op.capability, k) {
      assert after.bindings[env.nextId] == row && SameBindingKey(after.bindings[k], row);
      assert k == env.nextId;
    }
    if store.db.applications[store.db.capabilities[op.capability].application].status.Active?
      && MayCall(store.db, op.role, store.db.capabilities[op.capability].risk) {
      assert Authorizes(after, op.workspace, op.agent, op.user, op.capability, env.nextId);
    }
  }

  lemma KeysAreIds(db: Db)
    requires Inv(db)
    ensures KeyedCapabilities(db)
  {
    hide Accepts;
  }

  lemma MayCallIgnoresBindings(before: Db, after: Db, role: Id)
    requires before.rolePermissions == after.rolePermissions
    ensures forall risk :: MayCall(before, role, risk) == MayCall(after, role, risk)
  {
  }

  lemma CreatedBindingRow(db: Db, row: Binding)
    requires Inv(db) && ValidateBinding(db, row.workspace, row.agent, row.user, row.capability, row.role).Pass?
    ensures BindingSupported(db, row) && CapabilityOk(db, db.capabilities[row.capability])
  {
    hide Accepts;
  }

  /** A created permission is there to be granted, and nothing else has changed: no role holds it yet. */
  lemma CreatedPermissionIsThere(store: Store, admin: Admin, code: string, env: Env)
    requires Inv(store.db) && Step(store, admin, CreatePermission(code), env).1.Done?
    ensures var after := Step(store, admin, CreatePermission(code), env).0.db;
      && after.permissions == store.db.permissions + {code} && after.(permissions := store.db.permissions) == store.db
      && forall role :: role in after.roles ==> !RoleGrants(after, role, code)
  {
    hide Accepts;
  }

  /** A created role grants exactly the permissions it was given. */
  lemma CreatedRoleGrantsIff(store: Store, admin: Admin, op: AdminOp, env: Env, code: string)
    requires Inv(store.db) && op.CreateRole? && Step(store, admin, op, env).1.Done?
    ensures var after := Step(store, admin, op, env).0.db;
      && env.nextId in after.roles && after.roles[env.nextId].workspace == op.workspace
      && (RoleGrants(after, env.nextId, code) <==> code in op.codes && op.status.Active?)
      && after.permissions == store.db.permissions + {"capability.describe", "capability.invoke.read_only",
           "capability.invoke.side_effect", "capability.invoke.destructive"}
  {
    hide Accepts;
    RoleKeysAreFree(store.db, env.nextId);
  }

  /** A capability made from a template bears the overriding id, name and version where given, and the rest of
      the template; it is a new row of the workspace and application asked for. */
  lemma CreatedFromTemplate(store: Store, admin: Admin, op: AdminOp, env: Env)
    requires op.CreateCapabilityFromTemplate? && Step(store, admin, op, env).1.Done?
    ensures op.template.Some? && op.schemasOk
    ensures var after := Step(store, admin, op, env).0.db;
      var id := if op.newId.Some? then op.newId.value else op.template.value.id;
      && id !in store.db.capabilities && id in after.capabilities
      && var row := after.capabilities[id];
         && row.id == id && row.workspace == op.workspace && row.application == op.application
         && row.name == (if op.newName.Some? then op.newName.value else op.template.value.name)
         && row.version == (if op.newVersion.Some? then op.newVersion.value else op.template.value.version)
         && row.status == op.status
         && row.application in after.applications
         && after.applications[row.application].provider == row.provider == op.template.value.provider
  {
    hide Accepts;
  }

  // ----- What the audit event tells -----

  /** The row under a key was inserted or changed. */
  predicate Changed<K, V(==)>(before: map<K, V>, after: map<K, V>, k: K) {
    k in after && !(k in before && after[k] == before[k])
  }

  /** The rows an endpoint inserts or changes are those its audit event names, in the workspace it names. */
  ghost predicate Tells(before: Db, after: Db, event: AuditEvent) {
    && (forall k: Id :: Changed(before.workspaces, after.workspaces, k) ==> event.workspace == Some(k))
    && (forall k :: Changed(before.applications, after.applications, k) ==>
          event.application == Some(k) && event.workspace == Some(after.applications[k].workspace))
    && (forall k :: Changed(before.users, after.users, k) ==>
          event.user == Some(k) && event.workspace == Some(after.users[k].workspace))
    && (forall k :: Changed(before.agents, after.agents, k) ==>
          event.agent == Some(k) && event.workspace == Some(after.agents[k].workspace))
    && (forall k :: Changed(before.roles, after.roles, k) ==> event.workspace == Some(after.roles[k].workspace))
    && (forall k :: Changed(before.capabilities, after.capabilities, k) ==>
          var row := after.capabilities[k];
          event == AuditEvent(Some(row.workspace), None, None, Some(row.id), Some(row.application)))
    && (forall k :: Changed(before.bindings, after.bindings, k) ==>
          TellsBinding(before.capabilities, after.bindings[k], event))
    && (forall k :: Changed(before.secrets, after.secrets, k) ==> TellsSecret(after.secrets[k], event))
  }

  predicate TellsBinding(capabilities: map<string, Capability>, row: Binding, event: AuditEvent) {
    && event.workspace == Some(row.workspace) && event.agent == Some(row.agent) && event.user == Some(row.user)
    && event.capability == Some(row.capability)
    && (row.capability in capabilities ==> event.application == Some(capabilities[row.capability].application))
  }

  predicate TellsSecret(row: Secret, event: AuditEvent) {
    && event.workspace == Some(row.workspace) && event.application == Some(row.application)
    && event.user == (if row.ownerType.UserOwner? then Some(row.owner) else None)
    && event.agent == (if row.ownerType.AgentOwner? then Some(row.owner) else None)
  }

  lemma PrincipalEventTells(db: Db, admin: Admin, op: AdminOp, env: Env)
    requires op.CreateWorkspace? || op.UpdateWorkspace? || op.CreateUser? || op.UpdateUser?
    requires Stage(db, admin, op, env).Pass?
    ensures Tells(db, Stage(db, admin, op, env).value.db, Stage(db, admin, op, env).value.audit)
  {
    hide StageApplication, StageAgent, StageRole, StageCapability, StageBinding, StageSecret,
      ActiveWorkspace, ActiveApplication, RequireAdminWorkspace, RequireSuperAdmin,
      RequireSameWorkspace, RequireWorkspaceIfActivating, RequireApplicationIfActivating, RequireBindingIfActivating,
      RequireSecretIfActivating, ValidateSecret, ValidateBinding;
  }

  lemma ApplicationEventTells(db: Db, admin: Admin, op: AdminOp, env: Env)
    requires op.CreateApplication? || op.UpdateApplication?
    requires Stage(db, admin, op, env).Pass?
    ensures Tells(db, Stage(db, admin, op, env).value.db, Stage(db, admin, op, env).value.audit)
  {
    hide StageWorkspace, StageUser, StageAgent, StageRole, StageCapability, StageBinding, StageSecret,
      ActiveWorkspace, ActiveApplication, RequireAdminWorkspace, RequireSuperAdmin,
      RequireSameWorkspace, RequireWorkspaceIfActivating, RequireApplicationIfActivating, RequireBindingIfActivating,
      RequireSecretIfActivating, ValidateSecret, ValidateBinding;
  }

  lemma AgentEventTells(db: Db, admin: Admin, op: AdminOp, env: Env)
    requires op.CreateAgent? || op.UpdateAgent? || op.RotateAgentToken?
    requires Stage(db, admin, op, env).Pass?
    ensures Tells(db, Stage(db, admin, op, env).value.db, Stage(db, admin, op, env).value.audit)
  {
    hide StageWorkspace, StageUser, StageApplication, StageRole, StageCapability, StageBinding, StageSecret,
      ActiveWorkspace, ActiveApplication, RequireAdminWorkspace, RequireSuperAdmin,
      RequireSameWorkspace, RequireWorkspaceIfActivating, RequireApplicationIfActivating, RequireBindingIfActivating,
      RequireSecretIfActivating, ValidateSecret, ValidateBinding;
  }

  lemma RoleEventTells(db: Db, admin: Admin, op: AdminOp, env: Env)
    requires op.CreatePermission? || op.CreateRole? || op.UpdateRole?
    requires Stage(db, admin, op, env).Pass?
    ensures Tells(db, Stage(db, admin, op, env).value.db, Stage(db, admin, op, env).value.audit)
  {
    hide StageWorkspace, StageUser, StageApplication, StageAgent, StageCapability, StageBinding, StageSecret,
      ActiveWorkspace, ActiveApplication, RequireAdminWorkspace, RequireSuperAdmin,
      RequireSameWorkspace, RequireWorkspaceIfActivating, RequireApplicationIfActivating, RequireBindingIfActivating,
      RequireSecretIfActivating, ValidateSecret, ValidateBinding;
  }

  lemma PutCapabilityTells(db: Db, row: Capability, event: AuditEvent)
    requires event == AuditEvent(Some(row.workspace), None, None, Some(row.id), Some(row.application))
    ensures Tells(db, db.(capabilities := db.capabilities[row.id := row]), event)
  {
  }

  lemma CapabilityEventTells(db: Db, admin: Admin, op: AdminOp, env: Env)
    requires IsCapabilityOp(op) && CapabilitiesOk(db)
    requires Stage(db, admin, op, env).Pass?
    ensures Tells(db, Stage(db, admin, op, env).value.db, Stage(db, admin, op, env).value.audit)
  {
    hide Tells, ActiveWorkspace, ActiveApplication, RequireAdminWorkspace, RequireSameWorkspace,
      RequireWorkspaceIfActivating, RequireApplicationIfActivating;
    var event := Stage(db, admin, op, env).value.audit;
    match op
    case CreateCapability(row, _, _) => PutCapabilityTells(db, row, event);
    case CreateCapabilityFromTemplate(t, _, w, a, i, n, v, st) =>
      PutCapabilityTells(db, CapabilityOf(t.value, w, a, i, n, v, st), event);
    case UpdateCapability(k, status) => PutCapabilityTells(db, db.capabilities[k].(status := status), event);
  }

  lemma BindingEventTells(db: Db, admin: Admin, op: AdminOp, env: Env)
    requires IsBindingOp(op)
    requires Stage(db, admin, op, env).Pass?
    ensures Tells(db, Stage(db, admin, op, env).value.db, Stage(db, admin, op, env).value.audit)
  {
    hide StageWorkspace, StageUser, StageApplication, StageAgent, StageRole, StageCapability, StageSecret,
      ActiveWorkspace, ActiveApplication, RequireAdminWorkspace, RequireSuperAdmin,
      RequireSameWorkspace, RequireWorkspaceIfActivating, RequireApplicationIfActivating, RequireBindingIfActivating,
      RequireSecretIfActivating, ValidateSecret;
  }

  lemma SecretEventTells(db: Db, admin: Admin, op: AdminOp, env: Env)
    requires IsSecretOp(op)
    requires Stage(db, admin, op, env).Pass?
    ensures Tells(db, Stage(db, admin, op, env).value.db, Stage(db, admin, op, env).value.audit)
  {
    hide StageWorkspace, StageUser, StageApplication, StageAgent, StageRole, StageCapability, StageBinding,
      ActiveWorkspace, ActiveApplication, RequireAdminWorkspace, RequireSuperAdmin,
      RequireSameWorkspace, RequireWorkspaceIfActivating, RequireApplicationIfActivating, RequireBindingIfActivating,
      RequireSecretIfActivating, ValidateSecret, ValidateBinding;
  }

  /** The one audit event of a committed call tells what it changed: each inserted or changed row is named by
      it, or is the binding or secret whose parties it names, and lies in the workspace it names. */
  lemma EventTellsTheChange(store: Store, admin: Admin, op: AdminOp, env: Env)
    requires Inv(store.db) && Step(store, admin, op, env).1.Done?
    ensures var after := Step(store, admin, op, env).0;
      |after.audit| == |store.audit| + 1 && Tells(store.db, after.db, after.audit[|store.audit|])
  {
    hide Stage, Accepts, Tells;
    if IsCapabilityOp(op) { CapabilityEventTells(store.db, admin, op, env); }
    else if IsBindingOp(op) { BindingEventTells(store.db, admin, op, env); }
    else if IsSecretOp(op) { SecretEventTells(store.db, admin, op, env); }
    else if IsRoleOp(op) { RoleEventTells(store.db, admin, op, env); }
    else if op.CreateAgent? || op.UpdateAgent? || op.RotateAgentToken? { AgentEventTells(store.db, admin, op, env); }
    else if op.CreateApplication? || op.UpdateApplication? { ApplicationEventTells(store.db, admin, op, env); }
    else { PrincipalEventTells(store.db, admin, op, env); }
  }
}
