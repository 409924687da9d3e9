/** When an admin call succeeds (src/grantora/api/admin.py). */
module AdminOutcomes {
  import opened Prelude
  import opened Tables
  import opened AdminOps
  import opened Constraints
  import opened AdminRuns

  // ----- Switching rows on and off -----

  /** The workspace of the row an update addresses, if the row is there. */
  function TargetWorkspace(db: Db, op: AdminOp): Option<Id>
    requires IsStatusUpdate(op)
  {
    match op
    case UpdateWorkspace(k, _) => if k in db.workspaces then Some(k) else None
    case UpdateApplication(k, _) => if k in db.applications then Some(db.applications[k].workspace) else None
    case UpdateUser(k, _) => if k in db.users then Some(db.users[k].workspace) else None
    case UpdateAgent(k, _) => if k in db.agents then Some(db.agents[k].workspace) else None
    case UpdateCapability(k, _) => if k in db.capabilities then Some(db.capabilities[k].workspace) else None
    case UpdateRole(k, _) => if k in db.roles then Some(db.roles[k].workspace) else None
    case UpdateBinding(k, _) => if k in db.bindings then Some(db.bindings[k].workspace) else None
  }

  /** What must be active for a row to be switched on, and for a binding that no other is active for its key. */
  predicate CanActivate(db: Db, op: AdminOp)
    requires IsStatusUpdate(op) && TargetWorkspace(db, op).Some?
  {
    match op
    case UpdateWorkspace(k, _) => true
    case UpdateCapability(k, _) => CapabilitySupported(db, db.capabilities[k])
    case UpdateBinding(k, _) =>
      && BindingSupported(db, db.bindings[k])
      && forall other :: other in db.bindings && other != k && db.bindings[other].status.Active? ==>
           !SameBindingKey(db.bindings[other], db.bindings[k])
    case _ =>
      var home := TargetWorkspace(db, op).value; home in db.workspaces && db.workspaces[home].status.Active?
  }

  /** A status update succeeds exactly when the row is there, the admin's scope covers its workspace, and the row
      is switched off or has what it needs to be on. */
  lemma StatusUpdateSucceedsIff(store: Store, admin: Admin, op: AdminOp, status: Status, env: Env)
    requires Inv(store.db) && IsStatusUpdate(op)
    ensures var home := TargetWorkspace(store.db, op);
      Step(store, admin, WithStatus(op, status), env).1.Done? <==> (
        && home.Some? && (admin.workspace.None? || admin.workspace == home)
        && (status.Disabled? || CanActivate(store.db, op)))
  {
    hide Accepts, Inv, BindingSupported, CapabilitySupported, WellReferenced, Stage;
    var update := WithStatus(op, status);
    if op.UpdateCapability? {
      CapabilityUpdatePasses(store.db, admin, op.capability, status, env);
    } else if op.UpdateBinding? {
      BindingUpdatePasses(store.db, admin, op.target, status, env);
    } else {
      PrincipalUpdatePasses(store.db, admin, update, env);
    }
    assert Accepts(store.db) by { SoundMeetsConstraints(store.db); }
    if Stage(store.db, admin, update, env).Pass? {
      UpdateAcceptedIff(store.db, admin, update, env);
    }
  }

  predicate InScope(admin: Admin, home: Option<Id>) {
    home.Some? && (admin.workspace.None? || admin.workspace == home)
  }

  lemma PrincipalUpdatePasses(db: Db, admin: Admin, op: AdminOp, env: Env)
    requires IsStatusUpdate(op) && !op.UpdateCapability? && !op.UpdateBinding?
    ensures var home := TargetWorkspace(db, op);
      Stage(db, admin, op, env).Pass? <==> InScope(admin, home) && (op.status.Disabled? || CanActivate(db, op))
  {
  }

  lemma CapabilityUpdatePasses(db: Db, admin: Admin, k: string, status: Status, env: Env)
    requires Inv(db)
    ensures var op := UpdateCapability(k, status);
      Stage(db, admin, op, env).Pass? <==>
        InScope(admin, TargetWorkspace(db, op)) && (status.Disabled? || CanActivate(db, op))
  {
    hide Accepts, BindingsOk, SecretsOk, RolePermissionsOk;
  }

  lemma BindingUpdatePasses(db: Db, admin: Admin, k: Id, status: Status, env: Env)
    requires Inv(db)
    ensures var op := UpdateBinding(k, status);
      Stage(db, admin, op, env).Pass? <==>
        && InScope(admin, TargetWorkspace(db, op))
        && (status.Disabled? || BindingSupported(db, db.bindings[k]))
  {
    hide Accepts, SecretsOk, RolePermissionsOk, ValidateBinding, BindingSupported;
    if k in db.bindings { BindingValidIff(db, db.bindings[k]); }
  }

  lemma BindingValidIff(db: Db, row: Binding)
    requires Inv(db)
    ensures ValidateBinding(db, row.workspace, row.agent, row.user, row.capability, row.role).Pass?
      <==> BindingSupported(db, row)
  {
    hide Accepts;
  }

  lemma SoundMeetsConstraints(db: Db)
    ensures Inv(db) ==> Accepts(db)
  {
  }

  /** Status changes meet the constraints, except that a binding may clash with an active one. */
  lemma UpdateAcceptedIff(db: Db, admin: Admin, op: AdminOp, env: Env)
    requires Accepts(db) && IsStatusUpdate(op) && Stage(db, admin, op, env).Pass?
    ensures Stage(db, admin, op, env).value.keyFree
    ensures Accepts(Stage(db, admin, op, env).value.db) <==> (op.UpdateBinding? && op.status.Active? ==>
      forall other :: other in db.bindings && other != op.target && db.bindings[other].status.Active? ==>
        !SameBindingKey(db.bindings[other], db.bindings[op.target]))
  {
    hide StageWorkspace, StageApplication, StageUser, StageAgent, StageRole, StageCapability, StageBinding, Accepts;
    if op.UpdateCapability? {
      CapabilityUpdateAccepted(db, admin, op);
    } else if op.UpdateBinding? {
      BindingUpdateAcceptedIff(db, admin, op, env);
    } else if op.UpdateWorkspace? || op.UpdateApplication? {
      HomeUpdateAccepted(db, admin, op, env);
    } else if op.UpdateUser? {
      UserUpdateAccepted(db, admin, op, env);
    } else if op.UpdateAgent? {
      AgentUpdateAccepted(db, admin, op, env);
    } else {
      RoleUpdateAccepted(db, admin, op, env);
    }
  }

  lemma HomeUpdateAccepted(db: Db, admin: Admin, op: AdminOp, env: Env)
    requires Accepts(db) && (op.UpdateWorkspace? || op.UpdateApplication?) && Stage(db, admin, op, env).Pass?
    ensures Stage(db, admin, op, env).value.keyFree && Accepts(Stage(db, admin, op, env).value.db)
  {
    hide RequireWorkspaceIfActivating, StageUser, StageAgent, StageRole, StageCapability, StageBinding, StageSecret;
  }

  lemma UserUpdateAccepted(db: Db, admin: Admin, op: AdminOp, env: Env)
    requires Accepts(db) && op.UpdateUser? && Stage(db, admin, op, env).Pass?
    ensures Stage(db, admin, op, env).value.keyFree && Accepts(Stage(db, admin, op, env).value.db)
  {
    hide RequireWorkspaceIfActivating, RequireAdminWorkspace;
  }

  lemma AgentUpdateAccepted(db: Db, admin: Admin, op: AdminOp, env: Env)
    requires Accepts(db) && op.UpdateAgent? && Stage(db, admin, op, env).Pass?
    ensures Stage(db, admin, op, env).value.keyFree && Accepts(Stage(db, admin, op, env).value.db)
  {
    hide RequireWorkspaceIfActivating, RequireAdminWorkspace;
  }

  lemma RoleUpdateAccepted(db: Db, admin: Admin, op: AdminOp, env: Env)
    requires Accepts(db) && op.UpdateRole? && Stage(db, admin, op, env).Pass?
    ensures Stage(db, admin, op, env).value.keyFree && Accepts(Stage(db, admin, op, env).value.db)
  {
    hide RequireWorkspaceIfActivating, RequireAdminWorkspace;
  }

  lemma CapabilityUpdateAccepted(db: Db, admin: Admin, op: AdminOp)
    requires Accepts(db) && op.UpdateCapability? && StageCapability(db, admin, op).Pass?
    ensures StageCapability(db, admin, op).value.keyFree && Accepts(StageCapability(db, admin, op).value.db)
  {
    hide RequireWorkspaceIfActivating, RequireApplicationIfActivating;
  }

  lemma BindingUpdateAcceptedIff(db: Db, admin: Admin, op: AdminOp, env: Env)
    requires Accepts(db) && op.UpdateBinding? && StageBinding(db, admin, op, env).Pass?
    ensures StageBinding(db, admin, op, env).value.keyFree
    ensures Accepts(StageBinding(db, admin, op, env).value.db) <==> (op.status.Active? ==>
      forall other :: other in db.bindings && other != op.target && db.bindings[other].status.Active? ==>
        !SameBindingKey(db.bindings[other], db.bindings[op.target]))
  {
    hide RequireBindingIfActivating;
    var after := StageBinding(db, admin, op, env).value.db;
    if op.status.Active? && Accepts(after) {
      forall other | other in db.bindings && other != op.target && db.bindings[other].status.Active?
        ensures !SameBindingKey(db.bindings[other], db.bindings[op.target])
      {
        assert after.bindings[other] == db.bindings[other] && after.bindings[op.target].status.Active?;
        assert !SameBindingKey(after.bindings[other], after.bindings[op.target]);
      }
    }
  }

  /** Why an update is refused: a foreign row by the scope, a missing one as not found, and so is a row
      whose surroundings are disabled; a second active binding is a conflict. */
  lemma UpdateRefusals(store: Store, admin: Admin, op: AdminOp, status: Status, env: Env)
    requires Inv(store.db) && IsStatusUpdate(op)
    ensures var home := TargetWorkspace(store.db, op);
      var reply := Step(store, admin, WithStatus(op, status), env).1;
      && (home.Some? && !InScope(admin, home) ==> reply == Refused(Forbidden("admin_scope_denied")))
      && (home.None? && (admin.workspace.None? || !op.UpdateWorkspace?) ==>
            reply.Refused? && reply.error.NotFound?)
      && (InScope(admin, home) && status.Active? && !op.UpdateBinding? && !CanActivate(store.db, op) ==>
            reply.Refused? && reply.error.NotFound?)
      && (op.UpdateBinding? && InScope(admin, home) && status.Active?
            && BindingSupported(store.db, store.db.bindings[op.target]) && !CanActivate(store.db, op) ==>
            reply == Refused(Conflict("binding_conflict")))
  {
    hide Accepts, BindingsOk, SecretsOk, RolePermissionsOk, BindingSupported, ValidateBinding;
    StatusUpdateSucceedsIff(store, admin, op, status, env);
    if op.UpdateBinding? && op.target in store.db.bindings {
      BindingValidIff(store.db, store.db.bindings[op.target]);
    }
  }

  // ----- Creating rows -----

  predicate IsCreation(op: AdminOp) {
    op.CreateWorkspace? || op.CreateApplication? || op.CreateUser? || op.CreateAgent? || op.CreateRole?
      || op.CreatePermission? || op.CreateCapability? || op.CreateCapabilityFromTemplate? || op.CreateBinding?
      || op.CreateSecret?
  }

  predicate CoversActive(db: Db, admin: Admin, workspace: Id) {
    && (admin.workspace.None? || admin.workspace == Some(workspace))
    && workspace in db.workspaces && db.workspaces[workspace].status.Active?
  }

  /** What a creation needs: the scope, active rows around the new one, a checked definition, a free id and a
      free name. */
  ghost predicate CanCreate(db: Db, admin: Admin, op: AdminOp, env: Env)
    requires IsCreation(op)
  {
    match op
    case CreateWorkspace(slug, _, _) =>
      && admin.workspace.None? && env.nextId !in db.workspaces
      && forall k :: k in db.workspaces ==> db.workspaces[k].slug != slug
    case CreateApplication(home, slug, _, _, _, _) =>
      && CoversActive(db, admin, home) && env.nextId !in db.applications
      && forall k :: k in db.applications && db.applications[k].workspace == home ==> db.applications[k].slug != slug
    case CreateUser(home, externalId, _, _) =>
      && CoversActive(db, admin, home) && env.nextId !in db.users
      && forall k :: k in db.users && db.users[k].workspace == home ==> db.users[k].externalId != externalId
    case CreateAgent(home, slug, _) =>
      && CoversActive(db, admin, home) && env.nextId !in db.agents
      && (forall k :: k in db.agents && db.agents[k].workspace == home ==> db.agents[k].slug != slug)
      && (forall k :: k in db.agents ==> db.agents[k].tokenHash != env.tokenHash)
    case CreateRole(home, slug, _, codes, _) =>
      && CoversActive(db, admin, home) && env.nextId !in db.roles
      && (forall k :: k in db.roles && db.roles[k].workspace == home ==> db.roles[k].slug != slug)
      && (forall code :: code in codes ==> code in db.permissions || IsDefault(code))
    case CreatePermission(code) => admin.workspace.None? && code !in db.permissions
    case CreateCapability(row, definitionOk, rawPassthrough) =>
      && CoversActive(db, admin, row.workspace) && CapabilitySupported(db, row)
      && definitionOk && !rawPassthrough && row.id !in db.capabilities
    case CreateCapabilityFromTemplate(template, schemasOk, home, application, newId, _, _, _) =>
      && CoversActive(db, admin, home) && template.Some? && schemasOk
      && application in db.applications && db.applications[application].status.Active?
      && db.applications[application].workspace == home
      && db.applications[application].provider == template.value.provider
      && (if newId.Some? then newId.value else template.value.id) !in db.capabilities
    case CreateBinding(home, agent, user, capability, role, status) =>
      && CoversActive(db, admin, home) && env.nextId !in db.bindings
      && var row := Binding(home, agent, user, capability, role, status);
         && BindingSupported(db, row)
         && (status.Active? ==> forall k :: k in db.bindings && db.bindings[k].status.Active? ==>
              !SameBindingKey(db.bindings[k], row))
    case CreateSecret(home, application, ownerType, owner, secretType) =>
      && CoversActive(db, admin, home) && env.nextId !in db.secrets && env.cipher.Some?
      && var row := Secret(home, application, ownerType, owner, secretType, env.cipher.value, Live);
         && SecretSupported(db, row)
         && forall k :: k in db.secrets && db.secrets[k].status.Live? ==> !SameSecretKey(db.secrets[k], row)
  }

  predicate IsDefault(code: string) {
    code in {"capability.describe", "capability.invoke.read_only", "capability.invoke.side_effect",
      "capability.invoke.destructive"}
  }

  lemma WorkspaceCreatedIff(store: Store, admin: Admin, op: AdminOp, env: Env)
    requires Inv(store.db) && op.CreateWorkspace?
    ensures Step(store, admin, op, env).1.Done? <==> CanCreate(store.db, admin, op, env)
  {
    hide WellReferenced;
    var staged := Stage(store.db, admin, op, env);
    if staged.Pass? && staged.value.keyFree && Accepts(staged.value.db) {
      var after := staged.value.db;
      assert env.nextId in after.workspaces;
      assert forall k :: k in store.db.workspaces ==>
        k in after.workspaces && after.workspaces[k] == store.db.workspaces[k];
    }
  }

  lemma ApplicationCreatedIff(store: Store, admin: Admin, op: AdminOp, env: Env)
    requires Inv(store.db) && op.CreateApplication?
    ensures Step(store, admin, op, env).1.Done? <==> CanCreate(store.db, admin, op, env)
  {
    hide WellReferenced;
    var staged := Stage(store.db, admin, op, env);
    if staged.Pass? && staged.value.keyFree && Accepts(staged.value.db) {
      var after := staged.value.db;
      assert env.nextId in after.applications;
      assert forall k :: k in store.db.applications ==>
        k in after.applications && after.applications[k] == store.db.applications[k];
    }
  }

  lemma UserCreatedIff(store: Store, admin: Admin, op: AdminOp, env: Env)
    requires Inv(store.db) && op.CreateUser?
    ensures Step(store, admin, op, env).1.Done? <==> CanCreate(store.db, admin, op, env)
  {
    hide WellReferenced;
    var staged := Stage(store.db, admin, op, env);
    if staged.Pass? && staged.value.keyFree && Accepts(staged.value.db) {
      var after := staged.value.db;
      assert env.nextId in after.users;
      assert forall k :: k in store.db.users ==> k in after.users && after.users[k] == store.db.users[k];
    }
  }

  lemma AgentCreatedIff(store: Store, admin: Admin, op: AdminOp, env: Env)
    requires Inv(store.db) && op.CreateAgent?
    ensures Step(store, admin, op, env).1.Done? <==> CanCreate(store.db, admin, op, env)
  {
    hide WellReferenced;
    var staged := Stage(store.db, admin, op, env);
    if staged.Pass? && staged.value.keyFree && Accepts(staged.value.db) {
      var after := staged.value.db;
      assert env.nextId in after.agents;
      assert forall k :: k in store.db.agents ==> k in after.agents && after.agents[k] == store.db.agents[k];
    }
  }

  lemma RoleCreatedIff(store: Store, admin: Admin, op: AdminOp, env: Env)
    requires Inv(store.db) && (op.CreateRole? || op.CreatePermission?)
    ensures Step(store, admin, op, env).1.Done? <==> CanCreate(store.db, admin, op, env)
  {
    hide WellReferenced;
    var staged := Stage(store.db, admin, op, env);
    if staged.Pass? && staged.value.keyFree && Accepts(staged.value.db) {
      var after := staged.value.db;
      if op.CreateRole? {
        assert env.nextId in after.roles && after.roles[env.nextId].slug == op.slug;
        assert forall code :: code in op.codes ==> code in Elems(op.codes);
      }
      assert forall k :: k in store.db.roles ==> k in after.roles && after.roles[k] == store.db.roles[k];
    }
  }

  lemma CapabilityCreatedIff(store: Store, admin: Admin, op: AdminOp, env: Env)
    requires Inv(store.db) && (op.CreateCapability? || op.CreateCapabilityFromTemplate?)
    ensures Step(store, admin, op, env).1.Done? <==> CanCreate(store.db, admin, op, env)
  {
    hide WellReferenced;
  }

  lemma BindingCreatedIff(store: Store, admin: Admin, op: AdminOp, env: Env)
    requires Inv(store.db) && op.CreateBinding?
    ensures Step(store, admin, op, env).1.Done? <==> CanCreate(store.db, admin, op, env)
  {
    hide WellReferenced, ValidateBinding;
    var row := Binding(op.workspace, op.agent, op.user, op.capability, op.role, op.status);
    BindingValidIff(store.db, row);
    var staged := Stage(store.db, admin, op, env);
    if staged.Pass? && staged.value.keyFree && Accepts(staged.value.db) {
      var after := staged.value.db;
      assert after.bindings[env.nextId] == row;
      assert forall k :: k in store.db.bindings ==> k in after.bindings && after.bindings[k] == store.db.bindings[k];
    }
  }

  lemma SecretCreatedIff(store: Store, admin: Admin, op: AdminOp, env: Env)
    requires Inv(store.db) && op.CreateSecret?
    ensures Step(store, admin, op, env).1.Done? <==> CanCreate(store.db, admin, op, env)
  {
    hide WellReferenced, ValidateSecret;
    if env.cipher.Some? {
      var row :=
        Secret(op.workspace, op.application, op.ownerType, op.owner, op.secretType, env.cipher.value, Live);
      SecretValidIff(store.db, row);
    }
    var staged := Stage(store.db, admin, op, env);
    if staged.Pass? && staged.value.keyFree && Accepts(staged.value.db) {
      var after := staged.value.db;
      assert after.secrets[env.nextId].status.Live?;
      assert forall k :: k in store.db.secrets ==> k in after.secrets && after.secrets[k] == store.db.secrets[k];
    }
  }

  lemma SecretValidIff(db: Db, row: Secret)
    requires Inv(db)
    ensures ValidateSecret(db, row.workspace, row.application, row.ownerType, row.owner).Pass?
      <==> SecretSupported(db, row)
  {
    hide Accepts;
  }

  /** A creation succeeds exactly when it can. */
  lemma CreationSucceedsIff(store: Store, admin: Admin, op: AdminOp, env: Env)
    requires Inv(store.db) && IsCreation(op)
    ensures Step(store, admin, op, env).1.Done? <==> CanCreate(store.db, admin, op, env)
  {
    hide Step, CanCreate, Inv;
    match op
    case CreateWorkspace(_, _, _) => WorkspaceCreatedIff(store, admin, op, env);
    case CreateApplication(_, _, _, _, _, _) => ApplicationCreatedIff(store, admin, op, env);
    case CreateUser(_, _, _, _) => UserCreatedIff(store, admin, op, env);
    case CreateAgent(_, _, _) => AgentCreatedIff(store, admin, op, env);
    case CreateBinding(_, _, _, _, _, _) => BindingCreatedIff(store, admin, op, env);
    case CreateSecret(_, _, _, _, _) => SecretCreatedIff(store, admin, op, env);
    case CreateRole(_, _, _, _, _) => RoleCreatedIff(store, admin, op, env);
    case CreatePermission(_) => RoleCreatedIff(store, admin, op, env);
    case _ => CapabilityCreatedIff(store, admin, op, env);
  }

  // ----- Secrets and tokens -----

  /** Another live secret stands in the way. */
  predicate Shadowed(db: Db, k: Id, row: Secret) {
    exists other :: other in db.secrets && other != k && db.secrets[other].status.Live?
      && SameSecretKey(db.secrets[other], row)
  }

  /** A secret can always be revoked within scope, and made live while its surroundings are active and no other
      is live for its owner. */
  lemma SecretUpdateSucceedsIff(store: Store, admin: Admin, target: Id, status: SecretStatus, env: Env)
    requires Inv(store.db)
    ensures Step(store, admin, UpdateSecret(target, status), env).1.Done? <==> (
      && target in store.db.secrets
      && (admin.workspace.None? || admin.workspace == Some(store.db.secrets[target].workspace))
      && (status.Revoked?
           || (SecretSupported(store.db, store.db.secrets[target])
                && !Shadowed(store.db, target, store.db.secrets[target]))))
  {
    hide WellReferenced, ValidateSecret, SecretSupported;
    if target in store.db.secrets {
      SecretValidIff(store.db, store.db.secrets[target]);
      var after := store.db.(secrets := store.db.secrets[target := store.db.secrets[target].(status := status)]);
      if status.Live? { SecretsAcceptedIff(store.db, after, target); }
    }
  }

  /** A row put among accepted secrets is accepted exactly when none stands in its way. */
  lemma SecretsAcceptedIff(db: Db, after: Db, k: Id)
    requires Accepts(db) && after == db.(secrets := after.secrets) && k in after.secrets
      && after.secrets[k].status.Live?
    requires forall other :: other != k ==>
      (other in after.secrets <==> other in db.secrets)
        && (other in after.secrets ==> after.secrets[other] == db.secrets[other])
    ensures Accepts(after) <==> !Shadowed(after, k, after.secrets[k])
  {
  }

  /** A live secret can be rotated within scope while its surroundings are active, encryption works and the drawn
      id is free: revoking the old one clears the way. */
  lemma RotationSucceedsIff(store: Store, admin: Admin, target: Id, newType: Option<string>, env: Env)
    requires Inv(store.db)
    ensures Step(store, admin, RotateSecret(target, newType), env).1.Done? <==> (
      && target in store.db.secrets && store.db.secrets[target].status.Live?
      && (admin.workspace.None? || admin.workspace == Some(store.db.secrets[target].workspace))
      && SecretSupported(store.db, store.db.secrets[target])
      && env.cipher.Some? && env.nextId !in store.db.secrets)
  {
    hide WellReferenced, ValidateSecret, SecretSupported;
    if target in store.db.secrets { SecretValidIff(store.db, store.db.secrets[target]); }
  }

  /** An agent's token can be replaced within scope by any hash no other agent has. */
  lemma TokenRotationSucceedsIff(store: Store, admin: Admin, target: Id, env: Env)
    requires Inv(store.db)
    ensures Step(store, admin, RotateAgentToken(target), env).1.Done? <==> (
      && target in store.db.agents
      && (admin.workspace.None? || admin.workspace == Some(store.db.agents[target].workspace))
      && forall k :: k in store.db.agents && k != target ==> store.db.agents[k].tokenHash != env.tokenHash)
  {
    hide WellReferenced;
    if Step(store, admin, RotateAgentToken(target), env).1.Done? {
      var after := Step(store, admin, RotateAgentToken(target), env).0.db;
      assert after.agents[target].tokenHash == env.tokenHash;
      assert forall k :: k in store.db.agents && k != target ==> after.agents[k] == store.db.agents[k];
    }
  }
}
