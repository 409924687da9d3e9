/** What no sequence of admin calls undoes: rows stay, and only statuses and agent tokens change
    (src/grantora/api/admin.py). */
module AdminHistory {
  import opened Tables
  import opened AdminOps
  import opened Constraints
  import opened AdminRuns

  ghost predicate CapabilitiesContinue(before: map<string, Capability>, after: map<string, Capability>) {
    forall k :: k in before ==> k in after && after[k].(status := before[k].status) == before[k]
  }

  ghost predicate BindingsContinue(before: map<Id, Binding>, after: map<Id, Binding>) {
    forall k :: k in before ==> k in after && after[k].(status := before[k].status) == before[k]
  }

  /** A revoked secret may be set live again, but never changes hands or content. */
  ghost predicate SecretsContinue(before: map<Id, Secret>, after: map<Id, Secret>) {
    forall k :: k in before ==> k in after && after[k].(status := before[k].status) == before[k]
  }

  ghost predicate PrincipalsContinue(before: Db, after: Db) {
    && (forall k :: k in before.workspaces ==> (
          k in after.workspaces && after.workspaces[k].(status := before.workspaces[k].status) == before.workspaces[k]))
    && (forall k :: k in before.applications ==> (
          k in after.applications
            && after.applications[k].(status := before.applications[k].status) == before.applications[k]))
    && (forall k :: k in before.users ==> (
          k in after.users && after.users[k].(status := before.users[k].status) == before.users[k]))
    && (forall k :: k in before.agents ==> (
          && k in after.agents
          && after.agents[k].(status := before.agents[k].status, tokenHash := before.agents[k].tokenHash)
               == before.agents[k]))
  }

  /** A role's permissions are fixed when it is created. */
  ghost predicate RolesContinue(before: Db, after: Db) {
    && (forall k :: k in before.roles ==> (
          k in after.roles && after.roles[k].(status := before.roles[k].status) == before.roles[k]))
    && before.permissions <= after.permissions
    && before.rolePermissions <= after.rolePermissions
    && (forall p :: p in after.rolePermissions && p.0 in before.roles ==> p in before.rolePermissions)
  }

  ghost predicate Continues(before: Db, after: Db) {
    && PrincipalsContinue(before, after)
    && RolesContinue(before, after)
    && CapabilitiesContinue(before.capabilities, after.capabilities)
    && BindingsContinue(before.bindings, after.bindings)
    && SecretsContinue(before.secrets, after.secrets)
  }

  lemma ContinuesSteps(a: Db, b: Db, c: Db)
    requires Continues(a, b) && Continues(b, c)
    ensures Continues(a, c)
  {
    assert PrincipalsContinue(a, c);
    assert RolesContinue(a, c);
  }

  lemma WorkspacesStay(db: Db, admin: Admin, op: AdminOp, env: Env)
    requires op.CreateWorkspace? || op.UpdateWorkspace?
    requires StageWorkspace(db, admin, op, env).Pass? && StageWorkspace(db, admin, op, env).value.keyFree
    ensures Continues(db, StageWorkspace(db, admin, op, env).value.db)
  {
    hide RequireAdminWorkspace, ActiveWorkspace, RequireWorkspaceIfActivating, RequireSuperAdmin;
  }

  lemma ApplicationsStay(db: Db, admin: Admin, op: AdminOp, env: Env)
    requires op.CreateApplication? || op.UpdateApplication?
    requires StageApplication(db, admin, op, env).Pass? && StageApplication(db, admin, op, env).value.keyFree
    ensures Continues(db, StageApplication(db, admin, op, env).value.db)
  {
    hide RequireAdminWorkspace, ActiveWorkspace, RequireWorkspaceIfActivating, RequireSuperAdmin;
  }

  lemma UsersStay(db: Db, admin: Admin, op: AdminOp, env: Env)
    requires op.CreateUser? || op.UpdateUser?
    requires StageUser(db, admin, op, env).Pass? && StageUser(db, admin, op, env).value.keyFree
    ensures Continues(db, StageUser(db, admin, op, env).value.db)
  {
    hide RequireAdminWorkspace, ActiveWorkspace, RequireWorkspaceIfActivating, RequireSuperAdmin;
  }

  lemma AgentsStay(db: Db, admin: Admin, op: AdminOp, env: Env)
    requires op.CreateAgent? || op.UpdateAgent? || op.RotateAgentToken?
    requires StageAgent(db, admin, op, env).Pass? && StageAgent(db, admin, op, env).value.keyFree
    ensures Continues(db, StageAgent(db, admin, op, env).value.db)
  {
    hide RequireAdminWorkspace, ActiveWorkspace, RequireWorkspaceIfActivating, RequireSuperAdmin;
  }

  lemma CapabilitiesStay(db: Db, admin: Admin, op: AdminOp)
    requires IsCapabilityOp(op)
    requires StageCapability(db, admin, op).Pass? && StageCapability(db, admin, op).value.keyFree
    ensures Continues(db, StageCapability(db, admin, op).value.db)
  {
    hide RequireAdminWorkspace, ActiveWorkspace, ActiveApplication, RequireWorkspaceIfActivating,
      RequireApplicationIfActivating, RequireSameWorkspace, CapabilityOf;
  }

  lemma RolesStay(db: Db, admin: Admin, op: AdminOp, env: Env)
    requires op.CreatePermission? || op.CreateRole? || op.UpdateRole?
    requires StageRole(db, admin, op, env).Pass? && StageRole(db, admin, op, env).value.keyFree
    ensures Continues(db, StageRole(db, admin, op, env).value.db)
  {
    hide RequireAdminWorkspace, ActiveWorkspace, RequireWorkspaceIfActivating, RequireSuperAdmin;
  }

  lemma BindingsStay(db: Db, admin: Admin, op: AdminOp, env: Env)
    requires op.CreateBinding? || op.UpdateBinding?
    requires StageBinding(db, admin, op, env).Pass? && StageBinding(db, admin, op, env).value.keyFree
    ensures Continues(db, StageBinding(db, admin, op, env).value.db)
  {
    hide RequireAdminWorkspace, ValidateBinding, RequireBindingIfActivating;
  }

  lemma SecretsStay(db: Db, admin: Admin, op: AdminOp, env: Env)
    requires op.CreateSecret? || op.UpdateSecret? || op.RotateSecret?
    requires StageSecret(db, admin, op, env).Pass? && StageSecret(db, admin, op, env).value.keyFree
    ensures Continues(db, StageSecret(db, admin, op, env).value.db)
  {
    hide RequireAdminWorkspace, ValidateSecret, RequireSecretIfActivating;
  }

  lemma StepContinues(store: Store, call: Call)
    ensures Continues(store.db, Perform(store, call).db)
  {
    hide Stage, Accepts, Continues;
    if call.Mutate? {
      var staged := Stage(store.db, call.admin, call.op, call.env);
      if staged.Pass? && staged.value.keyFree { StageContinues(store.db, call.admin, call.op, call.env); }
    } else {
      assert Continues(store.db, Perform(store, call).db) by { SeedingContinues(store.db); }
    }
    ContinuesFromItself(store.db);
  }

  lemma SeedingContinues(db: Db)
    ensures Continues(db, db.(permissions := db.permissions + DEFAULT_PERMISSIONS))
  {
  }

  lemma StageContinues(db: Db, admin: Admin, op: AdminOp, env: Env)
    requires Stage(db, admin, op, env).Pass? && Stage(db, admin, op, env).value.keyFree
    ensures Continues(db, Stage(db, admin, op, env).value.db)
  {
    hide Continues, StageWorkspace, StageApplication, StageUser, StageAgent, StageCapability, StageRole, StageBinding,
      StageSecret;
    if op.CreateWorkspace? || op.UpdateWorkspace? { WorkspacesStay(db, admin, op, env); }
    else if op.CreateApplication? || op.UpdateApplication? { ApplicationsStay(db, admin, op, env); }
    else if op.CreateUser? || op.UpdateUser? { UsersStay(db, admin, op, env); }
    else if op.CreateAgent? || op.UpdateAgent? || op.RotateAgentToken? { AgentsStay(db, admin, op, env); }
    else if IsCapabilityOp(op) { CapabilitiesStay(db, admin, op); }
    else if op.CreatePermission? || op.CreateRole? || op.UpdateRole? { RolesStay(db, admin, op, env); }
    else if op.CreateBinding? || op.UpdateBinding? { BindingsStay(db, admin, op, env); }
    else { SecretsStay(db, admin, op, env); }
  }

  /** Over any sequence of admin calls no row disappears or changes its meaning: capability definitions, the
      parties of a binding, the permissions of a role and the owner and content of a secret are fixed. */
  lemma {:induction false} HistoryContinues(store: Store, calls: seq<Call>)
    ensures Continues(store.db, PerformAll(store, calls).db)
    decreases |calls|
  {
    hide Perform, Continues;
    if calls == [] {
      ContinuesFromItself(store.db);
    } else {
      StepContinues(store, calls[0]);
      HistoryContinues(Perform(store, calls[0]), calls[1..]);
      ContinuesSteps(store.db, Perform(store, calls[0]).db, PerformAll(store, calls).db);
    }
  }

  lemma ContinuesFromItself(db: Db)
    ensures Continues(db, db)
  {
  }
}
