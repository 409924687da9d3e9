/** Switching something off locks callers out, and only switching that row on again lets them in
    (src/grantora/api/admin.py, src/grantora/db/queries.py). */
module Revocation {
  import opened Tables
  import opened AdminOps
  import opened Constraints
  import opened AdminRuns
  import opened AdminHistory
  import opened Queries

  /** The row a status update addresses is there and disabled. */
  predicate Off(db: Db, switch: AdminOp)
    requires IsStatusUpdate(switch)
  {
    match switch
    case UpdateWorkspace(k, _) => k in db.workspaces && db.workspaces[k].status.Disabled?
    case UpdateApplication(k, _) => k in db.applications && db.applications[k].status.Disabled?
    case UpdateUser(k, _) => k in db.users && db.users[k].status.Disabled?
    case UpdateAgent(k, _) => k in db.agents && db.agents[k].status.Disabled?
    case UpdateCapability(k, _) => k in db.capabilities && db.capabilities[k].status.Disabled?
    case UpdateRole(k, _) => k in db.roles && db.roles[k].status.Disabled?
    case UpdateBinding(k, _) => k in db.bindings && db.bindings[k].status.Disabled?
  }

  // ----- No endpoint but its own switches a row on -----

  lemma WorkspacesKeepOff(db: Db, admin: Admin, op: AdminOp, env: Env, switch: AdminOp)
    requires op.CreateWorkspace? || op.UpdateWorkspace?
    requires StageWorkspace(db, admin, op, env).Pass? && StageWorkspace(db, admin, op, env).value.keyFree
    requires IsStatusUpdate(switch) && Off(db, switch) && op != WithStatus(switch, Active)
    ensures Off(StageWorkspace(db, admin, op, env).value.db, switch)
  {
    hide RequireAdminWorkspace, ActiveWorkspace, RequireWorkspaceIfActivating, RequireSuperAdmin;
  }

  lemma ApplicationsKeepOff(db: Db, admin: Admin, op: AdminOp, env: Env, switch: AdminOp)
    requires op.CreateApplication? || op.UpdateApplication?
    requires StageApplication(db, admin, op, env).Pass? && StageApplication(db, admin, op, env).value.keyFree
    requires IsStatusUpdate(switch) && Off(db, switch) && op != WithStatus(switch, Active)
    ensures Off(StageApplication(db, admin, op, env).value.db, switch)
  {
    hide RequireAdminWorkspace, ActiveWorkspace, RequireWorkspaceIfActivating, RequireSuperAdmin;
  }

  lemma UsersKeepOff(db: Db, admin: Admin, op: AdminOp, env: Env, switch: AdminOp)
    requires op.CreateUser? || op.UpdateUser?
    requires StageUser(db, admin, op, env).Pass? && StageUser(db, admin, op, env).value.keyFree
    requires IsStatusUpdate(switch) && Off(db, switch) && op != WithStatus(switch, Active)
    ensures Off(StageUser(db, admin, op, env).value.db, switch)
  {
    hide RequireAdminWorkspace, ActiveWorkspace, RequireWorkspaceIfActivating, RequireSuperAdmin;
  }

  lemma AgentsKeepOff(db: Db, admin: Admin, op: AdminOp, env: Env, switch: AdminOp)
    requires op.CreateAgent? || op.UpdateAgent? || op.RotateAgentToken?
    requires StageAgent(db, admin, op, env).Pass? && StageAgent(db, admin, op, env).value.keyFree
    requires IsStatusUpdate(switch) && Off(db, switch) && op != WithStatus(switch, Active)
    ensures Off(StageAgent(db, admin, op, env).value.db, switch)
  {
    hide RequireAdminWorkspace, ActiveWorkspace, RequireWorkspaceIfActivating, RequireSuperAdmin;
  }

  lemma CapabilitiesKeepOff(db: Db, admin: Admin, op: AdminOp, switch: AdminOp)
    requires IsCapabilityOp(op)
    requires StageCapability(db, admin, op).Pass? && StageCapability(db, admin, op).value.keyFree
    requires IsStatusUpdate(switch) && Off(db, switch) && op != WithStatus(switch, Active)
    ensures Off(StageCapability(db, admin, op).value.db, switch)
  {
    hide RequireAdminWorkspace, ActiveWorkspace, ActiveApplication, RequireWorkspaceIfActivating,
      RequireApplicationIfActivating, RequireSameWorkspace, CapabilityOf;
  }

  lemma RolesKeepOff(db: Db, admin: Admin, op: AdminOp, env: Env, switch: AdminOp)
    requires op.CreatePermission? || op.CreateRole? || op.UpdateRole?
    requires StageRole(db, admin, op, env).Pass? && StageRole(db, admin, op, env).value.keyFree
    requires IsStatusUpdate(switch) && Off(db, switch) && op != WithStatus(switch, Active)
    ensures Off(StageRole(db, admin, op, env).value.db, switch)
  {
    hide RequireAdminWorkspace, ActiveWorkspace, RequireWorkspaceIfActivating, RequireSuperAdmin;
  }

  lemma BindingsKeepOff(db: Db, admin: Admin, op: AdminOp, env: Env, switch: AdminOp)
    requires op.CreateBinding? || op.UpdateBinding?
    requires StageBinding(db, admin, op, env).Pass? && StageBinding(db, admin, op, env).value.keyFree
    requires IsStatusUpdate(switch) && Off(db, switch) && op != WithStatus(switch, Active)
    ensures Off(StageBinding(db, admin, op, env).value.db, switch)
  {
    hide RequireAdminWorkspace, ValidateBinding, RequireBindingIfActivating;
  }

  lemma SecretsKeepOff(db: Db, admin: Admin, op: AdminOp, env: Env, switch: AdminOp)
    requires op.CreateSecret? || op.UpdateSecret? || op.RotateSecret?
    requires StageSecret(db, admin, op, env).Pass? && StageSecret(db, admin, op, env).value.keyFree
    requires IsStatusUpdate(switch) && Off(db, switch) && op != WithStatus(switch, Active)
    ensures Off(StageSecret(db, admin, op, env).value.db, switch)
  {
    hide RequireAdminWorkspace, ValidateSecret, RequireSecretIfActivating;
  }

  lemma StageKeepsOff(db: Db, admin: Admin, op: AdminOp, env: Env, switch: AdminOp)
    requires Stage(db, admin, op, env).Pass? && Stage(db, admin, op, env).value.keyFree
    requires IsStatusUpdate(switch) && Off(db, switch) && op != WithStatus(switch, Active)
    ensures Off(Stage(db, admin, op, env).value.db, switch)
  {
    hide Off, WithStatus, StageWorkspace, StageApplication, StageUser, StageAgent, StageCapability, StageRole,
      StageBinding, StageSecret;
    if op.CreateWorkspace? || op.UpdateWorkspace? { WorkspacesKeepOff(db, admin, op, env, switch); }
    else if op.CreateApplication? || op.UpdateApplication? { ApplicationsKeepOff(db, admin, op, env, switch); }
    else if op.CreateUser? || op.UpdateUser? { UsersKeepOff(db, admin, op, env, switch); }
    else if op.CreateAgent? || op.UpdateAgent? || op.RotateAgentToken? { AgentsKeepOff(db, admin, op, env, switch); }
    else if IsCapabilityOp(op) { CapabilitiesKeepOff(db, admin, op, switch); }
    else if op.CreatePermission? || op.CreateRole? || op.UpdateRole? { RolesKeepOff(db, admin, op, env, switch); }
    else if op.CreateBinding? || op.UpdateBinding? { BindingsKeepOff(db, admin, op, env, switch); }
    else { SecretsKeepOff(db, admin, op, env, switch); }
  }

  predicate Reactivates(call: Call, switch: AdminOp)
    requires IsStatusUpdate(switch)
  {
    call.Mutate? && call.op == WithStatus(switch, Active)
  }

  /** A disabled row stays disabled through any admin calls that do not switch that very row on. */
  lemma {:induction false} OffStaysOff(store: Store, calls: seq<Call>, switch: AdminOp)
    requires IsStatusUpdate(switch) && Off(store.db, switch)
    requires forall i :: 0 <= i < |calls| ==> !Reactivates(calls[i], switch)
    ensures Off(PerformAll(store, calls).db, switch)
    decreases |calls|
  {
    hide Stage, Accepts, WithStatus;
    if calls != [] {
      var call := calls[0];
      if call.Mutate? {
        var staged := Stage(store.db, call.admin, call.op, call.env);
        assert !Reactivates(call, switch);
        if staged.Pass? && staged.value.keyFree { StageKeepsOff(store.db, call.admin, call.op, call.env, switch); }
      }
      OffStaysOff(Perform(store, call), calls[1..], switch);
    }
  }

  // ----- Access through a switched-off row -----

  /** The key a caller is bound by. */
  datatype Key = Key(workspace: Id, agent: Id, user: Id, capability: string)

  predicate ForKey(row: Binding, key: Key) {
    row.agent == key.agent && row.user == key.user && row.capability == key.capability
  }

  /** The bindings for a key that do not depend on the given role or binding. */
  function OtherBindings(db: Db, switch: AdminOp, key: Key): set<Id>
    requires switch.UpdateRole? || switch.UpdateBinding?
  {
    set b | b in db.bindings && ForKey(db.bindings[b], key) && !DependsOn(b, db.bindings[b], switch)
  }

  predicate DependsOn(b: Id, row: Binding, switch: AdminOp)
    requires switch.UpdateRole? || switch.UpdateBinding?
  {
    if switch.UpdateRole? then row.role == switch.target else b == switch.target
  }

  /** The calls that run through a row: those of its workspace, application, user, agent or capability, or
      those no other binding is active for. */
  predicate RunsThrough(db: Db, switch: AdminOp, key: Key)
    requires IsStatusUpdate(switch)
  {
    match switch
    case UpdateWorkspace(k, _) => k == key.workspace
    case UpdateApplication(k, _) => key.capability in db.capabilities
      && db.capabilities[key.capability].application == k
    case UpdateUser(k, _) => k == key.user
    case UpdateAgent(k, _) => k == key.agent
    case UpdateCapability(k, _) => k == key.capability
    case UpdateRole(_, _) => forall b :: b in OtherBindings(db, switch, key) ==> db.bindings[b].status.Disabled?
    case UpdateBinding(_, _) => forall b :: b in OtherBindings(db, switch, key) ==> db.bindings[b].status.Disabled?
  }

  lemma OffDenies(db: Db, switch: AdminOp, key: Key)
    requires KeyedCapabilities(db) && UniqueActiveBindings(db)
    requires IsStatusUpdate(switch) && Off(db, switch) && RunsThrough(db, switch, key)
    ensures Authorize(db, key.workspace, key.agent, key.user, key.capability).None?
  {
    hide UniqueActiveBindings, Authorize;
    AuthorizedIff(db, key.workspace, key.agent, key.user, key.capability);
    forall k ensures !Authorizes(db, key.workspace, key.agent, key.user, key.capability, k) {
      if k in db.bindings && (switch.UpdateRole? || switch.UpdateBinding?) {
        assert k in OtherBindings(db, switch, key) || !ForKey(db.bindings[k], key)
          || DependsOn(k, db.bindings[k], switch);
      }
    }
  }

  /** A call that can bring the access back: switching the row on or, where access ran through a role or a
      binding, creating another binding for the key or activating one there was at the start. */
  predicate Restores(start: Db, call: Call, switch: AdminOp, key: Key)
    requires IsStatusUpdate(switch)
  {
    || Reactivates(call, switch)
    || (call.Mutate? && (switch.UpdateRole? || switch.UpdateBinding?) && Rebinds(start, call.op, switch, key))
  }

  predicate Rebinds(start: Db, op: AdminOp, switch: AdminOp, key: Key)
    requires switch.UpdateRole? || switch.UpdateBinding?
  {
    match op
    case CreateBinding(_, agent, user, capability, role, _) =>
      && agent == key.agent && user == key.user && capability == key.capability
      && !(switch.UpdateRole? && role == switch.target)
    case UpdateBinding(b, status) => status.Active? && b in OtherBindings(start, switch, key)
    case _ => false
  }

  /** While no call rebinds the key, its other bindings are among those of the start, and disabled. */
  ghost predicate OthersOff(start: Db, db: Db, switch: AdminOp, key: Key)
    requires switch.UpdateRole? || switch.UpdateBinding?
  {
    forall b :: b in OtherBindings(db, switch, key) ==>
      b in OtherBindings(start, switch, key) && db.bindings[b].status.Disabled?
  }

  lemma StagedBindingKeepsOthersOff(start: Db, db: Db, admin: Admin, op: AdminOp, env: Env, switch: AdminOp, key: Key)
    requires switch.UpdateRole? || switch.UpdateBinding?
    requires IsBindingOp(op) && !Rebinds(start, op, switch, key) && OthersOff(start, db, switch, key)
    requires StageBinding(db, admin, op, env).Pass? && StageBinding(db, admin, op, env).value.keyFree
    requires switch.UpdateBinding? ==> switch.target in db.bindings
    ensures OthersOff(start, StageBinding(db, admin, op, env).value.db, switch, key)
  {
    hide RequireAdminWorkspace, ValidateBinding, RequireBindingIfActivating;
    var after := StageBinding(db, admin, op, env).value.db;
    forall b | b in OtherBindings(after, switch, key)
      ensures b in OtherBindings(start, switch, key) && after.bindings[b].status.Disabled?
    {
      if op.UpdateBinding? && b == op.target { assert b in OtherBindings(db, switch, key); }
      else if b in db.bindings && after.bindings[b] == db.bindings[b] { assert b in OtherBindings(db, switch, key); }
    }
  }

  lemma StageKeepsOthersOff(start: Db, db: Db, admin: Admin, op: AdminOp, env: Env, switch: AdminOp, key: Key)
    requires switch.UpdateRole? || switch.UpdateBinding?
    requires !Rebinds(start, op, switch, key) && OthersOff(start, db, switch, key)
    requires Stage(db, admin, op, env).Pass? && Stage(db, admin, op, env).value.keyFree
    requires switch.UpdateBinding? ==> switch.target in db.bindings
    ensures OthersOff(start, Stage(db, admin, op, env).value.db, switch, key)
  {
    hide Rebinds, StageWorkspace, StageApplication, StageUser, StageAgent, StageCapability, StageRole, StageBinding,
      StageSecret;
    if IsBindingOp(op) {
      StagedBindingKeepsOthersOff(start, db, admin, op, env, switch, key);
    } else {
      OtherEndpointsKeepGrants(db, admin, op, env);
      assert OtherBindings(Stage(db, admin, op, env).value.db, switch, key) == OtherBindings(db, switch, key);
    }
  }

  lemma {:induction false} OthersStayOff(start: Db, store: Store, calls: seq<Call>, switch: AdminOp, key: Key)
    requires (switch.UpdateRole? || switch.UpdateBinding?) && Off(store.db, switch)
      && OthersOff(start, store.db, switch, key)
    requires forall i :: 0 <= i < |calls| ==> !Restores(start, calls[i], switch, key)
    ensures OthersOff(start, PerformAll(store, calls).db, switch, key)
    decreases |calls|
  {
    hide Stage, Accepts, Rebinds, OthersOff;
    if calls != [] {
      var call := calls[0];
      assert !Restores(start, call, switch, key);
      if call.Mutate? {
        var staged := Stage(store.db, call.admin, call.op, call.env);
        if staged.Pass? && staged.value.keyFree {
          StageKeepsOff(store.db, call.admin, call.op, call.env, switch);
          StageKeepsOthersOff(start, store.db, call.admin, call.op, call.env, switch, key);
        }
      } else {
        SeedingKeepsOthersOff(start, store.db, switch, key);
      }
      OthersStayOff(start, Perform(store, call), calls[1..], switch, key);
    }
  }

  lemma SeedingKeepsOthersOff(start: Db, db: Db, switch: AdminOp, key: Key)
    requires (switch.UpdateRole? || switch.UpdateBinding?) && OthersOff(start, db, switch, key)
    ensures OthersOff(start, db.(permissions := db.permissions + DEFAULT_PERMISSIONS), switch, key)
  {
    assert OtherBindings(db.(permissions := db.permissions + DEFAULT_PERMISSIONS), switch, key)
      == OtherBindings(db, switch, key);
  }

  lemma RunsThroughLasts(store: Store, calls: seq<Call>, switch: AdminOp, key: Key)
    requires IsStatusUpdate(switch) && Off(store.db, switch) && RunsThrough(store.db, switch, key)
    requires forall i :: 0 <= i < |calls| ==> !Restores(store.db, calls[i], switch, key)
    ensures RunsThrough(PerformAll(store, calls).db, switch, key)
  {
    hide PerformAll, Restores, OtherBindings, PrincipalsContinue, RolesContinue, BindingsContinue, SecretsContinue;
    if switch.UpdateRole? || switch.UpdateBinding? {
      OthersStayOff(store.db, store, calls, switch, key);
    } else {
      HistoryContinues(store, calls);
    }
  }

  /** Access that runs through a workspace, application, user, agent, capability, role or binding is gone
      while that row is disabled, and comes back only through a call that switches the row on or gives the
      caller another binding. */
  lemma RevokedStaysRevoked(store: Store, calls: seq<Call>, switch: AdminOp, key: Key)
    requires Inv(store.db) && IsStatusUpdate(switch) && Off(store.db, switch) && RunsThrough(store.db, switch, key)
    requires forall i :: 0 <= i < |calls| ==> !Restores(store.db, calls[i], switch, key)
    ensures Authorize(PerformAll(store, calls).db, key.workspace, key.agent, key.user, key.capability).None?
  {
    hide Authorize, RunsThrough, Off, PerformAll, Rebinds;
    EveryReachableStoreIsSound(store, calls);
    RunsThroughLasts(store, calls, switch, key);
    forall i | 0 <= i < |calls| ensures !Reactivates(calls[i], switch) {
      assert !Restores(store.db, calls[i], switch, key);
    }
    OffStaysOff(store, calls, switch);
    OffDenies(PerformAll(store, calls).db, switch, key);
  }
}
