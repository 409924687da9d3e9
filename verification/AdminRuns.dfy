/** The admin session, and what any sequence of admin calls keeps (src/grantora/api/admin.py). */
module AdminRuns {
  import opened Prelude
  import opened Tables
  import opened AdminOps
  import opened Constraints

  /** The committed tables with the admin audit trail. */
  datatype Store = Store(db: Db, audit: seq<AuditEvent>)

  datatype Reply = Done | Refused(error: Error)

  /** One mutating call: refused by a guard, refused by a constraint at flush, or committed with its audit event. */
  function Step(store: Store, admin: Admin, op: AdminOp, env: Env): (Store, Reply) {
    match Stage(store.db, admin, op, env)
    case Fail(error) => (store, Refused(error))
    case Pass(change) =>
      if change.keyFree && Accepts(change.db) then (Store(change.db, store.audit + [change.audit]), Done)
      else (store, Refused(Conflict(change.conflictCode)))
  }

  /** The admin calls that can change the tables. Listing permissions commits missing defaults, without an
      audit event. */
  datatype Call = Mutate(admin: Admin, op: AdminOp, env: Env) | ListPermissions

  function Perform(store: Store, call: Call): Store {
    match call
    case Mutate(admin, op, env) => Step(store, admin, op, env).0
    case ListPermissions => store.(db := store.db.(permissions := store.db.permissions + DEFAULT_PERMISSIONS))
  }

  function PerformAll(store: Store, calls: seq<Call>): Store
    decreases |calls|
  {
    if calls == [] then store else PerformAll(Perform(store, calls[0]), calls[1..])
  }

  ghost predicate Inv(db: Db) {
    WellReferenced(db) && Accepts(db)
  }

  // ----- The session -----

  /** A SQLAlchemy session: changes are made on `pending` and become durable only at a commit. */
  class AdminSession {
    var committed: Store
    var pending: Store

    ghost predicate Valid()
      reads this
    {
      pending == committed && Inv(committed.db)
    }

    constructor ()
      ensures Valid() && committed == Store(EMPTY_DB, [])
    {
      committed, pending := Store(EMPTY_DB, []), Store(EMPTY_DB, []);
    }

    /** _flush_or_conflict: an integrity error rolls the session back. */
    method Flush(keyFree: bool) returns (ok: bool)
      modifies this`pending
      ensures ok == (keyFree && Accepts(old(pending).db))
      ensures pending == if ok then old(pending) else committed
    {
      ok := keyFree && Accepts(pending.db);
      if !ok {
        pending := committed;
      }
    }

    /** _commit_or_conflict */
    method Commit(keyFree: bool) returns (ok: bool)
      modifies this
      ensures ok == (keyFree && Accepts(old(pending).db))
      ensures committed == pending == if ok then old(pending) else old(committed)
    {
      ok := Flush(keyFree);
      if ok {
        committed := pending;
      }
    }

    /** Any create or update endpoint: guards, staged rows, flush, audit event, commit. */
    method Handle(admin: Admin, op: AdminOp, env: Env) returns (reply: Reply)
      requires Valid()
      modifies this
      ensures Valid()
      ensures (committed, reply) == Step(old(committed), admin, op, env)
    {
      hide Stage, Accepts, WellReferenced;
      var staged := Stage(pending.db, admin, op, env);
      if staged.Fail? {
        return Refused(staged.error);
      }
      ghost var before := committed.db;
      var conflict := Refused(Conflict(staged.value.conflictCode));
      pending := pending.(db := staged.value.db);
      var flushed := Flush(staged.value.keyFree);
      if !flushed {
        return conflict;
      }
      StageKeepsReferences(before, admin, op, env);
      pending := pending.(audit := pending.audit + [staged.value.audit]);
      var durable := Commit(staged.value.keyFree);
      return if durable then Done else conflict;
    }

    /** rotate_secret row by row: the old secret is revoked and its replacement added in one flush. */
    method Rotate(admin: Admin, target: Id, newType: Option<string>, env: Env) returns (reply: Reply)
      requires Valid()
      modifies this
      ensures Valid()
      ensures (committed, reply) == Step(old(committed), admin, RotateSecret(target, newType), env)
    {
      hide Accepts, WellReferenced, ValidateSecret;
      if target !in pending.db.secrets || pending.db.secrets[target].status.Revoked? {
        return Refused(NotFound("secret_not_found"));
      }
      var secret := pending.db.secrets[target];
      var scope := RequireAdminWorkspace(admin, secret.workspace);
      if scope.Fail? {
        return Refused(scope.error);
      }
      var owner := ValidateSecret(pending.db, secret.workspace, secret.application, secret.ownerType, secret.owner);
      if owner.Fail? {
        return Refused(owner.error);
      }
      if env.cipher.None? {
        return Refused(Unavailable("secret_encryption_unavailable"));
      }
      ghost var before := committed.db;
      var keyFree := env.nextId !in pending.db.secrets;
      pending := pending.(db := pending.db.(secrets := pending.db.secrets[target := secret.(status := Revoked)]));
      var replacement :=
        secret.(secretType := if newType.Some? then newType.value else secret.secretType, cipher := env.cipher.value);
      pending := pending.(db := pending.db.(secrets := pending.db.secrets[env.nextId := replacement]));
      var flushed := Flush(keyFree);
      if !flushed {
        return Refused(Conflict("secret_conflict"));
      }
      StageKeepsReferences(before, admin, RotateSecret(target, newType), env);
      pending := pending.(audit := pending.audit + [SecretEvent(replacement)]);
      var durable := Commit(keyFree);
      return if durable then Done else Refused(Conflict("secret_conflict"));
    }

    /** create_role row by row: missing default permissions are added and flushed first, and an unknown code
        can still end the request after that flush; only the last commit makes anything durable. */
    method CreateRoleInSteps(admin: Admin, workspace: Id, slug: string, displayName: string, codes: seq<string>,
                             status: Status, env: Env)
      returns (reply: Reply)
      requires Valid()
      modifies this
      ensures Valid()
      ensures (committed, reply)
        == Step(old(committed), admin, CreateRole(workspace, slug, displayName, codes, status), env)
    {
      hide Accepts, WellReferenced, DEFAULT_PERMISSIONS;
      ghost var op := CreateRole(workspace, slug, displayName, codes, status);
      var scope := RequireAdminWorkspace(admin, workspace);
      if scope.Fail? {
        return Refused(scope.error);
      }
      var home := ActiveWorkspace(pending.db, workspace);
      if home.Fail? {
        return Refused(home.error);
      }
      ghost var before := committed.db;
      SeedingKeepsInv(before);
      RoleKeysAreFree(before, env.nextId);
      if !(DEFAULT_PERMISSIONS <= pending.db.permissions) {
        pending := pending.(db := pending.db.(permissions := pending.db.permissions + DEFAULT_PERMISSIONS));
        var seeded := Flush(true);
        if !seeded {
          return Refused(Conflict("permission_conflict"));
        }
      }
      assert pending.db == before.(permissions := before.permissions + DEFAULT_PERMISSIONS);
      var wanted := DedupePermissionCodes(codes);
      if !(Elems(wanted) <= pending.db.permissions) {
        pending := committed;
        return Refused(Unprocessable("permission_unknown"));
      }
      ghost var seededDb := pending.db;
      var keyFree := env.nextId !in pending.db.roles;
      pending := pending.(db :=
        pending.db.(roles := pending.db.roles[env.nextId := Role(workspace, slug, displayName, status)]));
      for i := 0 to |wanted|
        invariant committed == old(committed) && pending.audit == committed.audit
        invariant pending.db == seededDb.(
          roles := seededDb.roles[env.nextId := Role(workspace, slug, displayName, status)],
          rolePermissions := seededDb.rolePermissions + Pairs(env.nextId, wanted[..i]))
      {
        PairsGrow(env.nextId, wanted, i);
        assert keyFree ==> (env.nextId, wanted[i]) !in pending.db.rolePermissions;
        pending := pending.(db :=
          pending.db.(rolePermissions := pending.db.rolePermissions + {(env.nextId, wanted[i])}));
      }
      assert wanted[..|wanted|] == wanted;
      SamePairs(env.nextId, wanted, codes);
      assert Stage(before, admin, op, env).Pass? && Stage(before, admin, op, env).value.db == pending.db;
      var flushed := Flush(keyFree);
      if !flushed {
        return Refused(Conflict("role_conflict"));
      }
      StageKeepsReferences(before, admin, op, env);
      pending := pending.(audit := pending.audit + [WorkspaceEvent(Some(workspace))]);
      var durable := Commit(keyFree);
      return if durable then Done else Refused(Conflict("role_conflict"));
    }
  }

  /** _dedupe_permission_codes: first occurrences, in order. */
  method DedupePermissionCodes(codes: seq<string>) returns (kept: seq<string>)
    ensures NoDup(kept) && Elems(kept) == Elems(codes)
  {
    kept := [];
    for i := 0 to |codes|
      invariant NoDup(kept) && Elems(kept) == Elems(codes[..i])
    {
      assert Elems(codes[..i + 1]) == Elems(codes[..i]) + {codes[i]};
      if codes[i] !in kept {
        assert Elems(kept + [codes[i]]) == Elems(kept) + {codes[i]};
        kept := kept + [codes[i]];
      } else {
        assert codes[i] in Elems(kept);
      }
    }
    assert codes[..|codes|] == codes;
  }

  function Pairs(role: Id, codes: seq<string>): set<(Id, string)> {
    set code | code in codes :: (role, code)
  }

  lemma SamePairs(role: Id, kept: seq<string>, codes: seq<string>)
    requires Elems(kept) == Elems(codes)
    ensures Pairs(role, kept) == set code | code in codes :: (role, code)
  {
    forall code ensures code in kept <==> code in codes {
      assert code in Elems(kept) <==> code in Elems(codes);
    }
  }

  /** A role id that is free has no permission rows yet. */
  lemma RoleKeysAreFree(db: Db, role: Id)
    requires Inv(db)
    ensures role !in db.roles ==> forall code :: (role, code) !in db.rolePermissions
  {
    hide Accepts;
  }

  lemma PairsGrow(role: Id, codes: seq<string>, i: nat)
    requires i < |codes|
    ensures Pairs(role, codes[..i + 1]) == Pairs(role, codes[..i]) + {(role, codes[i])}
    ensures NoDup(codes) ==> (role, codes[i]) !in Pairs(role, codes[..i])
  {
    assert codes[..i + 1] == codes[..i] + [codes[i]];
  }

  // ----- Every staged change keeps references inside the workspace -----

  /** Each row after the change satisfies its rule against the tables before it. */
  ghost predicate RowsOkIn(before: Db, after: Db) {
    && (forall k :: k in after.applications ==> after.applications[k].workspace in before.workspaces)
    && (forall k :: k in after.users ==> after.users[k].workspace in before.workspaces)
    && (forall k :: k in after.agents ==> after.agents[k].workspace in before.workspaces)
    && (forall k :: k in after.roles ==> after.roles[k].workspace in before.workspaces)
    && (forall k :: k in after.capabilities ==>
         after.capabilities[k].id == k && CapabilityOk(before, after.capabilities[k]))
    && (forall k :: k in after.bindings ==> BindingOk(before, after.bindings[k]))
    && (forall k :: k in after.secrets ==> SecretOk(before, after.secrets[k]))
    && RolePermissionsOk(after)
  }

  lemma RowsOkAfter(before: Db, after: Db)
    requires KeepsReferences(before, after) && RowsOkIn(before, after)
    ensures WellReferenced(after)
  {
    hide KeepsReferences, BindingOk, SecretOk, CapabilityOk;
    forall k | k in after.bindings ensures BindingOk(after, after.bindings[k]) {
      BindingOkKept(before, after, after.bindings[k]);
    }
    forall k | k in after.secrets ensures SecretOk(after, after.secrets[k]) {
      SecretOkKept(before, after, after.secrets[k]);
    }
    forall k | k in after.capabilities ensures CapabilityOk(after, after.capabilities[k]) {
      CapabilityOkKept(before, after, after.capabilities[k]);
    }
    assert before.workspaces.Keys <= after.workspaces.Keys by { KeptWorkspaces(before, after); }
  }

  lemma KeptWorkspaces(before: Db, after: Db)
    requires KeepsReferences(before, after)
    ensures before.workspaces.Keys <= after.workspaces.Keys
  {
  }

  ghost predicate Kept(before: Db, after: Db) {
    KeepsReferences(before, after) && RowsOkIn(before, after)
  }

  lemma WorkspaceKept(db: Db, admin: Admin, op: AdminOp, env: Env)
    requires WellReferenced(db) && (op.CreateWorkspace? || op.UpdateWorkspace?)
    requires StageWorkspace(db, admin, op, env).Pass? && StageWorkspace(db, admin, op, env).value.keyFree
    ensures Kept(db, StageWorkspace(db, admin, op, env).value.db)
  {
    hide BindingOk, SecretOk, CapabilityOk, RequireAdminWorkspace, RequireWorkspaceIfActivating;
  }

  lemma ApplicationKept(db: Db, admin: Admin, op: AdminOp, env: Env)
    requires WellReferenced(db) && (op.CreateApplication? || op.UpdateApplication?)
    requires StageApplication(db, admin, op, env).Pass? && StageApplication(db, admin, op, env).value.keyFree
    ensures Kept(db, StageApplication(db, admin, op, env).value.db)
  {
    hide BindingOk, SecretOk, CapabilityOk, RequireAdminWorkspace, RequireWorkspaceIfActivating;
  }

  lemma UserKept(db: Db, admin: Admin, op: AdminOp, env: Env)
    requires WellReferenced(db) && (op.CreateUser? || op.UpdateUser?)
    requires StageUser(db, admin, op, env).Pass? && StageUser(db, admin, op, env).value.keyFree
    ensures Kept(db, StageUser(db, admin, op, env).value.db)
  {
    hide BindingOk, SecretOk, CapabilityOk, RequireAdminWorkspace, RequireWorkspaceIfActivating;
  }

  lemma AgentKept(db: Db, admin: Admin, op: AdminOp, env: Env)
    requires WellReferenced(db) && (op.CreateAgent? || op.UpdateAgent? || op.RotateAgentToken?)
    requires StageAgent(db, admin, op, env).Pass? && StageAgent(db, admin, op, env).value.keyFree
    ensures Kept(db, StageAgent(db, admin, op, env).value.db)
  {
    hide BindingOk, SecretOk, CapabilityOk, RequireAdminWorkspace, RequireWorkspaceIfActivating;
  }

  lemma PutCapabilityKept(db: Db, row: Capability)
    requires WellReferenced(db) && CapabilityOk(db, row)
    requires row.id in db.capabilities ==> db.capabilities[row.id].workspace == row.workspace
    ensures Kept(db, db.(capabilities := db.capabilities[row.id := row]))
  {
    hide BindingOk, SecretOk;
  }

  lemma CapabilityKept(db: Db, admin: Admin, op: AdminOp)
    requires WellReferenced(db) && IsCapabilityOp(op)
    requires StageCapability(db, admin, op).Pass? && StageCapability(db, admin, op).value.keyFree
    ensures Kept(db, StageCapability(db, admin, op).value.db)
  {
    hide BindingsOk, SecretsOk, Kept, RolePermissionsOk, UsersOk, AgentsOk, RolesOk, RequireApplicationIfActivating,
      RequireWorkspaceIfActivating;
    match op
    case CreateCapability(row, _, _) => PutCapabilityKept(db, row);
    case CreateCapabilityFromTemplate(t, _, w, a, i, n, v, st) =>
      PutCapabilityKept(db, CapabilityOf(t.value, w, a, i, n, v, st));
    case UpdateCapability(k, status) => PutCapabilityKept(db, db.capabilities[k].(status := status));
  }

  lemma RoleKept(db: Db, admin: Admin, op: AdminOp, env: Env)
    requires WellReferenced(db) && (op.CreatePermission? || op.CreateRole? || op.UpdateRole?)
    requires StageRole(db, admin, op, env).Pass? && StageRole(db, admin, op, env).value.keyFree
    ensures Kept(db, StageRole(db, admin, op, env).value.db)
  {
    hide BindingOk, SecretOk, CapabilityOk, RequireAdminWorkspace, RequireWorkspaceIfActivating;
  }

  lemma ValidatedBindingOk(db: Db, row: Binding)
    requires WellReferenced(db)
    requires ValidateBinding(db, row.workspace, row.agent, row.user, row.capability, row.role).Pass?
    ensures BindingOk(db, row)
  {
  }

  lemma ValidatedSecretOk(db: Db, row: Secret)
    requires WellReferenced(db)
    requires ValidateSecret(db, row.workspace, row.application, row.ownerType, row.owner).Pass?
    ensures SecretOk(db, row)
  {
  }

  lemma PutBindingKept(db: Db, k: Id, row: Binding)
    requires WellReferenced(db) && BindingOk(db, row)
    ensures Kept(db, db.(bindings := db.bindings[k := row]))
  {
    hide BindingOk, SecretOk, CapabilityOk;
  }

  lemma PutSecretsKept(db: Db, secrets: map<Id, Secret>)
    requires WellReferenced(db) && forall k :: k in secrets ==> SecretOk(db, secrets[k])
    ensures Kept(db, db.(secrets := secrets))
  {
    hide BindingOk, SecretOk, CapabilityOk;
  }

  lemma BindingKept(db: Db, admin: Admin, op: AdminOp, env: Env)
    requires WellReferenced(db) && (op.CreateBinding? || op.UpdateBinding?)
    requires StageBinding(db, admin, op, env).Pass? && StageBinding(db, admin, op, env).value.keyFree
    ensures Kept(db, StageBinding(db, admin, op, env).value.db)
  {
    hide Kept, ValidateBinding, RequireBindingIfActivating;
    match op
    case CreateBinding(w, a, u, c, r, status) =>
      ValidatedBindingOk(db, Binding(w, a, u, c, r, status));
      PutBindingKept(db, env.nextId, Binding(w, a, u, c, r, status));
    case UpdateBinding(k, status) =>
      assert BindingOk(db, db.bindings[k]);
      PutBindingKept(db, k, db.bindings[k].(status := status));
  }

  lemma SecretKept(db: Db, admin: Admin, op: AdminOp, env: Env)
    requires WellReferenced(db) && (op.CreateSecret? || op.UpdateSecret? || op.RotateSecret?)
    requires StageSecret(db, admin, op, env).Pass? && StageSecret(db, admin, op, env).value.keyFree
    ensures Kept(db, StageSecret(db, admin, op, env).value.db)
  {
    hide Kept, ValidateSecret, RequireSecretIfActivating, BindingsOk, CapabilitiesOk;
    match op {
      case CreateSecret(w, a, ownerType, owner, secretType) =>
        ValidatedSecretOk(db, Secret(w, a, ownerType, owner, secretType, env.cipher.value, Live));
      case UpdateSecret(k, status) =>
        assert SecretOk(db, db.secrets[k]);
      case RotateSecret(k, newType) =>
        assert SecretOk(db, db.secrets[k]);
    }
    PutSecretsKept(db, StageSecret(db, admin, op, env).value.db.secrets);
  }

  /** Whatever an endpoint stages, references still resolve inside one workspace. */
  lemma StageKeepsReferences(db: Db, admin: Admin, op: AdminOp, env: Env)
    requires WellReferenced(db)
    requires var staged := Stage(db, admin, op, env); staged.Pass? && staged.value.keyFree
    ensures WellReferenced(Stage(db, admin, op, env).value.db)
  {
    hide WellReferenced, KeepsReferences, RowsOkIn, StageWorkspace, StageApplication, StageUser, StageAgent,
      StageCapability, StageRole, StageBinding, StageSecret;
    if op.CreateWorkspace? || op.UpdateWorkspace? { WorkspaceKept(db, admin, op, env); }
    else if op.CreateApplication? || op.UpdateApplication? { ApplicationKept(db, admin, op, env); }
    else if op.CreateUser? || op.UpdateUser? { UserKept(db, admin, op, env); }
    else if op.CreateAgent? || op.UpdateAgent? || op.RotateAgentToken? { AgentKept(db, admin, op, env); }
    else if IsCapabilityOp(op) { CapabilityKept(db, admin, op); }
    else if op.CreatePermission? || op.CreateRole? || op.UpdateRole? { RoleKept(db, admin, op, env); }
    else if op.CreateBinding? || op.UpdateBinding? { BindingKept(db, admin, op, env); }
    else { SecretKept(db, admin, op, env); }
    RowsOkAfter(db, Stage(db, admin, op, env).value.db);
  }

  // ----- Over any sequence of admin calls -----

  lemma PerformKeepsInv(store: Store, call: Call)
    requires Inv(store.db)
    ensures Inv(Perform(store, call).db)
  {
    hide Stage, BindingOk, SecretOk, CapabilityOk, Accepts;
    if call.Mutate? {
      var staged := Stage(store.db, call.admin, call.op, call.env);
      if staged.Pass? && staged.value.keyFree { StageKeepsReferences(store.db, call.admin, call.op, call.env); }
    } else {
      SeedingKeepsInv(store.db);
    }
  }

  lemma SeedingKeepsInv(db: Db)
    requires Inv(db)
    ensures Inv(db.(permissions := db.permissions + DEFAULT_PERMISSIONS))
  {
    hide BindingOk, SecretOk, CapabilityOk;
    var after := db.(permissions := db.permissions + DEFAULT_PERMISSIONS);
    assert Kept(db, after);
    RowsOkAfter(db, after);
  }

  /** From an empty database, or any state that has the invariant, no sequence of admin calls leaves it:
      references stay inside their workspace, provider types agree, and at most one binding or secret
      is active per key. */
  lemma {:induction false} EveryReachableStoreIsSound(store: Store, calls: seq<Call>)
    requires Inv(store.db)
    ensures Inv(PerformAll(store, calls).db)
    decreases |calls|
  {
    hide Inv, Perform;
    if calls != [] {
      PerformKeepsInv(store, calls[0]);
      EveryReachableStoreIsSound(Perform(store, calls[0]), calls[1..]);
    }
  }

  lemma EmptyDbIsSound()
    ensures Inv(EMPTY_DB)
  {
  }

  /** In particular every store that starts empty stays sound. */
  lemma EveryStoreFromEmptyIsSound(calls: seq<Call>)
    ensures Inv(PerformAll(Store(EMPTY_DB, []), calls).db)
  {
    hide Inv, PerformAll;
    EmptyDbIsSound();
    EveryReachableStoreIsSound(Store(EMPTY_DB, []), calls);
  }

  /** Each mutating call commits its change together with exactly one audit event, or changes nothing. */
  lemma StepIsAtomic(store: Store, admin: Admin, op: AdminOp, env: Env)
    ensures var (after, reply) := Step(store, admin, op, env);
      && (reply.Refused? ==> after == store)
      && (reply.Done? ==> Accepts(after.db) && |after.audit| == |store.audit| + 1 && store.audit < after.audit)
  {
    hide Stage, Accepts;
  }

  /** Rotation: the old secret ends revoked, the replacement carries the new encrypted value and is the one
      active secret for its owner. */
  lemma RotationReplacesTheSecret(store: Store, admin: Admin, target: Id, newType: Option<string>, env: Env)
    requires Step(store, admin, RotateSecret(target, newType), env).1.Done?
    ensures var db, after := store.db, Step(store, admin, RotateSecret(target, newType), env).0.db;
      && target in db.secrets && env.nextId in after.secrets && target in after.secrets
      && after.secrets[target].status.Revoked? && after.secrets[env.nextId].status.Live?
      && SameSecretKey(after.secrets[env.nextId], db.secrets[target])
      && env.cipher.Some? && after.secrets[env.nextId].cipher == env.cipher.value
      && after.secrets[env.nextId].secretType
           == (if newType.Some? then newType.value else db.secrets[target].secretType)
      && (forall k :: k in after.secrets ==>
            after.secrets[k].status.Live? && SameSecretKey(after.secrets[k], db.secrets[target]) ==> k == env.nextId)
      && (forall k :: k in db.secrets && k != target ==> k in after.secrets && after.secrets[k] == db.secrets[k])
  {
    hide ValidateSecret, UniqueWorkspaces, UniqueApplications, UniqueUsers, UniqueAgents, UniqueRoles,
      UniqueActiveBindings;
  }

  /** What a row needs around it to be switched on. */
  predicate BindingSupported(db: Db, row: Binding) {
    && BindingOk(db, row) && db.workspaces[row.workspace].status.Active? && db.agents[row.agent].status.Active?
    && db.users[row.user].status.Active? && db.capabilities[row.capability].status.Active?
         && db.roles[row.role].status.Active?
  }

  predicate SecretSupported(db: Db, row: Secret) {
    && SecretOk(db, row) && db.workspaces[row.workspace].status.Active?
         && db.applications[row.application].status.Active?
    && (row.ownerType.UserOwner? ==> db.users[row.owner].status.Active?)
    && (row.ownerType.AgentOwner? ==> db.agents[row.owner].status.Active?)
  }

  predicate CapabilitySupported(db: Db, row: Capability) {
    && CapabilityOk(db, row) && db.workspaces[row.workspace].status.Active?
         && db.applications[row.application].status.Active?
  }

  /** A binding becomes active only while its workspace, agent, user, capability and role are. */
  lemma ActivatedBindingIsSupported(store: Store, admin: Admin, op: AdminOp, env: Env, k: Id)
    requires Inv(store.db)
    requires var after := Step(store, admin, op, env).0.db;
      && k in after.bindings && after.bindings[k].status.Active?
      && !(k in store.db.bindings && store.db.bindings[k].status.Active?)
    ensures BindingSupported(store.db, Step(store, admin, op, env).0.db.bindings[k])
  {
    hide Accepts, StageWorkspace, StageApplication, StageUser, StageAgent, StageCapability, StageRole, StageSecret,
      ValidateBinding, ValidateSecret, Inv;
    if !IsBindingOp(op) && Stage(store.db, admin, op, env).Pass? {
      OtherEndpointsKeepGrants(store.db, admin, op, env);
    }
    var row := Step(store, admin, op, env).0.db.bindings[k];
    assert IsBindingOp(op);
    ValidatedBindingSupported(store.db, row);
  }

  lemma ValidatedBindingSupported(db: Db, row: Binding)
    requires Inv(db)
    ensures ValidateBinding(db, row.workspace, row.agent, row.user, row.capability, row.role).Pass? ==>
      BindingSupported(db, row)
  {
    hide Accepts;
  }

  predicate IsBindingOp(op: AdminOp) { op.CreateBinding? || op.UpdateBinding? }
  predicate IsSecretOp(op: AdminOp) { op.CreateSecret? || op.UpdateSecret? || op.RotateSecret? }
  predicate IsCapabilityOp(op: AdminOp) {
    op.CreateCapability? || op.CreateCapabilityFromTemplate? || op.UpdateCapability?
  }
  predicate IsRoleOp(op: AdminOp) { op.CreatePermission? || op.CreateRole? || op.UpdateRole? }

  /** Only their own endpoints touch bindings, secrets and capabilities. */
  predicate KeepsGrants(op: AdminOp, before: Db, after: Db) {
    && (!IsBindingOp(op) ==> after.bindings == before.bindings)
    && (!IsSecretOp(op) ==> after.secrets == before.secrets)
    && (!IsCapabilityOp(op) ==> after.capabilities == before.capabilities)
  }

  lemma PrincipalEndpointsKeepGrants(db: Db, admin: Admin, op: AdminOp, env: Env)
    requires Stage(db, admin, op, env).Pass? && !IsBindingOp(op) && !IsSecretOp(op) && !IsCapabilityOp(op)
      && !IsRoleOp(op)
    ensures KeepsGrants(op, db, Stage(db, admin, op, env).value.db)
  {
    hide ActiveWorkspace, RequireWorkspaceIfActivating, RequireAdminWorkspace, RequireSuperAdmin, StageRole,
      StageBinding, StageSecret, StageCapability;
  }

  lemma GrantEndpointsKeepGrants(db: Db, admin: Admin, op: AdminOp, env: Env)
    requires Stage(db, admin, op, env).Pass? && (IsBindingOp(op) || IsSecretOp(op) || IsRoleOp(op))
    ensures KeepsGrants(op, db, Stage(db, admin, op, env).value.db)
  {
    hide ActiveWorkspace, ValidateSecret, ValidateBinding, RequireWorkspaceIfActivating, RequireSecretIfActivating,
      RequireBindingIfActivating,
      RequireAdminWorkspace, RequireSuperAdmin, StageWorkspace, StageApplication, StageUser, StageAgent,
      StageCapability;
  }

  lemma CapabilityEndpointsKeepGrants(db: Db, admin: Admin, op: AdminOp)
    requires IsCapabilityOp(op) && StageCapability(db, admin, op).Pass?
    ensures KeepsGrants(op, db, StageCapability(db, admin, op).value.db)
  {
    hide ActiveWorkspace, ActiveApplication, RequireWorkspaceIfActivating, RequireApplicationIfActivating,
      RequireAdminWorkspace,
      RequireSameWorkspace, CapabilityOf;
  }

  lemma OtherEndpointsKeepGrants(db: Db, admin: Admin, op: AdminOp, env: Env)
    requires Stage(db, admin, op, env).Pass?
    ensures KeepsGrants(op, db, Stage(db, admin, op, env).value.db)
  {
    hide KeepsGrants, StageWorkspace, StageApplication, StageUser, StageAgent, StageCapability, StageRole, StageBinding,
      StageSecret;
    if IsCapabilityOp(op) { CapabilityEndpointsKeepGrants(db, admin, op); }
    else if IsBindingOp(op) || IsSecretOp(op) || IsRoleOp(op) { GrantEndpointsKeepGrants(db, admin, op, env); }
    else { PrincipalEndpointsKeepGrants(db, admin, op, env); }
  }

  /** A secret becomes active, by creation, rotation or update, only while its workspace, application and owner are;
      no other endpoint activates one. */
  lemma ActivatedSecretIsSupported(store: Store, admin: Admin, op: AdminOp, env: Env, k: Id)
    requires Inv(store.db)
    requires var after := Step(store, admin, op, env).0.db;
      && k in after.secrets && after.secrets[k].status.Live?
      && !(k in store.db.secrets && store.db.secrets[k].status.Live?)
    ensures IsSecretOp(op)
    ensures SecretSupported(store.db, Step(store, admin, op, env).0.db.secrets[k])
  {
    hide Accepts, StageWorkspace, StageApplication, StageUser, StageAgent, StageCapability, StageRole, StageBinding,
      ValidateBinding, ValidateSecret, Inv;
    if !IsSecretOp(op) && Stage(store.db, admin, op, env).Pass? {
      OtherEndpointsKeepGrants(store.db, admin, op, env);
    }
    var row := Step(store, admin, op, env).0.db.secrets[k];
    ValidatedSecretSupported(store.db, row);
  }

  lemma ValidatedSecretSupported(db: Db, row: Secret)
    requires Inv(db)
    ensures ValidateSecret(db, row.workspace, row.application, row.ownerType, row.owner).Pass? ==>
      SecretSupported(db, row)
  {
    hide Accepts;
  }

  /** A capability becomes active only while its workspace and application are; only its own endpoints activate one. */
  lemma ActivatedCapabilityIsSupported(store: Store, admin: Admin, op: AdminOp, env: Env, k: string)
    requires Inv(store.db)
    requires var after := Step(store, admin, op, env).0.db;
      && k in after.capabilities && after.capabilities[k].status.Active?
      && !(k in store.db.capabilities && store.db.capabilities[k].status.Active?)
    ensures IsCapabilityOp(op)
    ensures CapabilitySupported(store.db, Step(store, admin, op, env).0.db.capabilities[k])
  {
    hide Accepts, Inv, StageWorkspace, StageApplication, StageUser, StageAgent, StageCapability, StageRole,
      StageBinding, StageSecret;
    if !IsCapabilityOp(op) {
      if Stage(store.db, admin, op, env).Pass? { OtherEndpointsKeepGrants(store.db, admin, op, env); }
    } else {
      StagedCapabilityIsSupported(store.db, admin, op, k);
    }
  }

  lemma StagedCapabilityIsSupported(db: Db, admin: Admin, op: AdminOp, k: string)
    requires Inv(db) && IsCapabilityOp(op) && StageCapability(db, admin, op).Pass?
    requires var after := StageCapability(db, admin, op).value.db;
      && k in after.capabilities && after.capabilities[k].status.Active?
      && !(k in db.capabilities && db.capabilities[k].status.Active?)
    ensures CapabilitySupported(db, StageCapability(db, admin, op).value.db.capabilities[k])
  {
    hide Accepts, BindingsOk, SecretsOk;
  }

  /** The row an update addresses is there and active. */
  predicate TargetActive(db: Db, op: AdminOp) {
    match op
    case UpdateWorkspace(k, _) => k in db.workspaces && db.workspaces[k].status.Active?
    case UpdateApplication(k, _) => k in db.applications && db.applications[k].status.Active?
    case UpdateUser(k, _) => k in db.users && db.users[k].status.Active?
    case UpdateAgent(k, _) => k in db.agents && db.agents[k].status.Active?
    case UpdateCapability(k, _) => k in db.capabilities && db.capabilities[k].status.Active?
    case UpdateRole(k, _) => k in db.roles && db.roles[k].status.Active?
    case UpdateBinding(k, _) => k in db.bindings && db.bindings[k].status.Active?
    case _ => false
  }

  predicate IsStatusUpdate(op: AdminOp) {
    op.UpdateWorkspace? || op.UpdateApplication? || op.UpdateUser? || op.UpdateAgent? || op.UpdateCapability?
      || op.UpdateRole? || op.UpdateBinding?
  }

  function WithStatus(op: AdminOp, status: Status): AdminOp
    requires IsStatusUpdate(op)
  {
    match op
    case UpdateWorkspace(k, _) => UpdateWorkspace(k, status)
    case UpdateApplication(k, _) => UpdateApplication(k, status)
    case UpdateUser(k, _) => UpdateUser(k, status)
    case UpdateAgent(k, _) => UpdateAgent(k, status)
    case UpdateCapability(k, _) => UpdateCapability(k, status)
    case UpdateRole(k, _) => UpdateRole(k, status)
    case UpdateBinding(k, _) => UpdateBinding(k, status)
  }

  lemma HomeRestored(store: Store, admin: Admin, op: AdminOp, env: Env)
    requires (op.UpdateWorkspace? || op.UpdateApplication? || op.UpdateUser?) && TargetActive(store.db, op)
    requires Step(store, admin, WithStatus(op, Disabled), env).1.Done?
    requires var disabled := Step(store, admin, WithStatus(op, Disabled), env).0;
      Step(disabled, admin, WithStatus(op, Active), env).1.Done?
    ensures var disabled := Step(store, admin, WithStatus(op, Disabled), env).0;
      !TargetActive(disabled.db, op) && Step(disabled, admin, WithStatus(op, Active), env).0.db == store.db
  {
    hide Accepts, ValidateBinding, ActiveWorkspace, ActiveApplication, RequireAdminWorkspace,
      StageAgent, StageRole, StageCapability, StageBinding, StageSecret;
  }

  lemma PrincipalRestored(store: Store, admin: Admin, op: AdminOp, env: Env)
    requires (op.UpdateAgent? || op.UpdateRole?) && TargetActive(store.db, op)
    requires Step(store, admin, WithStatus(op, Disabled), env).1.Done?
    requires var disabled := Step(store, admin, WithStatus(op, Disabled), env).0;
      Step(disabled, admin, WithStatus(op, Active), env).1.Done?
    ensures var disabled := Step(store, admin, WithStatus(op, Disabled), env).0;
      !TargetActive(disabled.db, op) && Step(disabled, admin, WithStatus(op, Active), env).0.db == store.db
  {
    hide Accepts, ValidateBinding, ActiveWorkspace, ActiveApplication, RequireAdminWorkspace,
      StageWorkspace, StageApplication, StageUser, StageCapability, StageBinding, StageSecret;
  }

  lemma GrantRestored(store: Store, admin: Admin, op: AdminOp, env: Env)
    requires (op.UpdateCapability? || op.UpdateBinding?) && TargetActive(store.db, op)
    requires Step(store, admin, WithStatus(op, Disabled), env).1.Done?
    requires var disabled := Step(store, admin, WithStatus(op, Disabled), env).0;
      Step(disabled, admin, WithStatus(op, Active), env).1.Done?
    ensures var disabled := Step(store, admin, WithStatus(op, Disabled), env).0;
      !TargetActive(disabled.db, op) && Step(disabled, admin, WithStatus(op, Active), env).0.db == store.db
  {
    hide Accepts, ValidateBinding, ActiveWorkspace, ActiveApplication, RequireAdminWorkspace,
      StageWorkspace, StageApplication, StageUser, StageAgent, StageRole, StageSecret;
  }

  /** Switching an active row off and on again restores every table, and leaves it off in between. */
  lemma DisableThenEnableRestores(store: Store, admin: Admin, op: AdminOp, env: Env)
    requires IsStatusUpdate(op) && TargetActive(store.db, op)
    requires Step(store, admin, WithStatus(op, Disabled), env).1.Done?
    requires var disabled := Step(store, admin, WithStatus(op, Disabled), env).0;
      Step(disabled, admin, WithStatus(op, Active), env).1.Done?
    ensures var disabled := Step(store, admin, WithStatus(op, Disabled), env).0;
      !TargetActive(disabled.db, op) && Step(disabled, admin, WithStatus(op, Active), env).0.db == store.db
  {
    hide Step, TargetActive, WithStatus;
    if op.UpdateWorkspace? || op.UpdateApplication? || op.UpdateUser? { HomeRestored(store, admin, op, env); }
    else if op.UpdateAgent? || op.UpdateRole? { PrincipalRestored(store, admin, op, env); }
    else { GrantRestored(store, admin, op, env); }
  }

  // ----- The frame of a scoped admin -----

  /** The rows that belong to other workspaces. */
  ghost function Outside(db: Db, own: Id): Db {
    Db(map k | k in db.workspaces && k != own :: db.workspaces[k],
       map k | k in db.applications && db.applications[k].workspace != own :: db.applications[k],
       map k | k in db.agents && db.agents[k].workspace != own :: db.agents[k],
       map k | k in db.users && db.users[k].workspace != own :: db.users[k],
       map k | k in db.capabilities && db.capabilities[k].workspace != own :: db.capabilities[k],
       map k | k in db.roles && db.roles[k].workspace != own :: db.roles[k],
       {},
       set p | p in db.rolePermissions && p.0 in db.roles && db.roles[p.0].workspace != own,
       map k | k in db.bindings && db.bindings[k].workspace != own :: db.bindings[k],
       map k | k in db.secrets && db.secrets[k].workspace != own :: db.secrets[k])
  }

  /** A scoped admin's calls leave every row owned by another workspace as it was. */
  lemma ScopedAdminStaysInside(store: Store, admin: Admin, own: Id, op: AdminOp, env: Env)
    requires Inv(store.db) && admin.workspace == Some(own)
    ensures Outside(Step(store, admin, op, env).0.db, own) == Outside(store.db, own)
  {
    hide Accepts, Inv, Outside, Stage;
    var staged := Stage(store.db, admin, op, env);
    if staged.Pass? && staged.value.keyFree && Accepts(staged.value.db) {
      StageStaysInside(store.db, admin, own, op, env);
    }
  }

  lemma WorkspaceStaysInside(db: Db, admin: Admin, own: Id, op: AdminOp, env: Env)
    requires admin.workspace == Some(own) && (op.CreateWorkspace? || op.UpdateWorkspace?)
    requires StageWorkspace(db, admin, op, env).Pass? && StageWorkspace(db, admin, op, env).value.keyFree
    ensures Outside(StageWorkspace(db, admin, op, env).value.db, own) == Outside(db, own)
  {
  }

  lemma ApplicationStaysInside(db: Db, admin: Admin, own: Id, op: AdminOp, env: Env)
    requires admin.workspace == Some(own) && (op.CreateApplication? || op.UpdateApplication?)
    requires StageApplication(db, admin, op, env).Pass? && StageApplication(db, admin, op, env).value.keyFree
    ensures Outside(StageApplication(db, admin, op, env).value.db, own) == Outside(db, own)
  {
  }

  lemma UserStaysInside(db: Db, admin: Admin, own: Id, op: AdminOp, env: Env)
    requires admin.workspace == Some(own) && (op.CreateUser? || op.UpdateUser?)
    requires StageUser(db, admin, op, env).Pass? && StageUser(db, admin, op, env).value.keyFree
    ensures Outside(StageUser(db, admin, op, env).value.db, own) == Outside(db, own)
  {
  }

  lemma AgentStaysInside(db: Db, admin: Admin, own: Id, op: AdminOp, env: Env)
    requires admin.workspace == Some(own) && (op.CreateAgent? || op.UpdateAgent? || op.RotateAgentToken?)
    requires StageAgent(db, admin, op, env).Pass? && StageAgent(db, admin, op, env).value.keyFree
    ensures Outside(StageAgent(db, admin, op, env).value.db, own) == Outside(db, own)
  {
  }

  lemma PutCapabilityStaysInside(db: Db, own: Id, k: string, row: Capability)
    requires row.workspace == own && (k in db.capabilities ==> db.capabilities[k].workspace == own)
    ensures Outside(db.(capabilities := db.capabilities[k := row]), own) == Outside(db, own)
  {
  }

  lemma CapabilityStaysInside(db: Db, admin: Admin, own: Id, op: AdminOp)
    requires admin.workspace == Some(own) && IsCapabilityOp(op)
    requires StageCapability(db, admin, op).Pass? && StageCapability(db, admin, op).value.keyFree
    ensures Outside(StageCapability(db, admin, op).value.db, own) == Outside(db, own)
  {
    hide Outside, ActiveWorkspace, ActiveApplication, RequireApplicationIfActivating, RequireWorkspaceIfActivating,
      RequireSameWorkspace;
    match op
    case CreateCapability(row, _, _) => PutCapabilityStaysInside(db, own, row.id, row);
    case CreateCapabilityFromTemplate(t, _, w, a, i, n, v, st) =>
      var row := CapabilityOf(t.value, w, a, i, n, v, st);
      PutCapabilityStaysInside(db, own, row.id, row);
    case UpdateCapability(k, status) =>
      PutCapabilityStaysInside(db, own, k, db.capabilities[k].(status := status));
  }

  lemma RoleStaysInside(db: Db, admin: Admin, own: Id, op: AdminOp, env: Env)
    requires RolePermissionsOk(db) && admin.workspace == Some(own)
      && (op.CreatePermission? || op.CreateRole? || op.UpdateRole?)
    requires StageRole(db, admin, op, env).Pass? && StageRole(db, admin, op, env).value.keyFree
    ensures Outside(StageRole(db, admin, op, env).value.db, own) == Outside(db, own)
  {
  }

  lemma BindingStaysInside(db: Db, admin: Admin, own: Id, op: AdminOp, env: Env)
    requires admin.workspace == Some(own) && (op.CreateBinding? || op.UpdateBinding?)
    requires StageBinding(db, admin, op, env).Pass? && StageBinding(db, admin, op, env).value.keyFree
    ensures Outside(StageBinding(db, admin, op, env).value.db, own) == Outside(db, own)
  {
    hide ValidateBinding, RequireBindingIfActivating;
  }

  lemma SecretStaysInside(db: Db, admin: Admin, own: Id, op: AdminOp, env: Env)
    requires admin.workspace == Some(own) && (op.CreateSecret? || op.UpdateSecret? || op.RotateSecret?)
    requires StageSecret(db, admin, op, env).Pass? && StageSecret(db, admin, op, env).value.keyFree
    ensures Outside(StageSecret(db, admin, op, env).value.db, own) == Outside(db, own)
  {
    hide ValidateSecret, RequireSecretIfActivating;
  }

  lemma StageStaysInside(db: Db, admin: Admin, own: Id, op: AdminOp, env: Env)
    requires Inv(db) && admin.workspace == Some(own)
    requires Stage(db, admin, op, env).Pass? && Stage(db, admin, op, env).value.keyFree
    ensures Outside(Stage(db, admin, op, env).value.db, own) == Outside(db, own)
  {
    hide Accepts, Outside, StageWorkspace, StageApplication, StageUser, StageAgent, StageCapability, StageRole,
      StageBinding, StageSecret;
    if op.CreateWorkspace? || op.UpdateWorkspace? { WorkspaceStaysInside(db, admin, own, op, env); }
    else if op.CreateApplication? || op.UpdateApplication? { ApplicationStaysInside(db, admin, own, op, env); }
    else if op.CreateUser? || op.UpdateUser? { UserStaysInside(db, admin, own, op, env); }
    else if op.CreateAgent? || op.UpdateAgent? || op.RotateAgentToken? { AgentStaysInside(db, admin, own, op, env); }
    else if IsCapabilityOp(op) { CapabilityStaysInside(db, admin, own, op); }
    else if op.CreatePermission? || op.CreateRole? || op.UpdateRole? { RoleStaysInside(db, admin, own, op, env); }
    else if op.CreateBinding? || op.UpdateBinding? { BindingStaysInside(db, admin, own, op, env); }
    else { SecretStaysInside(db, admin, own, op, env); }
  }
}
