/** What a completed seeding leaves behind, on any database (src/grantora/cli/demo_workflow.py). */
module DemoReady {
  import opened Prelude
  import opened Tables
  import opened AdminOps
  import opened Constraints
  import opened AdminRuns
  import opened Queries
  import opened Invocation
  import opened DemoSeed

  // ----- Creating rows touches no other row -----

  ghost predicate GrowsTables(before: Db, after: Db) {
    && (forall k :: k in before.workspaces ==> k in after.workspaces && after.workspaces[k] == before.workspaces[k])
    && (forall k :: k in before.applications ==>
          k in after.applications && after.applications[k] == before.applications[k])
    && (forall k :: k in before.agents ==> k in after.agents && after.agents[k] == before.agents[k])
    && (forall k :: k in before.users ==> k in after.users && after.users[k] == before.users[k])
    && (forall k :: k in before.capabilities ==>
          k in after.capabilities && after.capabilities[k] == before.capabilities[k])
  }

  ghost predicate GrowsGrants(before: Db, after: Db) {
    && (forall k :: k in before.roles ==> k in after.roles && after.roles[k] == before.roles[k])
    && before.permissions <= after.permissions && before.rolePermissions <= after.rolePermissions
    && (forall k :: k in before.bindings ==> k in after.bindings && after.bindings[k] == before.bindings[k])
    && (forall k :: k in before.secrets ==> k in after.secrets && after.secrets[k] == before.secrets[k])
  }

  ghost predicate Grows(before: Db, after: Db) {
    GrowsTables(before, after) && GrowsGrants(before, after)
  }

  lemma BaseGrows(db: Db, cfg: Config, slot: Slot, ids: Objects, env: Env)
    requires slot in {WorkspaceSlot, ApplicationSlot, UserSlot}
    ensures var staged := Stage(db, SUPER, Creation(cfg, slot, ids), env);
      staged.Pass? && staged.value.keyFree ==> Grows(db, staged.value.db)
  {
    hide StageAgent, StageCapability, StageRole, StageBinding, StageSecret, ActiveWorkspace,
      ActiveApplication, RequireAdminWorkspace, RequireSameWorkspace, RequireSuperAdmin, ValidateBinding,
      ValidateSecret;
  }

  lemma CapabilityGrows(db: Db, cfg: Config, slot: Slot, ids: Objects, env: Env)
    requires slot in {CapabilitySlot, AgentSlot}
    ensures var staged := Stage(db, SUPER, Creation(cfg, slot, ids), env);
      staged.Pass? && staged.value.keyFree ==> Grows(db, staged.value.db)
  {
    hide StageWorkspace, StageApplication, StageUser, StageRole, StageBinding, StageSecret, ActiveWorkspace,
      ActiveApplication, RequireAdminWorkspace, RequireSameWorkspace, RequireSuperAdmin, ValidateBinding,
      ValidateSecret;
  }

  lemma GrantsGrow(db: Db, cfg: Config, slot: Slot, ids: Objects, env: Env)
    requires slot in {RoleSlot, BindingSlot, SecretSlot}
    ensures var staged := Stage(db, SUPER, Creation(cfg, slot, ids), env);
      staged.Pass? && staged.value.keyFree ==> Grows(db, staged.value.db)
  {
    hide StageWorkspace, StageApplication, StageUser, StageAgent, StageCapability, ActiveWorkspace,
      ActiveApplication, RequireAdminWorkspace, RequireSameWorkspace, RequireSuperAdmin, ValidateBinding,
      ValidateSecret;
  }

  lemma CreationGrows(db: Db, cfg: Config, slot: Slot, ids: Objects, env: Env)
    requires slot != PermissionSlot
    ensures var staged := Stage(db, SUPER, Creation(cfg, slot, ids), env);
      staged.Pass? && staged.value.keyFree ==> Grows(db, staged.value.db)
  {
    hide Stage, Creation, Grows;
    if slot in {WorkspaceSlot, ApplicationSlot, UserSlot} { BaseGrows(db, cfg, slot, ids, env); }
    else if slot in {CapabilitySlot, AgentSlot} { CapabilityGrows(db, cfg, slot, ids, env); }
    else { GrantsGrow(db, cfg, slot, ids, env); }
  }

  lemma EnsureGrows(s: Session, cfg: Config, slot: Slot, net: nat -> Net)
    ensures Grows(s.store.db, Ensure(s, cfg, slot, net).store.db)
  {
    hide Grows, Stage, Creation, Accepts, Matching, Usable, Learn;
    GrowsByPermissions(s.store.db);
    if slot != PermissionSlot { CreationGrows(s.store.db, cfg, slot, s.ids, net(s.clock + 1).env); }
  }

  lemma GrowsByPermissions(db: Db)
    ensures Grows(db, db) && Grows(db, db.(permissions := db.permissions + DEFAULT_PERMISSIONS))
  {
  }

  // ----- A step that succeeds ends in the row wanted -----

  /** The row of a step is there as configured and usable, with the rows it belongs to. */
  ghost predicate Wanted(cfg: Config, slot: Slot, db: Db, ids: Objects) {
    match slot
    case WorkspaceSlot =>
      && ids.workspace in db.workspaces
      && var row := db.workspaces[ids.workspace]; row.slug == cfg.workspaceSlug && row.status == Active
    case ApplicationSlot =>
      && ids.application in db.applications
      && var row := db.applications[ids.application];
         && row.workspace == ids.workspace && row.slug == cfg.applicationSlug && row.provider == cfg.provider
         && row.status == Active
    case UserSlot =>
      && ids.user in db.users
      && var row := db.users[ids.user];
         row.workspace == ids.workspace && row.externalId == cfg.userExternalId && row.status == Active
    case CapabilitySlot =>
      && cfg.capability in db.capabilities
      && var row := db.capabilities[cfg.capability];
         && row.workspace == ids.workspace && row.application == ids.application && row.status == Active
         && row.provider == row.adapter == cfg.provider && row.operation == "phonebook.search"
         && row.authMode == UserAuth && row.risk == ReadOnly
    case PermissionSlot => forall code :: code in cfg.permissions ==> code in db.permissions
    case RoleSlot =>
      && ids.role in db.roles
      && var row := db.roles[ids.role];
         && row.workspace == ids.workspace && row.slug == cfg.roleSlug && row.status == Active
         && forall code :: code in cfg.permissions ==> (ids.role, code) in db.rolePermissions
    case AgentSlot =>
      && ids.agent in db.agents
      && var row := db.agents[ids.agent];
         row.workspace == ids.workspace && row.slug == cfg.agentSlug && row.status == Active
    case BindingSlot =>
      && ids.binding in db.bindings
      && db.bindings[ids.binding] == Binding(ids.workspace, ids.agent, ids.user, cfg.capability, ids.role, Active)
    case SecretSlot =>
      && ids.secret in db.secrets
      && var row := db.secrets[ids.secret];
         && row.workspace == ids.workspace && row.application == ids.application && row.ownerType == UserOwner
         && row.owner == ids.user && row.status == Live
  }

  lemma FoundIsWanted(cfg: Config, slot: Slot, db: Db, ids: Objects, found: Id)
    requires found in Matching(cfg, slot, db, ids) && Usable(cfg, slot, db, ids, found)
    ensures Wanted(cfg, slot, db, Learn(slot, ids, found))
  {
  }

  lemma CreatedIsWanted(cfg: Config, slot: Slot, db: Db, ids: Objects, env: Env)
    requires slot != PermissionSlot
    ensures var staged := Stage(db, SUPER, Creation(cfg, slot, ids), env);
      staged.Pass? ==> Wanted(cfg, slot, staged.value.db, Learn(slot, ids, env.nextId))
  {
    hide ValidateBinding, ValidateSecret, ActiveWorkspace, ActiveApplication, RequireAdminWorkspace,
      RequireSameWorkspace, RequireSuperAdmin;
  }

  lemma EnsureWants(s: Session, cfg: Config, slot: Slot, net: nat -> Net)
    requires s.failed.None?
    ensures var t := Ensure(s, cfg, slot, net); t.failed.None? ==> Wanted(cfg, slot, t.store.db, t.ids)
  {
    hide Wanted, Stage, Creation, Accepts, Matching, Usable, Learn;
    var read := Read(s, slot, net(s.clock));
    var matching := Matching(cfg, slot, read.store.db, read.ids);
    if matching != {} && Usable(cfg, slot, read.store.db, read.ids, Smallest(matching)) {
      FoundIsWanted(cfg, slot, read.store.db, read.ids, Smallest(matching));
    }
    if slot == PermissionSlot {
      assert matching == {0} by { PermissionsMatch(cfg, read.store.db, read.ids); }
    } else {
      CreatedIsWanted(cfg, slot, s.store.db, s.ids, net(s.clock + 1).env);
    }
  }

  lemma PermissionsMatch(cfg: Config, db: Db, ids: Objects)
    ensures Matching(cfg, PermissionSlot, db, ids) == {0}
  {
  }

  // ----- What earlier steps have reached lasts -----

  lemma WantedLasts(cfg: Config, slot: Slot, before: Db, after: Db, ids: Objects)
    requires Wanted(cfg, slot, before, ids) && Grows(before, after)
    ensures Wanted(cfg, slot, after, ids)
  {
  }

  ghost predicate AllWanted(cfg: Config, db: Db, ids: Objects, i: nat)
    requires i <= |SLOTS|
  {
    forall j :: 0 <= j < i ==> Wanted(cfg, SLOTS[j], db, ids)
  }

  /** A later step learns no id an earlier one rests on. */
  lemma LearningLasts(cfg: Config, db: Db, ids: Objects, i: nat, j: nat, id: Id)
    requires j < i < |SLOTS| && Wanted(cfg, SLOTS[j], db, ids)
    ensures Wanted(cfg, SLOTS[j], db, Learn(SLOTS[i], ids, id))
  {
  }

  lemma EnsureLearns(s: Session, cfg: Config, slot: Slot, net: nat -> Net) returns (id: Id)
    ensures var t := Ensure(s, cfg, slot, net); t.ids == s.ids || t.ids == Learn(slot, s.ids, id)
  {
    hide Stage, Creation, Accepts, Matching, Usable, Learn;
    var read := Read(s, slot, net(s.clock));
    var matching := Matching(cfg, slot, read.store.db, read.ids);
    id := if matching != {} then Smallest(matching) else net(s.clock + 1).env.nextId;
  }

  lemma {:induction false} RunWants(s: Session, cfg: Config, i: nat, net: nat -> Net)
    requires i <= |SLOTS| && s.failed.None? && AllWanted(cfg, s.store.db, s.ids, i)
    ensures var t := SeedFrom(s, cfg, i, net); t.failed.None? ==> AllWanted(cfg, t.store.db, t.ids, |SLOTS|)
    decreases |SLOTS| - i
  {
    hide Wanted, Ensure, Learn, Grows;
    if i < |SLOTS| {
      var t := Ensure(s, cfg, SLOTS[i], net);
      var id := EnsureLearns(s, cfg, SLOTS[i], net);
      EnsureGrows(s, cfg, SLOTS[i], net);
      EnsureWants(s, cfg, SLOTS[i], net);
      if t.failed.None? {
        forall j: nat | j < i ensures Wanted(cfg, SLOTS[j], t.store.db, t.ids) {
          WantedLasts(cfg, SLOTS[j], s.store.db, t.store.db, s.ids);
          LearningLasts(cfg, t.store.db, s.ids, i, j, id);
        }
        RunWants(t, cfg, i + 1, net);
      } else {
        assert SeedFrom(t, cfg, i + 1, net) == t;
      }
    }
  }

  /** A run that completes, on whatever database it started, leaves every object as configured, found or created,
      active, and belonging to the others. */
  lemma SeededIsAsConfigured(store: Store, cfg: Config, net: nat -> Net)
    requires Seed(store, cfg, net).failed.None?
    ensures AllWanted(cfg, Seed(store, cfg, net).store.db, Seed(store, cfg, net).ids, |SLOTS|)
  {
    hide Wanted, SeedFrom;
    RunWants(Session(store, 0, NOTHING, 0, None, Unknown), cfg, 0, net);
  }

  // ----- The demo works -----

  lemma StepKeepsSound(store: Store, op: AdminOp, env: Env)
    requires Inv(store.db)
    ensures Inv(Step(store, SUPER, op, env).0.db)
  {
    hide Inv, Stage, Accepts;
    PerformKeepsInv(store, Mutate(SUPER, op, env));
  }

  lemma EnsureKeepsSound(s: Session, cfg: Config, slot: Slot, net: nat -> Net)
    requires Inv(s.store.db)
    ensures Inv(Ensure(s, cfg, slot, net).store.db)
  {
    hide Inv, Step, Creation, Matching, Usable, Learn;
    PerformKeepsInv(s.store, ListPermissions);
    if slot != PermissionSlot { StepKeepsSound(s.store, Creation(cfg, slot, s.ids), net(s.clock + 1).env); }
  }

  lemma {:induction false} RunKeepsSound(s: Session, cfg: Config, i: nat, net: nat -> Net)
    requires i <= |SLOTS| && Inv(s.store.db)
    ensures Inv(SeedFrom(s, cfg, i, net).store.db)
    decreases |SLOTS| - i
  {
    hide Inv, Ensure;
    if i < |SLOTS| && s.failed.None? {
      EnsureKeepsSound(s, cfg, SLOTS[i], net);
      RunKeepsSound(Ensure(s, cfg, SLOTS[i], net), cfg, i + 1, net);
    }
  }

  /** After a completed run the demo user can call the demo capability through the demo agent, if the configured
      permissions include the two a read-only call takes, and the call finds the demo secret. */
  lemma SeededDemoIsCallable(store: Store, cfg: Config, net: nat -> Net, unseal: string -> Option<string>)
    requires Inv(store.db) && Seed(store, cfg, net).failed.None?
    requires "capability.describe" in cfg.permissions && "capability.invoke.read_only" in cfg.permissions
    ensures var t := Seed(store, cfg, net);
      && ActiveSelectedUser(t.store.db, t.ids.workspace, cfg.userExternalId) == Some(t.ids.user)
      && Authorize(t.store.db, t.ids.workspace, t.ids.agent, t.ids.user, cfg.capability).Some?
      && t.ids.secret in t.store.db.secrets && cfg.capability in t.store.db.capabilities
      && var secret := t.store.db.secrets[t.ids.secret];
         ResolveSecret(t.store.db, t.store.db.capabilities[cfg.capability], t.ids.user, unseal) ==
           match unseal(secret.cipher)
           case None => Err("secret_unavailable")
           case Some(value) => Ok(SecretMaterial(secret.secretType, value))
  {
    hide Inv, SeedFrom, Authorize, ResolveSecret, ActiveSelectedUser, SelectedUser;
    var t := Seed(store, cfg, net);
    RunKeepsSound(Session(store, 0, NOTHING, 0, None, Unknown), cfg, 0, net);
    SeededIsAsConfigured(store, cfg, net);
    var db := t.store.db;
    SoundParts(db);
    assert forall j :: 0 <= j < 9 ==> Wanted(cfg, SLOTS[j], db, t.ids);
    assert Wanted(cfg, SLOTS[0], db, t.ids) && Wanted(cfg, SLOTS[1], db, t.ids) && Wanted(cfg, SLOTS[2], db, t.ids);
    assert Wanted(cfg, SLOTS[3], db, t.ids) && Wanted(cfg, SLOTS[5], db, t.ids) && Wanted(cfg, SLOTS[6], db, t.ids);
    assert Wanted(cfg, SLOTS[7], db, t.ids) && Wanted(cfg, SLOTS[8], db, t.ids);
    SelectedUserIff(db, t.ids.workspace, cfg.userExternalId, t.ids.user);
    assert Authorizes(db, t.ids.workspace, t.ids.agent, t.ids.user, cfg.capability, t.ids.binding);
    AuthorizedIff(db, t.ids.workspace, t.ids.agent, t.ids.user, cfg.capability);
    assert OwnedSecret(db, db.capabilities[cfg.capability], t.ids.user, db.secrets[t.ids.secret]);
    ResolvedSecretIsTheOwners(db, db.capabilities[cfg.capability], t.ids.user, unseal);
  }

  lemma SoundParts(db: Db)
    requires Inv(db)
    ensures KeyedCapabilities(db) && UniqueUsers(db) && UniqueActiveBindings(db) && UniqueActiveSecrets(db)
  {
  }
}
