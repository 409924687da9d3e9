/** The uniqueness the database enforces (src/grantora/db/models.py) and what the endpoints keep on top of it. */
module Constraints {
  import opened Tables

  // ----- Unique constraints and partial unique indexes, checked at flush -----

  predicate UniqueWorkspaces(db: Db) {
    forall a, b :: a in db.workspaces && b in db.workspaces && a != b ==> db.workspaces[a].slug != db.workspaces[b].slug
  }

  predicate UniqueApplications(db: Db) {
    forall a, b :: a in db.applications && b in db.applications && a != b ==>
      db.applications[a].workspace != db.applications[b].workspace || db.applications[a].slug != db.applications[b].slug
  }

  predicate UniqueUsers(db: Db) {
    forall a, b :: a in db.users && b in db.users && a != b ==>
      db.users[a].workspace != db.users[b].workspace || db.users[a].externalId != db.users[b].externalId
  }

  predicate UniqueAgents(db: Db) {
    forall a, b :: a in db.agents && b in db.agents && a != b ==> (
      && (db.agents[a].workspace != db.agents[b].workspace || db.agents[a].slug != db.agents[b].slug)
      && db.agents[a].tokenHash != db.agents[b].tokenHash)
  }

  predicate UniqueRoles(db: Db) {
    forall a, b :: a in db.roles && b in db.roles && a != b ==>
      db.roles[a].workspace != db.roles[b].workspace || db.roles[a].slug != db.roles[b].slug
  }

  predicate SameBindingKey(a: Binding, b: Binding) {
    a.workspace == b.workspace && a.agent == b.agent && a.user == b.user && a.capability == b.capability
  }

  /** uq_bindings_active_lookup, where status = 'active' */
  predicate UniqueActiveBindings(db: Db) {
    forall a, b :: a in db.bindings && b in db.bindings && a != b
      && db.bindings[a].status.Active? && db.bindings[b].status.Active?
      ==> !SameBindingKey(db.bindings[a], db.bindings[b])
  }

  predicate SameSecretKey(a: Secret, b: Secret) {
    a.workspace == b.workspace && a.application == b.application && a.ownerType == b.ownerType && a.owner == b.owner
  }

  /** uq_secrets_active_owner, where status = 'active' */
  predicate UniqueActiveSecrets(db: Db) {
    forall a, b :: a in db.secrets && b in db.secrets && a != b
      && db.secrets[a].status.Live? && db.secrets[b].status.Live?
      ==> !SameSecretKey(db.secrets[a], db.secrets[b])
  }

  predicate Accepts(db: Db) {
    && UniqueWorkspaces(db) && UniqueApplications(db) && UniqueUsers(db) && UniqueAgents(db) && UniqueRoles(db)
    && UniqueActiveBindings(db) && UniqueActiveSecrets(db)
  }

  // ----- What the endpoints keep: references exist and stay inside one workspace -----

  predicate ApplicationsOk(db: Db) {
    forall k :: k in db.applications ==> db.applications[k].workspace in db.workspaces
  }

  predicate UsersOk(db: Db) {
    forall k :: k in db.users ==> db.users[k].workspace in db.workspaces
  }

  predicate AgentsOk(db: Db) {
    forall k :: k in db.agents ==> db.agents[k].workspace in db.workspaces
  }

  predicate RolesOk(db: Db) {
    forall k :: k in db.roles ==> db.roles[k].workspace in db.workspaces
  }

  predicate CapabilityOk(db: Db, row: Capability) {
    && row.workspace in db.workspaces
    && row.application in db.applications
    && db.applications[row.application].workspace == row.workspace
    && db.applications[row.application].provider == row.provider
  }

  predicate CapabilitiesOk(db: Db) {
    forall k :: k in db.capabilities ==> db.capabilities[k].id == k && CapabilityOk(db, db.capabilities[k])
  }

  predicate RolePermissionsOk(db: Db) {
    forall p :: p in db.rolePermissions ==> p.0 in db.roles && p.1 in db.permissions
  }

  predicate BindingOk(db: Db, row: Binding) {
    && row.workspace in db.workspaces
    && row.agent in db.agents && db.agents[row.agent].workspace == row.workspace
    && row.user in db.users && db.users[row.user].workspace == row.workspace
    && row.capability in db.capabilities && db.capabilities[row.capability].workspace == row.workspace
    && row.role in db.roles && db.roles[row.role].workspace == row.workspace
  }

  predicate BindingsOk(db: Db) {
    forall k :: k in db.bindings ==> BindingOk(db, db.bindings[k])
  }

  predicate OwnerOk(db: Db, row: Secret) {
    match row.ownerType
    case WorkspaceOwner => row.owner == row.workspace
    case UserOwner => row.owner in db.users && db.users[row.owner].workspace == row.workspace
    case AgentOwner => row.owner in db.agents && db.agents[row.owner].workspace == row.workspace
  }

  predicate SecretOk(db: Db, row: Secret) {
    && row.workspace in db.workspaces
    && row.application in db.applications && db.applications[row.application].workspace == row.workspace
    && OwnerOk(db, row)
  }

  predicate SecretsOk(db: Db) {
    forall k :: k in db.secrets ==> SecretOk(db, db.secrets[k])
  }

  /** Every reference resolves, and resolves inside the row's own workspace. */
  predicate WellReferenced(db: Db) {
    && ApplicationsOk(db) && UsersOk(db) && AgentsOk(db) && RolesOk(db) && CapabilitiesOk(db)
    && RolePermissionsOk(db) && BindingsOk(db) && SecretsOk(db)
  }

  const EMPTY_DB := Db(map[], map[], map[], map[], map[], map[], {}, {}, map[], map[])

  // ----- Growing or touching up the tables that others refer to -----

  /** Rows stay, and keep the columns other rows depend on. */
  ghost predicate KeepsReferences(before: Db, after: Db) {
    && before.workspaces.Keys <= after.workspaces.Keys
    && (forall k :: k in before.applications ==> (
          && k in after.applications && after.applications[k].workspace == before.applications[k].workspace
          && after.applications[k].provider == before.applications[k].provider))
    && (forall k :: k in before.users ==> k in after.users && after.users[k].workspace == before.users[k].workspace)
    && (forall k :: k in before.agents ==> k in after.agents && after.agents[k].workspace == before.agents[k].workspace)
    && (forall k :: k in before.roles ==> k in after.roles && after.roles[k].workspace == before.roles[k].workspace)
    && (forall k :: k in before.capabilities ==> (
          k in after.capabilities && after.capabilities[k].workspace == before.capabilities[k].workspace))
    && before.permissions <= after.permissions
  }

  lemma BindingOkKept(before: Db, after: Db, row: Binding)
    requires KeepsReferences(before, after) && BindingOk(before, row)
    ensures BindingOk(after, row)
  {
  }

  lemma SecretOkKept(before: Db, after: Db, row: Secret)
    requires KeepsReferences(before, after) && SecretOk(before, row)
    ensures SecretOk(after, row)
  {
  }

  lemma CapabilityOkKept(before: Db, after: Db, row: Capability)
    requires KeepsReferences(before, after) && CapabilityOk(before, row)
    ensures CapabilityOk(after, row)
  {
  }
}
