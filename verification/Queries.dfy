/** The runtime queries (src/grantora/db/queries.py) and the two ways a request is authorized:
    discovery lists what may be called, invocation checks one call (src/grantora/api/runtime.py). */
module Queries {
  import opened Prelude
  import opened Text
  import opened Tables
  import opened AdminOps
  import opened Constraints

  // ----- Result rows in a definite order -----

  predicate IsSmallest(m: Id, ids: set<Id>) {
    m in ids && forall x :: x in ids ==> m <= x
  }

  lemma {:induction false} SmallestExists(ids: set<Id>)
    requires ids != {}
    ensures exists m :: IsSmallest(m, ids)
  {
    var x :| x in ids;
    if ids == {x} {
      assert IsSmallest(x, ids);
    } else {
      SmallestExists(ids - {x});
      var m :| IsSmallest(m, ids - {x});
      forall y | y in ids ensures (if m <= x then m else x) <= y {
        if y != x { assert y in ids - {x}; }
      }
      assert IsSmallest(if m <= x then m else x, ids);
    }
  }

  function Smallest(ids: set<Id>): (m: Id)
    requires ids != {}
    ensures IsSmallest(m, ids)
  {
    SmallestExists(ids);
    var m :| m in ids && IsSmallest(m, ids);
    m
  }

  /** The rows of a result, in primary-key order. */
  function InOrder(ids: set<Id>): (rows: seq<Id>)
    ensures NoDup(rows) && Elems(rows) == ids
    decreases |ids|
  {
    if ids == {} then [] else
      var first := Smallest(ids);
      var rest := InOrder(ids - {first});
      assert first !in Elems(rest);
      assert Elems([first] + rest) == {first} + Elems(rest);
      [first] + rest
  }

  /** session.scalar: the first row, or None. */
  function First(ids: set<Id>): Option<Id> {
    if ids == {} then None else Some(Smallest(ids))
  }

  // ----- Queries -----

  predicate LiveWorkspace(db: Db, workspace: Id) {
    workspace in db.workspaces && db.workspaces[workspace].status.Active?
  }

  /** get_user_by_external_id */
  function UserByExternalId(db: Db, workspace: Id, externalId: string): Option<Id> {
    First(set k | k in db.users && db.users[k].workspace == workspace && db.users[k].externalId == externalId
      && LiveWorkspace(db, workspace))
  }

  /** get_active_agent_by_token_hash */
  function AgentByToken(db: Db, tokenHash: string): Option<Id> {
    First(set k | k in db.agents && db.agents[k].tokenHash == tokenHash && db.agents[k].status.Active?
      && LiveWorkspace(db, db.agents[k].workspace))
  }

  /** The rows of get_active_capability_by_id: at most the row with that primary key. */
  predicate CapabilityRuns(db: Db, workspace: Id, id: string) {
    && id in db.capabilities && db.capabilities[id].workspace == workspace && db.capabilities[id].status.Active?
    && LiveWorkspace(db, workspace)
    && db.capabilities[id].application in db.applications
    && db.applications[db.capabilities[id].application].workspace == workspace
    && db.applications[db.capabilities[id].application].status.Active?
  }

  function ActiveCapabilityById(db: Db, workspace: Id, id: string): Option<Capability> {
    if CapabilityRuns(db, workspace, id) then Some(db.capabilities[id]) else None
  }

  /** The conditions get_active_binding and the list query put on one binding row and the rows it joins. */
  predicate BindingRuns(db: Db, workspace: Id, agent: Id, user: Id, row: Binding) {
    && row.workspace == workspace && row.agent == agent && row.user == user && row.status.Active?
    && LiveWorkspace(db, workspace)
    && agent in db.agents && db.agents[agent].workspace == workspace && db.agents[agent].status.Active?
    && user in db.users && db.users[user].workspace == workspace && db.users[user].status.Active?
    && CapabilityRuns(db, workspace, row.capability)
    && row.role in db.roles && db.roles[row.role].workspace == workspace && db.roles[row.role].status.Active?
  }

  function RunningBindings(db: Db, workspace: Id, agent: Id, user: Id): set<Id> {
    set k | k in db.bindings && BindingRuns(db, workspace, agent, user, db.bindings[k])
  }

  function BindingsFor(db: Db, workspace: Id, agent: Id, user: Id, capability: string): set<Id> {
    set k | k in RunningBindings(db, workspace, agent, user) && db.bindings[k].capability == capability
  }

  /** get_active_binding */
  function ActiveBinding(db: Db, workspace: Id, agent: Id, user: Id, capability: string): Option<Binding> {
    match First(BindingsFor(db, workspace, agent, user, capability))
    case None => None
    case Some(k) => Some(db.bindings[k])
  }

  /** The inner joins of the list query: capability with its workspace and application, binding with the rest. */
  predicate ListJoins(db: Db, row: Binding) {
    && row.capability in db.capabilities
    && db.capabilities[row.capability].workspace in db.workspaces
    && db.capabilities[row.capability].application in db.applications
    && row.agent in db.agents && row.user in db.users && row.role in db.roles
  }

  predicate ListFilter(db: Db, workspace: Id, capability: Capability)
    requires capability.workspace in db.workspaces && capability.application in db.applications
  {
    && capability.workspace == workspace && capability.status.Active?
    && db.workspaces[capability.workspace].status.Active?
    && db.applications[capability.application].workspace == workspace
    && db.applications[capability.application].status.Active?
  }

  /** The where clause of the list query on one row of its join. */
  predicate ListRow(db: Db, workspace: Id, agent: Id, user: Id, row: Binding) {
    && ListJoins(db, row)
    && ListFilter(db, workspace, db.capabilities[row.capability])
    && row.workspace == workspace && row.agent == agent && row.user == user && row.status.Active?
    && db.agents[row.agent].workspace == workspace && db.agents[row.agent].status.Active?
    && db.users[row.user].workspace == workspace && db.users[row.user].status.Active?
    && db.roles[row.role].workspace == workspace && db.roles[row.role].status.Active?
  }

  function ListedBindings(db: Db, workspace: Id, agent: Id, user: Id): set<Id> {
    set k | k in db.bindings && ListRow(db, workspace, agent, user, db.bindings[k])
  }

  /** The two queries select the same binding rows. */
  lemma ListedAreRunning(db: Db, workspace: Id, agent: Id, user: Id)
    ensures ListedBindings(db, workspace, agent, user) == RunningBindings(db, workspace, agent, user)
  {
    forall k | k in db.bindings
      ensures ListRow(db, workspace, agent, user, db.bindings[k])
        <==> BindingRuns(db, workspace, agent, user, db.bindings[k])
    {
    }
  }

  /** list_active_capabilities_for_agent_user: one result row per binding, ordered by capability id. */
  function ListedCapabilities(db: Db, workspace: Id, agent: Id, user: Id): seq<Capability> {
    var rows := InOrder(ListedBindings(db, workspace, agent, user));
    assert forall k :: k in rows ==> k in Elems(rows);
    Sort(CapabilitiesOf(db, rows), CapabilityId)
  }

  function CapabilitiesOf(db: Db, bindings: seq<Id>): seq<Capability>
    requires forall k :: k in bindings ==> k in db.bindings && db.bindings[k].capability in db.capabilities
  {
    seq(|bindings|, i requires 0 <= i < |bindings| => db.capabilities[db.bindings[bindings[i]].capability])
  }

  /** role_grants_permission */
  predicate RoleGrants(db: Db, role: Id, code: string) {
    (role, code) in db.rolePermissions && role in db.roles && db.roles[role].status.Active?
  }

  /** invoke_permission_for_risk_class: no permission covers the admin class. */
  function InvokePermission(risk: RiskClass): Option<string> {
    match risk
    case ReadOnly => Some("capability.invoke.read_only")
    case Draft => Some("capability.invoke.side_effect")
    case SideEffect => Some("capability.invoke.side_effect")
    case Destructive => Some("capability.invoke.destructive")
    case AdminRisk => None
  }

  /** The binding and permission check that discovery and invocation share. */
  predicate Granted(db: Db, workspace: Id, agent: Id, user: Id, capability: Capability) {
    var binding := ActiveBinding(db, workspace, agent, user, capability.id);
    var permission := InvokePermission(capability.risk);
    && binding.Some? && permission.Some?
    && RoleGrants(db, binding.value.role, DESCRIBE_PERMISSION)
    && RoleGrants(db, binding.value.role, permission.value)
  }

  // ----- Discovery -----

  function KeepGranted(db: Db, workspace: Id, agent: Id, user: Id, listed: seq<Capability>): seq<Capability> {
    if listed == [] then []
    else
      var last := listed[|listed| - 1];
      KeepGranted(db, workspace, agent, user, listed[..|listed| - 1])
        + if Granted(db, workspace, agent, user, last) then [last] else []
  }

  function VisibleCapabilities(db: Db, workspace: Id, agent: Id, user: Id): seq<Capability> {
    KeepGranted(db, workspace, agent, user, ListedCapabilities(db, workspace, agent, user))
  }

  /** _list_visible_capabilities */
  method ListVisibleCapabilities(db: Db, workspace: Id, agent: Id, user: Id) returns (visible: seq<Capability>)
    ensures visible == VisibleCapabilities(db, workspace, agent, user)
  {
    hide Granted, ListedCapabilities;
    visible := [];
    var listed := ListedCapabilities(db, workspace, agent, user);
    for i := 0 to |listed|
      invariant visible == KeepGranted(db, workspace, agent, user, listed[..i])
    {
      assert listed[..i + 1][..i] == listed[..i];
      if Granted(db, workspace, agent, user, listed[i]) {
        visible := visible + [listed[i]];
      }
    }
    assert listed[..|listed|] == listed;
  }

  // ----- The invocation gate -----

  /** capability.application_instance.status == 'active', tested once more after the lookup. */
  predicate ApplicationLive(db: Db, capability: Capability) {
    capability.application in db.applications && db.applications[capability.application].status.Active?
  }

  /** The checks of an invocation between selecting the user and validating the input. */
  function Authorize(db: Db, workspace: Id, agent: Id, user: Id, id: string): Option<Capability> {
    var capability := ActiveCapabilityById(db, workspace, id);
    if capability.None? || !ApplicationLive(db, capability.value) then None
    else if Granted(db, workspace, agent, user, capability.value) then capability
    else None
  }

  /** The second status test never fires: the query has made it already. */
  lemma ActiveCapabilityIsLive(db: Db, workspace: Id, id: string)
    ensures ActiveCapabilityById(db, workspace, id).Some? ==>
      ApplicationLive(db, ActiveCapabilityById(db, workspace, id).value)
  {
  }

  // ----- Discovery and the gate coincide -----

  /** Primary keys: a row is stored under its own id. */
  ghost predicate KeyedCapabilities(db: Db) {
    forall k :: k in db.capabilities ==> db.capabilities[k].id == k
  }

  lemma {:induction false} KeepGrantedMembers(db: Db, workspace: Id, agent: Id, user: Id, listed: seq<Capability>,
          c: Capability)
    ensures c in KeepGranted(db, workspace, agent, user, listed)
      <==> c in listed && Granted(db, workspace, agent, user, c)
  {
    hide Granted;
    if listed != [] {
      KeepGrantedMembers(db, workspace, agent, user, listed[..|listed| - 1], c);
      assert listed == listed[..|listed| - 1] + [listed[|listed| - 1]];
    }
  }

  lemma ListedMembers(db: Db, workspace: Id, agent: Id, user: Id, c: Capability)
    ensures c in ListedCapabilities(db, workspace, agent, user)
      <==> exists k :: (
        k in RunningBindings(db, workspace, agent, user) && db.capabilities[db.bindings[k].capability] == c)
  {
    hide Sort, InOrder, BindingRuns, ListRow;
    ListedAreRunning(db, workspace, agent, user);
    var rows := InOrder(RunningBindings(db, workspace, agent, user));
    assert forall k :: k in rows ==> k in RunningBindings(db, workspace, agent, user) by {
      RunningJoin(db, workspace, agent, user);
    }
    RunningJoin(db, workspace, agent, user);
    var all := CapabilitiesOf(db, rows);
    SortCorrect(all, CapabilityId);
    SameElements(all, ListedCapabilities(db, workspace, agent, user));
    if k :| k in RunningBindings(db, workspace, agent, user) && db.capabilities[db.bindings[k].capability] == c {
      assert k in Elems(rows);
      var i :| 0 <= i < |rows| && rows[i] == k;
      assert all[i] == c;
    }
    if c in all {
      var i :| 0 <= i < |all| && all[i] == c;
      assert rows[i] in Elems(rows);
    }
  }

  lemma RunningJoin(db: Db, workspace: Id, agent: Id, user: Id)
    ensures forall k :: k in RunningBindings(db, workspace, agent, user) ==> (
      k in db.bindings && db.bindings[k].capability in db.capabilities
        && CapabilityRuns(db, workspace, db.bindings[k].capability))
  {
  }

  /** An active user is shown a capability exactly when invoking it passes every check before input validation. */
  lemma DiscoveryIsTheGate(db: Db, workspace: Id, agent: Id, user: Id, id: string)
    requires KeyedCapabilities(db)
    ensures (exists c :: c in VisibleCapabilities(db, workspace, agent, user) && c.id == id)
      <==> Authorize(db, workspace, agent, user, id).Some?
    ensures Authorize(db, workspace, agent, user, id).Some? ==>
      Authorize(db, workspace, agent, user, id).value in VisibleCapabilities(db, workspace, agent, user)
  {
    hide Granted, ListedCapabilities, BindingRuns, CapabilityRuns;
    var listed := ListedCapabilities(db, workspace, agent, user);
    RunningJoin(db, workspace, agent, user);
    ActiveCapabilityIsLive(db, workspace, id);
    if c :| c in VisibleCapabilities(db, workspace, agent, user) && c.id == id {
      KeepGrantedMembers(db, workspace, agent, user, listed, c);
      ListedMembers(db, workspace, agent, user, c);
    }
    if Authorize(db, workspace, agent, user, id).Some? {
      var c := Authorize(db, workspace, agent, user, id).value;
      AuthorizedRow(db, workspace, agent, user, id);
      GrantedHasBinding(db, workspace, agent, user, c);
      ListedMembers(db, workspace, agent, user, c);
      KeepGrantedMembers(db, workspace, agent, user, listed, c);
    }
  }

  lemma AuthorizedRow(db: Db, workspace: Id, agent: Id, user: Id, id: string)
    requires Authorize(db, workspace, agent, user, id).Some?
    ensures id in db.capabilities && Authorize(db, workspace, agent, user, id).value == db.capabilities[id]
  {
    hide Granted;
  }

  lemma GrantedHasBinding(db: Db, workspace: Id, agent: Id, user: Id, c: Capability)
    requires Granted(db, workspace, agent, user, c)
    ensures exists k :: k in RunningBindings(db, workspace, agent, user) && db.bindings[k].capability == c.id
  {
    hide BindingRuns;
    assert First(BindingsFor(db, workspace, agent, user, c.id)).Some?;
  }

  /** What a role must hold for capabilities of a risk class: the describe permission and, class by class, the
      permission to invoke. Nothing lets a role call the admin class. */
  ghost predicate MayCall(db: Db, role: Id, risk: RiskClass) {
    && (role, "capability.describe") in db.rolePermissions
    && match risk
       case ReadOnly => (role, "capability.invoke.read_only") in db.rolePermissions
       case Draft => (role, "capability.invoke.side_effect") in db.rolePermissions
       case SideEffect => (role, "capability.invoke.side_effect") in db.rolePermissions
       case Destructive => (role, "capability.invoke.destructive") in db.rolePermissions
       case AdminRisk => false
  }

  /** One binding that authorizes a call by itself: live, with live rows around it, and a role that may call
      the capability. */
  ghost predicate Authorizes(db: Db, workspace: Id, agent: Id, user: Id, id: string, k: Id) {
    && k in db.bindings && db.bindings[k].capability == id
    && BindingRuns(db, workspace, agent, user, db.bindings[k])
    && id in db.capabilities && MayCall(db, db.bindings[k].role, db.capabilities[id].risk)
  }

  /** Under the active-binding index the gate opens exactly when some binding authorizes the call, by the
      permissions its role holds for the capability's risk class. The gate itself reads only the first binding
      it finds. */
  lemma AuthorizedIff(db: Db, workspace: Id, agent: Id, user: Id, id: string)
    requires KeyedCapabilities(db) && UniqueActiveBindings(db)
    ensures Authorize(db, workspace, agent, user, id).Some?
      <==> exists k :: Authorizes(db, workspace, agent, user, id, k)
  {
    hide CapabilityRuns, UniqueActiveBindings, BindingRuns, RunningBindings;
    ActiveCapabilityIsLive(db, workspace, id);
    RunningRow(db, workspace, agent, user);
    UniqueIndexGivesOneBindingEach(db, workspace, agent, user);
    var found := BindingsFor(db, workspace, agent, user, id);
    if Authorize(db, workspace, agent, user, id).Some? {
      AuthorizedRow(db, workspace, agent, user, id);
      assert Authorizes(db, workspace, agent, user, id, Smallest(found));
    }
    if k :| Authorizes(db, workspace, agent, user, id, k) {
      assert k in found;
      assert Smallest(found) == k;
    }
  }

  lemma RunningRow(db: Db, workspace: Id, agent: Id, user: Id)
    ensures forall k :: (
      k in RunningBindings(db, workspace, agent, user)
      <==> (k in db.bindings && BindingRuns(db, workspace, agent, user, db.bindings[k])))
    ensures forall k :: k in RunningBindings(db, workspace, agent, user) ==>
      && CapabilityRuns(db, workspace, db.bindings[k].capability)
      && db.bindings[k].role in db.roles && db.roles[db.bindings[k].role].status.Active?
  {
  }

  // ----- Order and duplicates -----

  /** No two running bindings lead to the same capability. */
  ghost predicate OneBindingEach(db: Db, workspace: Id, agent: Id, user: Id) {
    forall a, b :: a in RunningBindings(db, workspace, agent, user)
      && b in RunningBindings(db, workspace, agent, user) && a != b
      ==> db.bindings[a].capability != db.bindings[b].capability
  }

  lemma UniqueIndexGivesOneBindingEach(db: Db, workspace: Id, agent: Id, user: Id)
    requires UniqueActiveBindings(db)
    ensures OneBindingEach(db, workspace, agent, user)
  {
    hide CapabilityRuns, LiveWorkspace;
  }

  /** The list query is strictly sorted by id, so free of duplicates, exactly when no capability is
      reached by two running bindings: what the active-binding index guarantees. */
  lemma ListedStrictlySortedIff(db: Db, workspace: Id, agent: Id, user: Id)
    requires KeyedCapabilities(db)
    ensures StrictlySorted(ListedCapabilities(db, workspace, agent, user), CapabilityId)
      <==> OneBindingEach(db, workspace, agent, user)
  {
    hide Sort, InOrder, BindingRuns, CapabilityRuns, RunningBindings, ListedBindings, Before;
    ListedAreRunning(db, workspace, agent, user);
    RunningJoin(db, workspace, agent, user);
    var rows := InOrder(RunningBindings(db, workspace, agent, user));
    assert forall k :: k in Elems(rows) <==> k in RunningBindings(db, workspace, agent, user);
    var all := CapabilitiesOf(db, rows);
    var listed := ListedCapabilities(db, workspace, agent, user);
    SortCorrect(all, CapabilityId);
    if StrictlySorted(listed, CapabilityId) {
      StrictHasDistinctKeys(listed);
      DistinctKeysPermuted(listed, all, CapabilityId);
      forall a, b | a in RunningBindings(db, workspace, agent, user)
        && b in RunningBindings(db, workspace, agent, user) && a != b
        ensures db.bindings[a].capability != db.bindings[b].capability
      {
        var i :| 0 <= i < |rows| && rows[i] == a;
        var j :| 0 <= j < |rows| && rows[j] == b;
        assert CapabilityId(all[i]) == db.bindings[a].capability && CapabilityId(all[j]) == db.bindings[b].capability;
      }
    }
    if OneBindingEach(db, workspace, agent, user) {
      forall i, j | 0 <= i < j < |all| ensures CapabilityId(all[i]) != CapabilityId(all[j]) {
        assert rows[i] in Elems(rows) && rows[j] in Elems(rows) && rows[i] != rows[j];
      }
      SortStrict(all, CapabilityId);
    }
  }

  lemma StrictHasDistinctKeys(listed: seq<Capability>)
    requires StrictlySorted(listed, CapabilityId)
    ensures DistinctKeys(listed, CapabilityId)
  {
    hide Before;
    forall i, j | 0 <= i < j < |listed| ensures CapabilityId(listed[i]) != CapabilityId(listed[j]) {
      BeforeTotal(CapabilityId(listed[i]), CapabilityId(listed[j]));
    }
  }

  lemma {:induction false} KeepGrantedStrict(db: Db, workspace: Id, agent: Id, user: Id, listed: seq<Capability>)
    requires StrictlySorted(listed, CapabilityId)
    ensures StrictlySorted(KeepGranted(db, workspace, agent, user, listed), CapabilityId)
  {
    hide Granted, Before;
    if listed != [] {
      var front, last := listed[..|listed| - 1], listed[|listed| - 1];
      KeepGrantedStrict(db, workspace, agent, user, front);
      var kept := KeepGranted(db, workspace, agent, user, front);
      forall i | 0 <= i < |kept| ensures Before(CapabilityId(kept[i]), CapabilityId(last)) {
        KeepGrantedMembers(db, workspace, agent, user, front, kept[i]);
        var j :| 0 <= j < |front| && front[j] == kept[i];
        assert listed[j] == front[j];
      }
    }
  }

  /** Under the active-binding index the visible list is strictly sorted by id, with no duplicates. */
  lemma VisibleStrictlySorted(db: Db, workspace: Id, agent: Id, user: Id)
    requires KeyedCapabilities(db) && UniqueActiveBindings(db)
    ensures StrictlySorted(VisibleCapabilities(db, workspace, agent, user), CapabilityId)
    ensures DistinctKeys(VisibleCapabilities(db, workspace, agent, user), CapabilityId)
  {
    hide ListedCapabilities, OneBindingEach, KeepGranted, UniqueActiveBindings;
    UniqueIndexGivesOneBindingEach(db, workspace, agent, user);
    ListedStrictlySortedIff(db, workspace, agent, user);
    KeepGrantedStrict(db, workspace, agent, user, ListedCapabilities(db, workspace, agent, user));
    StrictHasDistinctKeys(VisibleCapabilities(db, workspace, agent, user));
  }

  // ----- The same-workspace conjuncts -----

  /** The joined rows are live, with every same-workspace test left out except the one on the driving row. */
  predicate CapabilityRunsRelaxed(db: Db, id: string) {
    && id in db.capabilities && db.capabilities[id].status.Active?
    && LiveWorkspace(db, db.capabilities[id].workspace)
    && db.capabilities[id].application in db.applications
    && db.applications[db.capabilities[id].application].status.Active?
  }

  predicate BindingRunsRelaxed(db: Db, workspace: Id, agent: Id, user: Id, row: Binding) {
    && row.workspace == workspace && row.agent == agent && row.user == user && row.status.Active?
    && agent in db.agents && db.agents[agent].status.Active?
    && user in db.users && db.users[user].status.Active?
    && CapabilityRunsRelaxed(db, row.capability)
    && row.role in db.roles && db.roles[row.role].status.Active?
  }

  /** The rows of get_active_secret_for_owner. */
  predicate SecretRuns(db: Db, workspace: Id, application: Id, ownerType: OwnerType, owner: Id, row: Secret) {
    && row.workspace == workspace && row.application == application && row.ownerType == ownerType && row.owner == owner
    && row.status.Live? && LiveWorkspace(db, workspace)
    && application in db.applications && db.applications[application].workspace == workspace
    && db.applications[application].status.Active?
  }

  predicate SecretRunsRelaxed(db: Db, workspace: Id, application: Id, ownerType: OwnerType, owner: Id, row: Secret) {
    && row.workspace == workspace && row.application == application && row.ownerType == ownerType && row.owner == owner
    && row.status.Live? && LiveWorkspace(db, workspace)
    && application in db.applications && db.applications[application].status.Active?
  }

  /** get_active_secret_for_owner */
  function ActiveSecret(db: Db, workspace: Id, application: Id, ownerType: OwnerType, owner: Id): Option<Secret> {
    match First(set k | k in db.secrets && SecretRuns(db, workspace, application, ownerType, owner, db.secrets[k]))
    case None => None
    case Some(k) => Some(db.secrets[k])
  }

  /** In every state the admin calls can reach, dropping the same-workspace conjuncts changes no result. */
  lemma WorkspaceConjunctsAreRedundant(db: Db, workspace: Id, agent: Id, user: Id)
    requires WellReferenced(db)
    ensures forall id :: id in db.capabilities && db.capabilities[id].workspace == workspace ==>
      (CapabilityRuns(db, workspace, id) <==> CapabilityRunsRelaxed(db, id))
    ensures RunningBindings(db, workspace, agent, user)
      == set k | k in db.bindings && BindingRunsRelaxed(db, workspace, agent, user, db.bindings[k])
    ensures forall k, application, ownerType, owner :: k in db.secrets ==>
      SecretRuns(db, workspace, application, ownerType, owner, db.secrets[k])
      == SecretRunsRelaxed(db, workspace, application, ownerType, owner, db.secrets[k])
  {
    forall k | k in db.bindings
      ensures BindingRuns(db, workspace, agent, user, db.bindings[k])
        <==> BindingRunsRelaxed(db, workspace, agent, user, db.bindings[k])
    {
      assert BindingOk(db, db.bindings[k]);
      assert CapabilityOk(db, db.capabilities[db.bindings[k].capability]);
    }
    forall k, application, ownerType, owner | k in db.secrets
      ensures SecretRuns(db, workspace, application, ownerType, owner, db.secrets[k])
        <==> SecretRunsRelaxed(db, workspace, application, ownerType, owner, db.secrets[k])
    {
      assert SecretOk(db, db.secrets[k]);
    }
  }
}
