/** The demo seeding protocol (src/grantora/cli/demo_workflow.py) against the admin API: eight objects are
    looked up and created in order, and any request may be lost or may land without an answer. */
module DemoSeed {
  import opened Prelude
  import opened Json
  import opened Tables
  import opened AdminOps
  import opened Constraints
  import opened Queries
  import opened AdminRuns

  /** Values the request schemas accept. */
  datatype Config = Config(
    workspaceSlug: string, workspaceName: string,
    applicationSlug: string, applicationName: string, provider: string, baseUrl: string,
    userExternalId: string, userName: string,
    capability: string, capabilityName: string, inputSchema: Json, outputSchema: Json,
    roleSlug: string, roleName: string, permissions: seq<string>,
    agentSlug: string, agentName: string, secretType: string, existingAgentToken: Option<string>)

  /** The steps of seed_demo in order. */
  datatype Slot =
    | WorkspaceSlot | ApplicationSlot | UserSlot | CapabilitySlot | PermissionSlot
    | RoleSlot | AgentSlot | BindingSlot | SecretSlot

  const SLOTS: seq<Slot> :=
    [WorkspaceSlot, ApplicationSlot, UserSlot, CapabilitySlot, PermissionSlot, RoleSlot, AgentSlot, BindingSlot,
      SecretSlot]

  const SUPER := Admin(None)

  /** The generated values: the ids the server drew, the agent's token hash and the sealed secret. */
  datatype Objects = Objects(
    workspace: Id, application: Id, user: Id, role: Id, agent: Id, binding: Id, secret: Id, tokenHash: string,
      cipher: string)

  /** A request works, is lost on the way, or takes effect while its answer is lost. */
  datatype Delivery = Works | LostRequest | LostAnswer

  /** One request: how it is delivered and what the server draws if it creates something. An agent's token
      is in the answer; the server keeps its hash. */
  datatype Net = Net(delivery: Delivery, env: Env, token: string)

  /** The agent token a run reports: the one configured when it found the agent, or the one in the answer of
      its own creation, whose hash the server stored. */
  datatype AgentToken = Unknown | Existing(configured: Option<string>) | Issued(token: string, hash: string)

  datatype Reason = NetworkError | Rejected(error: Error) | UnexpectedObject

  /** A seeding run in progress: the server, the requests made so far, the ids learned, the POSTs issued, the
      agent token. */
  datatype Session = Session(store: Store, clock: nat, ids: Objects, posts: nat, failed: Option<Reason>,
    token: AgentToken)

  // ----- Lookups -----

  function DemoCapability(cfg: Config, workspace: Id, application: Id): Capability {
    Capability(cfg.capability, workspace, application, cfg.capabilityName, 1, cfg.provider, cfg.provider,
      "phonebook.search", UserAuth, ReadOnly, cfg.inputSchema, cfg.outputSchema, Active)
  }

  /** The rows a lookup matches, every list fitting its page; the capability is looked up by its own id. */
  function Matching(cfg: Config, slot: Slot, db: Db, ids: Objects): set<Id> {
    match slot
    case WorkspaceSlot => set k | k in db.workspaces && db.workspaces[k].slug == cfg.workspaceSlug
    case ApplicationSlot => set k | k in db.applications && db.applications[k].workspace == ids.workspace
      && db.applications[k].slug == cfg.applicationSlug
    case UserSlot => set k | k in db.users && db.users[k].workspace == ids.workspace
      && db.users[k].externalId == cfg.userExternalId
    case CapabilitySlot => if cfg.capability in db.capabilities
      && db.capabilities[cfg.capability].workspace == ids.workspace then {0} else {}
    case PermissionSlot => {0}
    case RoleSlot => set k | k in db.roles && db.roles[k].workspace == ids.workspace && db.roles[k].slug == cfg.roleSlug
    case AgentSlot => set k | k in db.agents && db.agents[k].workspace == ids.workspace
      && db.agents[k].slug == cfg.agentSlug
    case BindingSlot => set k | k in db.bindings && MatchesBinding(cfg, db.bindings[k], ids)
    case SecretSlot => set k | k in db.secrets && MatchesSecret(db.secrets[k], ids)
  }

  predicate MatchesBinding(cfg: Config, row: Binding, ids: Objects) {
    row.workspace == ids.workspace && row.agent == ids.agent && row.user == ids.user
      && row.capability == cfg.capability && row.role == ids.role
  }

  /** The secret list leaves revoked secrets out. */
  predicate MatchesSecret(row: Secret, ids: Objects) {
    row.workspace == ids.workspace && row.application == ids.application && row.ownerType.UserOwner?
      && row.owner == ids.user && row.status.Live?
  }

  /** _require_active, _require_fields and the permission checks on a row that was found. */
  predicate Usable(cfg: Config, slot: Slot, db: Db, ids: Objects, found: Id) {
    match slot
    case WorkspaceSlot => found in db.workspaces && db.workspaces[found].status.Active?
    case ApplicationSlot => found in db.applications && db.applications[found].status.Active?
      && db.applications[found].provider == cfg.provider
    case UserSlot => found in db.users && db.users[found].status.Active?
    case CapabilitySlot =>
      && cfg.capability in db.capabilities
      && var row, wanted := db.capabilities[cfg.capability], DemoCapability(cfg, ids.workspace, ids.application);
         row.status.Active? && row.application == ids.application && row.provider == wanted.provider
           && row.adapter == wanted.adapter
         && row.operation == wanted.operation && row.authMode == wanted.authMode && row.risk == wanted.risk
    case PermissionSlot => Elems(cfg.permissions) <= db.permissions
    case RoleSlot => found in db.roles && db.roles[found].status.Active? && forall code :: code in cfg.permissions ==>
      (found, code) in db.rolePermissions
    case AgentSlot => found in db.agents && db.agents[found].status.Active?
    case BindingSlot => found in db.bindings && db.bindings[found].status.Active?
    case SecretSlot => found in db.secrets && db.secrets[found].status.Live?
  }

  function Learn(slot: Slot, ids: Objects, id: Id): Objects {
    match slot
    case WorkspaceSlot => ids.(workspace := id)
    case ApplicationSlot => ids.(application := id)
    case UserSlot => ids.(user := id)
    case CapabilitySlot => ids
    case PermissionSlot => ids
    case RoleSlot => ids.(role := id)
    case AgentSlot => ids.(agent := id)
    case BindingSlot => ids.(binding := id)
    case SecretSlot => ids.(secret := id)
  }

  /** The POST of each step. The demo capability's definition is taken to pass the definition checks. */
  function Creation(cfg: Config, slot: Slot, ids: Objects): AdminOp
    requires slot != PermissionSlot
  {
    match slot
    case WorkspaceSlot => CreateWorkspace(cfg.workspaceSlug, cfg.workspaceName, Active)
    case ApplicationSlot =>
      CreateApplication(ids.workspace, cfg.applicationSlug, cfg.applicationName, cfg.provider, Some(cfg.baseUrl),
      Active)
    case UserSlot => CreateUser(ids.workspace, cfg.userExternalId, cfg.userName, Active)
    case CapabilitySlot => CreateCapability(DemoCapability(cfg, ids.workspace, ids.application), true, false)
    case RoleSlot => CreateRole(ids.workspace, cfg.roleSlug, cfg.roleName, cfg.permissions, Active)
    case AgentSlot => CreateAgent(ids.workspace, cfg.agentSlug, cfg.agentName)
    case BindingSlot => CreateBinding(ids.workspace, ids.agent, ids.user, cfg.capability, ids.role, Active)
    case SecretSlot => CreateSecret(ids.workspace, ids.application, UserOwner, ids.user, cfg.secretType)
  }

  // ----- The protocol -----

  /** A GET. Listing permissions also commits the missing defaults. */
  function Read(s: Session, slot: Slot, net: Net): Session {
    var store := if slot == PermissionSlot && !net.delivery.LostRequest? then Perform(s.store, ListPermissions)
      else s.store;
    s.(store := store, clock := s.clock + 1, failed := if net.delivery.Works? then None else Some(NetworkError))
  }

  /** A POST. */
  function Post(s: Session, cfg: Config, slot: Slot, net: Net): Session
    requires slot != PermissionSlot
  {
    var sent := s.(clock := s.clock + 1, posts := s.posts + 1);
    if net.delivery.LostRequest? then sent.(failed := Some(NetworkError))
    else
      var (store, reply) := Step(s.store, SUPER, Creation(cfg, slot, s.ids), net.env);
      if net.delivery.LostAnswer? then sent.(store := store, failed := Some(NetworkError))
      else if reply.Refused? then sent.(store := store, failed := Some(Rejected(reply.error)))
      else
        sent.(store := store, ids := Learn(slot, s.ids, net.env.nextId),
              token := if slot == AgentSlot then Issued(net.token, net.env.tokenHash) else s.token)
  }

  /** The _ensure_ function of one step: look up, then reuse, reject or create. */
  function Ensure(s: Session, cfg: Config, slot: Slot, net: nat -> Net): Session {
    var read := Read(s, slot, net(s.clock));
    if read.failed.Some? then read
    else
      match First(Matching(cfg, slot, read.store.db, read.ids))
      case Some(found) =>
        if Usable(cfg, slot, read.store.db, read.ids, found) then
          read.(ids := Learn(slot, read.ids, found),
                token := if slot == AgentSlot then Existing(cfg.existingAgentToken) else read.token)
        else read.(failed := Some(UnexpectedObject))
      case None =>
        if slot == PermissionSlot then read else Post(read, cfg, slot, net(read.clock))
  }

  function SeedFrom(s: Session, cfg: Config, i: nat, net: nat -> Net): Session
    requires i <= |SLOTS|
    decreases |SLOTS| - i
  {
    if i == |SLOTS| || s.failed.Some? then s else SeedFrom(Ensure(s, cfg, SLOTS[i], net), cfg, i + 1, net)
  }

  const NOTHING := Objects(0, 0, 0, 0, 0, 0, 0, "", "")

  /** seed_demo: one run from a given server state. */
  function Seed(store: Store, cfg: Config, net: nat -> Net): Session {
    SeedFrom(Session(store, 0, NOTHING, 0, None, Unknown), cfg, 0, net)
  }

  // ----- The client over its server -----

  class DemoClient {
    const net: nat -> Net
    var session: Session

    constructor (store: Store, net: nat -> Net)
      ensures this.net == net && session == Session(store, 0, NOTHING, 0, None, Unknown)
    {
      this.net := net;
      session := Session(store, 0, NOTHING, 0, None, Unknown);
    }

    method EnsureSlot(cfg: Config, slot: Slot)
      modifies this
      ensures session == Ensure(old(session), cfg, slot, net)
    {
      hide Matching, Usable, Step;
      session := Read(session, slot, net(session.clock));
      if session.failed.Some? {
        return;
      }
      var found := First(Matching(cfg, slot, session.store.db, session.ids));
      if found.Some? {
        if Usable(cfg, slot, session.store.db, session.ids, found.value) {
          session := session.(
            ids := Learn(slot, session.ids, found.value),
            token := if slot == AgentSlot then Existing(cfg.existingAgentToken) else session.token);
        } else {
          session := session.(failed := Some(UnexpectedObject));
        }
        return;
      }
      if slot != PermissionSlot {
        session := Post(session, cfg, slot, net(session.clock));
      }
    }

    /** seed_demo, one step after the other; a WorkflowError ends it. */
    method SeedDemo(cfg: Config)
      requires session == Session(session.store, 0, NOTHING, 0, None, Unknown)
      modifies this
      ensures session == Seed(old(session).store, cfg, net)
    {
      hide Ensure;
      ghost var start := session;
      for i := 0 to |SLOTS|
        invariant SeedFrom(start, cfg, 0, net) == SeedFrom(session, cfg, i, net)
        invariant session.failed.None?
      {
        EnsureSlot(cfg, SLOTS[i]);
        if session.failed.Some? {
          return;
        }
      }
    }
  }

  // ----- The states a seeding can be in -----

  /** The base tables plus the first k steps' objects. */
  function Build(base: Db, cfg: Config, o: Objects, k: nat): Db {
    Db(
      if k < 1 then base.workspaces
        else base.workspaces[o.workspace := Workspace(cfg.workspaceSlug, cfg.workspaceName, Active)],
      if k < 2 then base.applications
        else base.applications[o.application :=
          Application(o.workspace, cfg.applicationSlug, cfg.applicationName, cfg.provider, Some(cfg.baseUrl), Active)],
      if k < 7 then base.agents
        else base.agents[o.agent := Agent(o.workspace, cfg.agentSlug, cfg.agentName, o.tokenHash, Active)],
      if k < 3 then base.users else base.users[o.user := User(o.workspace, cfg.userExternalId, cfg.userName, Active)],
      if k < 4 then base.capabilities
        else base.capabilities[cfg.capability := DemoCapability(cfg, o.workspace, o.application)],
      if k < 6 then base.roles else base.roles[o.role := Role(o.workspace, cfg.roleSlug, cfg.roleName, Active)],
      if k < 5 then base.permissions else base.permissions + DEFAULT_PERMISSIONS,
      if k < 6 then base.rolePermissions
        else base.rolePermissions + set code | code in cfg.permissions :: (o.role, code),
      if k < 8 then base.bindings
        else base.bindings[o.binding := Binding(o.workspace, o.agent, o.user, cfg.capability, o.role, Active)],
      if k < 9 then base.secrets
        else base.secrets[o.secret :=
          Secret(o.workspace, o.application, UserOwner, o.user, cfg.secretType, o.cipher, Live)])
  }

  /** The generated ids were free in the base tables. */
  predicate Fresh(base: Db, o: Objects, k: nat) {
    && (k >= 1 ==> o.workspace !in base.workspaces)
    && (k >= 2 ==> o.application !in base.applications)
    && (k >= 3 ==> o.user !in base.users)
    && (k >= 6 ==> o.role !in base.roles)
    && (k >= 7 ==> o.agent !in base.agents)
    && (k >= 8 ==> o.binding !in base.bindings)
    && (k >= 9 ==> o.secret !in base.secrets)
  }

  /** The base holds none of the demo objects. */
  predicate Pristine(base: Db, cfg: Config) {
    && (forall k :: k in base.workspaces ==> base.workspaces[k].slug != cfg.workspaceSlug)
    && cfg.capability !in base.capabilities
    && Elems(cfg.permissions) <= base.permissions + DEFAULT_PERMISSIONS
  }

  /** Nothing in the base refers to the demo workspace. */
  lemma WorkspaceIsNew(base: Db, o: Objects)
    requires WellReferenced(base) && o.workspace !in base.workspaces
    ensures forall k :: k in base.applications ==> base.applications[k].workspace != o.workspace
    ensures forall k :: k in base.users ==> base.users[k].workspace != o.workspace
    ensures forall k :: k in base.roles ==> base.roles[k].workspace != o.workspace
    ensures forall k :: k in base.agents ==> base.agents[k].workspace != o.workspace
    ensures forall k :: k in base.bindings ==> base.bindings[k].workspace != o.workspace
    ensures forall k :: k in base.secrets ==> base.secrets[k].workspace != o.workspace
  {
    forall k | k in base.bindings ensures base.bindings[k].workspace != o.workspace {
      assert BindingOk(base, base.bindings[k]);
    }
    forall k | k in base.secrets ensures base.secrets[k].workspace != o.workspace {
      assert SecretOk(base, base.secrets[k]);
    }
  }

  function IdOf(slot: Slot, o: Objects): Id {
    match slot
    case WorkspaceSlot => o.workspace
    case ApplicationSlot => o.application
    case UserSlot => o.user
    case CapabilitySlot => 0
    case PermissionSlot => 0
    case RoleSlot => o.role
    case AgentSlot => o.agent
    case BindingSlot => o.binding
    case SecretSlot => o.secret
  }

  /** The ids learned for the first i steps are the true ones. */
  predicate Agrees(ids: Objects, o: Objects, i: nat) {
    && (i >= 1 ==> ids.workspace == o.workspace)
    && (i >= 2 ==> ids.application == o.application)
    && (i >= 3 ==> ids.user == o.user)
    && (i >= 6 ==> ids.role == o.role)
    && (i >= 7 ==> ids.agent == o.agent)
    && (i >= 8 ==> ids.binding == o.binding)
    && (i >= 9 ==> ids.secret == o.secret)
  }

  /** A lookup finds exactly this seeding's object, and finds it usable; or it finds nothing. */
  ghost predicate Finds(cfg: Config, slot: Slot, db: Db, ids: Objects, o: Objects, there: bool) {
    if there then Matching(cfg, slot, db, ids) == {IdOf(slot, o)} && Usable(cfg, slot, db, ids, IdOf(slot, o))
    else Matching(cfg, slot, db, ids) == {}
  }

  lemma FindWorkspace(base: Db, cfg: Config, o: Objects, k: nat, ids: Objects)
    requires Pristine(base, cfg) && Fresh(base, o, k)
    ensures Finds(cfg, WorkspaceSlot, Build(base, cfg, o, k), ids, o, k > 0)
  {
  }

  lemma FindApplication(base: Db, cfg: Config, o: Objects, k: nat, ids: Objects)
    requires WellReferenced(base) && Pristine(base, cfg) && Fresh(base, o, k) && k >= 1 && Agrees(ids, o, 1)
    ensures Finds(cfg, ApplicationSlot, Build(base, cfg, o, k), ids, o, k > 1)
  {
    hide WellReferenced;
    WorkspaceIsNew(base, o);
  }

  lemma FindUser(base: Db, cfg: Config, o: Objects, k: nat, ids: Objects)
    requires WellReferenced(base) && Pristine(base, cfg) && Fresh(base, o, k) && k >= 2 && Agrees(ids, o, 2)
    ensures Finds(cfg, UserSlot, Build(base, cfg, o, k), ids, o, k > 2)
  {
    hide WellReferenced;
    WorkspaceIsNew(base, o);
  }

  lemma FindCapability(base: Db, cfg: Config, o: Objects, k: nat, ids: Objects)
    requires WellReferenced(base) && Pristine(base, cfg) && Fresh(base, o, k) && k >= 3 && Agrees(ids, o, 3)
    ensures Finds(cfg, CapabilitySlot, Build(base, cfg, o, k), ids, o, k > 3)
  {
    hide WellReferenced;
    WorkspaceIsNew(base, o);
  }

  lemma FindRole(base: Db, cfg: Config, o: Objects, k: nat, ids: Objects)
    requires WellReferenced(base) && Pristine(base, cfg) && Fresh(base, o, k) && k >= 5 && Agrees(ids, o, 5)
    ensures Finds(cfg, RoleSlot, Build(base, cfg, o, k), ids, o, k > 5)
  {
    hide WellReferenced;
    WorkspaceIsNew(base, o);
  }

  lemma FindAgent(base: Db, cfg: Config, o: Objects, k: nat, ids: Objects)
    requires WellReferenced(base) && Pristine(base, cfg) && Fresh(base, o, k) && k >= 6 && Agrees(ids, o, 6)
    ensures Finds(cfg, AgentSlot, Build(base, cfg, o, k), ids, o, k > 6)
  {
    hide WellReferenced;
    WorkspaceIsNew(base, o);
  }

  lemma FindBinding(base: Db, cfg: Config, o: Objects, k: nat, ids: Objects)
    requires WellReferenced(base) && Pristine(base, cfg) && Fresh(base, o, k) && k >= 7 && Agrees(ids, o, 7)
    ensures Finds(cfg, BindingSlot, Build(base, cfg, o, k), ids, o, k > 7)
  {
    hide WellReferenced;
    WorkspaceIsNew(base, o);
  }

  lemma FindSecret(base: Db, cfg: Config, o: Objects, k: nat, ids: Objects)
    requires WellReferenced(base) && Pristine(base, cfg) && Fresh(base, o, k) && k >= 8 && Agrees(ids, o, 8)
    ensures Finds(cfg, SecretSlot, Build(base, cfg, o, k), ids, o, k > 8)
  {
    hide WellReferenced;
    WorkspaceIsNew(base, o);
  }

  /** Step i finds its object exactly when the seeding has got past it, and finds it usable. */
  lemma LookupFindsTheObject(base: Db, cfg: Config, o: Objects, k: nat, ids: Objects, i: nat)
    requires WellReferenced(base) && Pristine(base, cfg) && Fresh(base, o, k)
    requires i < |SLOTS| && i <= k && Agrees(ids, o, i) && i != 4
    ensures Finds(cfg, SLOTS[i], Build(base, cfg, o, k), ids, o, k > i)
  {
    hide WellReferenced, Pristine, Fresh, Finds, Build;
    match i
    case 0 => FindWorkspace(base, cfg, o, k, ids);
    case 1 => FindApplication(base, cfg, o, k, ids);
    case 2 => FindUser(base, cfg, o, k, ids);
    case 3 => FindCapability(base, cfg, o, k, ids);
    case 5 => FindRole(base, cfg, o, k, ids);
    case 6 => FindAgent(base, cfg, o, k, ids);
    case 7 => FindBinding(base, cfg, o, k, ids);
    case _ => FindSecret(base, cfg, o, k, ids);
  }

  // ----- What a POST does -----

  /** The generated values after one more creation. */
  function Grow(o: Objects, slot: Slot, env: Env): Objects {
    match slot
    case AgentSlot => o.(agent := env.nextId, tokenHash := env.tokenHash)
    case SecretSlot => o.(secret := env.nextId, cipher := if env.cipher.Some? then env.cipher.value else "")
    case _ => Learn(slot, o, env.nextId)
  }

  /** What the POST of a step needs of the values drawn for it: a free id in its own table, a new token for
      the agent, a secret that can be sealed. The capability brings its own id. */
  predicate DrawFits(base: Db, slot: Slot, env: Env) {
    match slot
    case WorkspaceSlot => env.nextId !in base.workspaces
    case ApplicationSlot => env.nextId !in base.applications
    case UserSlot => env.nextId !in base.users
    case CapabilitySlot => true
    case PermissionSlot => true
    case RoleSlot => env.nextId !in base.roles
    case AgentSlot => env.nextId !in base.agents && forall k :: k in base.agents ==>
      base.agents[k].tokenHash != env.tokenHash
    case BindingSlot => env.nextId !in base.bindings
    case SecretSlot => env.nextId !in base.secrets && env.cipher.Some?
  }

  /** Staging step i's POST on the tables of the first i steps gives those of i + 1, or encryption is
      unavailable; with a free id, and a sealed secret where one is due, it is staged. */
  ghost predicate StagesNext(base: Db, cfg: Config, o: Objects, ids: Objects, env: Env, i: nat)
    requires i < |SLOTS| && i != 4
  {
    var staged := Stage(Build(base, cfg, o, i), SUPER, Creation(cfg, SLOTS[i], ids), env);
    var next := Grow(o, SLOTS[i], env);
    && (staged.Fail? ==> staged.error.Unavailable?)
    && (staged.Pass? ==> staged.value.db == Build(base, cfg, next, i + 1))
    && (staged.Pass? && staged.value.keyFree ==> Fresh(base, next, i + 1))
    && (DrawFits(base, SLOTS[i], env) ==> staged.Pass? && staged.value.keyFree)
    && (staged.Pass? && staged.value.keyFree ==>
          if SLOTS[i] == AgentSlot then env.nextId !in base.agents else DrawFits(base, SLOTS[i], env))
  }

  lemma DemoWorkspaceIsActive(base: Db, cfg: Config, o: Objects, k: nat)
    requires k >= 1
    ensures ActiveWorkspace(Build(base, cfg, o, k), o.workspace).Pass?
  {
  }

  lemma StageWorkspaceNext(base: Db, cfg: Config, o: Objects, ids: Objects, env: Env)
    requires Pristine(base, cfg) && Fresh(base, o, 0) && Agrees(ids, o, 0)
    ensures StagesNext(base, cfg, o, ids, env, 0)
  {
  }

  lemma StageApplicationNext(base: Db, cfg: Config, o: Objects, ids: Objects, env: Env)
    requires Pristine(base, cfg) && Fresh(base, o, 1) && Agrees(ids, o, 1)
    ensures StagesNext(base, cfg, o, ids, env, 1)
  {
    hide ActiveWorkspace;
    DemoWorkspaceIsActive(base, cfg, o, 1);
  }

  lemma StageUserNext(base: Db, cfg: Config, o: Objects, ids: Objects, env: Env)
    requires Pristine(base, cfg) && Fresh(base, o, 2) && Agrees(ids, o, 2)
    ensures StagesNext(base, cfg, o, ids, env, 2)
  {
    hide ActiveWorkspace;
    DemoWorkspaceIsActive(base, cfg, o, 2);
  }

  lemma StageCapabilityNext(base: Db, cfg: Config, o: Objects, ids: Objects, env: Env)
    requires Pristine(base, cfg) && Fresh(base, o, 3) && Agrees(ids, o, 3)
    ensures StagesNext(base, cfg, o, ids, env, 3)
  {
    hide ActiveWorkspace, ActiveApplication;
    DemoApplicationIsActive(base, cfg, o);
  }

  lemma DemoApplicationIsActive(base: Db, cfg: Config, o: Objects)
    ensures ActiveWorkspace(Build(base, cfg, o, 3), o.workspace).Pass?
    ensures var application := ActiveApplication(Build(base, cfg, o, 3), o.application);
      application.Pass? && application.value.workspace == o.workspace && application.value.provider == cfg.provider
  {
  }

  lemma StageRoleNext(base: Db, cfg: Config, o: Objects, ids: Objects, env: Env)
    requires Pristine(base, cfg) && Fresh(base, o, 5) && Agrees(ids, o, 5)
    ensures StagesNext(base, cfg, o, ids, env, 5)
  {
    hide ActiveWorkspace, DEFAULT_PERMISSIONS;
    DemoWorkspaceIsActive(base, cfg, o, 5);
  }

  lemma StageAgentNext(base: Db, cfg: Config, o: Objects, ids: Objects, env: Env)
    requires Pristine(base, cfg) && Fresh(base, o, 6) && Agrees(ids, o, 6)
    ensures StagesNext(base, cfg, o, ids, env, 6)
  {
    hide ActiveWorkspace;
    DemoWorkspaceIsActive(base, cfg, o, 6);
  }

  lemma StageBindingNext(base: Db, cfg: Config, o: Objects, ids: Objects, env: Env)
    requires Pristine(base, cfg) && Fresh(base, o, 7) && Agrees(ids, o, 7)
    ensures StagesNext(base, cfg, o, ids, env, 7)
  {
    hide ValidateBinding;
    DemoBindingValidates(base, cfg, o);
  }

  lemma DemoBindingValidates(base: Db, cfg: Config, o: Objects)
    ensures ValidateBinding(Build(base, cfg, o, 7), o.workspace, o.agent, o.user, cfg.capability, o.role)
      == Pass(DemoCapability(cfg, o.workspace, o.application))
  {
    var db := Build(base, cfg, o, 7);
    assert db.workspaces[o.workspace].status.Active?;
    assert db.agents[o.agent].status.Active? && db.agents[o.agent].workspace == o.workspace;
    assert db.users[o.user].status.Active? && db.users[o.user].workspace == o.workspace;
    assert db.capabilities[cfg.capability].status.Active? && db.capabilities[cfg.capability].workspace == o.workspace;
    assert db.roles[o.role].status.Active? && db.roles[o.role].workspace == o.workspace;
    hide Build;
  }

  lemma StageSecretNext(base: Db, cfg: Config, o: Objects, ids: Objects, env: Env)
    requires Pristine(base, cfg) && Fresh(base, o, 8) && Agrees(ids, o, 8)
    ensures StagesNext(base, cfg, o, ids, env, 8)
  {
    hide ValidateSecret;
    DemoSecretValidates(base, cfg, o);
  }

  lemma DemoSecretValidates(base: Db, cfg: Config, o: Objects)
    ensures ValidateSecret(Build(base, cfg, o, 8), o.workspace, o.application, UserOwner, o.user) == Pass(())
  {
  }

  lemma StagesTheNextObject(base: Db, cfg: Config, o: Objects, ids: Objects, env: Env, i: nat)
    requires Pristine(base, cfg) && Fresh(base, o, i) && Agrees(ids, o, i) && i < |SLOTS| && i != 4
    ensures StagesNext(base, cfg, o, ids, env, i)
  {
    hide Pristine, Fresh, StagesNext, Build;
    match i
    case 0 => StageWorkspaceNext(base, cfg, o, ids, env);
    case 1 => StageApplicationNext(base, cfg, o, ids, env);
    case 2 => StageUserNext(base, cfg, o, ids, env);
    case 3 => StageCapabilityNext(base, cfg, o, ids, env);
    case 5 => StageRoleNext(base, cfg, o, ids, env);
    case 6 => StageAgentNext(base, cfg, o, ids, env);
    case 7 => StageBindingNext(base, cfg, o, ids, env);
    case _ => StageSecretNext(base, cfg, o, ids, env);
  }

  // ----- Every run moves forward along the states -----

  /** Objects created by the first k steps; the permission step creates none. */
  function Created(k: nat): nat {
    if k < 5 then k else k - 1
  }

  /** The server holds the base plus the first k steps' objects, one admin audit event for each. */
  ghost predicate At(base: Store, cfg: Config, o: Objects, k: nat, store: Store) {
    && k <= |SLOTS|
    && store.db == Build(base.db, cfg, o, k)
    && Fresh(base.db, o, k)
    && |store.audit| == |base.audit| + Created(k)
  }

  /** A failure that seeding can meet on such a server: the network, or a POST refused for a clash of drawn
      values or for lack of encryption; never an object of the wrong kind. */
  predicate Excusable(failed: Option<Reason>) {
    failed.Some? ==>
      failed.value.NetworkError?
      || (failed.value.Rejected? && (failed.value.error.Conflict? || failed.value.error.Unavailable?))
  }

  lemma PermissionsSeeded(base: Store, cfg: Config, o: Objects, k: nat, store: Store)
    requires At(base, cfg, o, k, store) && k >= 4
    ensures At(base, cfg, o, if k < 5 then 5 else k, Perform(store, ListPermissions))
    ensures k >= 5 ==> Perform(store, ListPermissions) == store
  {
    assert k >= 5 ==> store.db.permissions + DEFAULT_PERMISSIONS == store.db.permissions;
  }

  /** Step i from a server at step k >= i: one more object at most, exactly when it was missing. */
  lemma EnsureMovesForward(base: Store, cfg: Config, o: Objects, k: nat, s: Session, i: nat, net: nat -> Net)
    returns (o': Objects, k': nat)
    requires WellReferenced(base.db) && Pristine(base.db, cfg) && At(base, cfg, o, k, s.store)
    requires i < |SLOTS| && i <= k && s.failed.None? && Agrees(s.ids, o, i)
    ensures var t := Ensure(s, cfg, SLOTS[i], net);
      && At(base, cfg, o', k', t.store) && k <= k' && Excusable(t.failed)
      && (t.failed.None? ==> i + 1 <= k' && Agrees(t.ids, o', i + 1))
      && (k > i ==> o' == o && k' == k && t.store == s.store && t.posts == s.posts)
      && (k == i ==> k' <= i + 1)
      && t.posts <= s.posts + 1
  {
    hide WellReferenced, Pristine, Fresh, Build, Matching, Usable, Stage, Accepts, DEFAULT_PERMISSIONS, Creation;
    if i == 4 {
      o', k' := PermissionStep(base, cfg, o, k, s, net);
    } else if k > i {
      o', k' := o, k;
      ReuseStep(base, cfg, o, k, s, i, net);
    } else {
      o', k' := CreateStep(base, cfg, o, s, i, net);
    }
  }

  lemma PermissionStep(base: Store, cfg: Config, o: Objects, k: nat, s: Session, net: nat -> Net)
    returns (o': Objects, k': nat)
    requires Pristine(base.db, cfg) && At(base, cfg, o, k, s.store) && 4 <= k && s.failed.None? && Agrees(s.ids, o, 4)
    ensures var t := Ensure(s, cfg, PermissionSlot, net);
      && At(base, cfg, o', k', t.store) && k <= k' && Excusable(t.failed)
      && (t.failed.None? ==> 5 <= k' && Agrees(t.ids, o', 5))
      && (k > 4 ==> o' == o && k' == k && t.store == s.store)
      && (k == 4 ==> k' <= 5)
      && t.posts == s.posts
  {
    PermissionsSeeded(base, cfg, o, k, s.store);
    o', k' := o, if net(s.clock).delivery.LostRequest? then k else if k < 5 then 5 else k;
    assert First({0}) == Some(0);
  }

  lemma ReuseStep(base: Store, cfg: Config, o: Objects, k: nat, s: Session, i: nat, net: nat -> Net)
    requires WellReferenced(base.db) && Pristine(base.db, cfg) && At(base, cfg, o, k, s.store)
    requires i < |SLOTS| && i < k && i != 4 && s.failed.None? && Agrees(s.ids, o, i)
    ensures var t := Ensure(s, cfg, SLOTS[i], net);
      && t.store == s.store && t.posts == s.posts && Excusable(t.failed)
      && (t.failed.None? ==> Agrees(t.ids, o, i + 1))
  {
    hide WellReferenced, Pristine, Fresh, Build, Matching, Usable;
    LookupFindsTheObject(base.db, cfg, o, k, s.ids, i);
    assert First({IdOf(SLOTS[i], o)}) == Some(IdOf(SLOTS[i], o));
  }

  lemma CreateStep(base: Store, cfg: Config, o: Objects, s: Session, i: nat, net: nat -> Net)
    returns (o': Objects, k': nat)
    requires WellReferenced(base.db) && Pristine(base.db, cfg) && At(base, cfg, o, i, s.store)
    requires i < |SLOTS| && i != 4 && s.failed.None? && Agrees(s.ids, o, i)
    ensures var t := Ensure(s, cfg, SLOTS[i], net);
      && At(base, cfg, o', k', t.store) && i <= k' && Excusable(t.failed)
      && (t.failed.None? ==> i + 1 <= k' && Agrees(t.ids, o', i + 1))
      && k' <= i + 1 && t.posts <= s.posts + 1
  {
    hide WellReferenced, Pristine, Fresh, Build, Matching, Usable, Stage, Accepts, Creation;
    LookupFindsTheObject(base.db, cfg, o, i, s.ids, i);
    var read := Read(s, SLOTS[i], net(s.clock));
    var env := net(read.clock).env;
    StagesTheNextObject(base.db, cfg, o, s.ids, env, i);
    var after := Step(s.store, SUPER, Creation(cfg, SLOTS[i], s.ids), env);
    if read.failed.None? && !net(read.clock).delivery.LostRequest? && after.1.Done? {
      o', k' := Grow(o, SLOTS[i], env), i + 1;
    } else {
      o', k' := o, i;
    }
  }

  // ----- Whole runs and histories of runs -----

  /** A run from step i on: it stays along the states, and if it is not stopped it reaches the last one. */
  lemma {:induction false} RunMovesForward(base: Store, cfg: Config, o: Objects, k: nat, s: Session, i: nat,
          net: nat -> Net)
    returns (o': Objects, k': nat)
    requires WellReferenced(base.db) && Pristine(base.db, cfg) && At(base, cfg, o, k, s.store)
    requires i <= |SLOTS| && i <= k && s.failed.None? && Agrees(s.ids, o, i)
    ensures var t := SeedFrom(s, cfg, i, net);
      && At(base, cfg, o', k', t.store) && k <= k' && Excusable(t.failed)
      && (t.failed.None? ==> k' == |SLOTS| && Agrees(t.ids, o', |SLOTS|))
      && (k == |SLOTS| ==> o' == o && k' == k && t.store == s.store && t.posts == s.posts)
    decreases |SLOTS| - i
  {
    hide WellReferenced, Pristine, At, Agrees, Ensure;
    o', k' := o, k;
    AtMostAllSteps(base, cfg, o, k, s.store);
    if i < |SLOTS| {
      var t := Ensure(s, cfg, SLOTS[i], net);
      o', k' := EnsureMovesForward(base, cfg, o, k, s, i, net);
      if t.failed.None? {
        o', k' := RunMovesForward(base, cfg, o', k', t, i + 1, net);
      } else {
        assert SeedFrom(t, cfg, i + 1, net) == t;
      }
    }
  }

  lemma AtMostAllSteps(base: Store, cfg: Config, o: Objects, k: nat, store: Store)
    requires At(base, cfg, o, k, store)
    ensures k <= |SLOTS|
  {
  }

  lemma SeedMovesForward(base: Store, cfg: Config, o: Objects, k: nat, store: Store, net: nat -> Net)
    returns (o': Objects, k': nat)
    requires WellReferenced(base.db) && Pristine(base.db, cfg) && At(base, cfg, o, k, store)
    ensures var t := Seed(store, cfg, net);
      && At(base, cfg, o', k', t.store) && k <= k' && Excusable(t.failed)
      && (t.failed.None? ==> k' == |SLOTS| && Agrees(t.ids, o', |SLOTS|))
      && (k == |SLOTS| ==> o' == o && k' == k && t.store == store && t.posts == 0)
  {
    hide WellReferenced, Pristine, At, SeedFrom;
    NothingLearned(NOTHING, o);
    o', k' := RunMovesForward(base, cfg, o, k, Session(store, 0, NOTHING, 0, None, Unknown), 0, net);
  }

  /** The server after a history of runs, each stopped anywhere or not at all. */
  function AfterRuns(store: Store, cfg: Config, nets: seq<nat -> Net>): Store
    decreases |nets|
  {
    if nets == [] then store else AfterRuns(Seed(store, cfg, nets[0]).store, cfg, nets[1..])
  }

  lemma {:induction false} HistoryMovesForward(base: Store, cfg: Config, o: Objects, k: nat, store: Store,
          nets: seq<nat -> Net>)
    returns (o': Objects, k': nat)
    requires WellReferenced(base.db) && Pristine(base.db, cfg) && At(base, cfg, o, k, store)
    ensures At(base, cfg, o', k', AfterRuns(store, cfg, nets)) && k <= k'
    decreases |nets|
  {
    hide WellReferenced, Pristine, At, Seed;
    o', k' := o, k;
    if nets != [] {
      o', k' := SeedMovesForward(base, cfg, o, k, store, nets[0]);
      o', k' := HistoryMovesForward(base, cfg, o', k', Seed(store, cfg, nets[0]).store, nets[1..]);
    }
  }

  lemma NothingSeededYet(base: Store, cfg: Config)
    ensures At(base, cfg, NOTHING, 0, base)
  {
    assert Build(base.db, cfg, NOTHING, 0) == base.db;
  }

  /** Resumable seeding: after any history of interrupted runs, a run that completes leaves the base plus
      exactly the eight demo objects, each created once over the whole history, and reports their ids; the
      result is that of a single uninterrupted run up to the values the server drew. */
  lemma SeedingIsResumable(base: Store, cfg: Config, nets: seq<nat -> Net>, last: nat -> Net, single: nat -> Net)
    returns (o: Objects, reference: Objects)
    requires WellReferenced(base.db) && Pristine(base.db, cfg)
    requires Seed(AfterRuns(base, cfg, nets), cfg, last).failed.None?
    requires Seed(base, cfg, single).failed.None?
    ensures var done := Seed(AfterRuns(base, cfg, nets), cfg, last);
      && done.store.db == Build(base.db, cfg, o, |SLOTS|) && Fresh(base.db, o, |SLOTS|)
      && |done.store.audit| == |base.audit| + 8
      && Agrees(done.ids, o, |SLOTS|)
    ensures Seed(base, cfg, single).store.db == Build(base.db, cfg, reference, |SLOTS|)
    ensures |Seed(base, cfg, single).store.audit| == |base.audit| + 8
  {
    hide WellReferenced, Pristine, Build, Fresh, Seed, AfterRuns, Agrees;
    NothingSeededYet(base, cfg);
    var k;
    reference, k := SeedMovesForward(base, cfg, NOTHING, 0, base, single);
    o, k := HistoryMovesForward(base, cfg, NOTHING, 0, base, nets);
    o, k := SeedMovesForward(base, cfg, o, k, AfterRuns(base, cfg, nets), last);
  }

  lemma NothingLearned(ids: Objects, o: Objects)
    ensures Agrees(ids, o, 0)
  {
  }

  predicate SameIds(a: Objects, b: Objects) {
    && a.workspace == b.workspace && a.application == b.application && a.user == b.user && a.role == b.role
    && a.agent == b.agent && a.binding == b.binding && a.secret == b.secret
  }

  /** Once a run has completed, another run issues no POST and changes nothing, whatever happens to its
      requests, and if it completes it reports the same ids. */
  lemma SeedingAgainChangesNothing(base: Store, cfg: Config, nets: seq<nat -> Net>, last: nat -> Net, again: nat -> Net)
    requires WellReferenced(base.db) && Pristine(base.db, cfg)
    requires Seed(AfterRuns(base, cfg, nets), cfg, last).failed.None?
    ensures var done := Seed(AfterRuns(base, cfg, nets), cfg, last);
      var next := Seed(done.store, cfg, again);
      next.store == done.store && next.posts == 0 && (next.failed.None? ==> SameIds(next.ids, done.ids))
  {
    hide WellReferenced, Pristine, Build, Fresh, SeedFrom, At, Seed, AfterRuns;
    NothingSeededYet(base, cfg);
    var o, k := HistoryMovesForward(base, cfg, NOTHING, 0, base, nets);
    var done, store := Seed(AfterRuns(base, cfg, nets), cfg, last), AfterRuns(base, cfg, nets);
    o, k := SeedMovesForward(base, cfg, o, k, store, last);
    var o2, k2 := SeedMovesForward(base, cfg, o, k, done.store, again);
  }
}
