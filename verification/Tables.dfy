/** The relational tables as maps from primary key to row. */
module Tables {
  import opened Prelude
  import opened Json

  /** Surrogate keys (UUIDs). */
  type Id = nat

  datatype Status = Active | Disabled
  datatype SecretStatus = Live | Revoked
  datatype AuthMode = SystemAuth | UserAuth | UserScopeAuth | AdminAuth
  datatype RiskClass = ReadOnly | Draft | SideEffect | Destructive | AdminRisk
  datatype OwnerType = WorkspaceOwner | UserOwner | AgentOwner

  datatype Workspace = Workspace(slug: string, displayName: string, status: Status)

  datatype Application = Application(
    workspace: Id, slug: string, displayName: string, provider: string,
    baseUrl: Option<string>, status: Status)

  datatype Agent = Agent(workspace: Id, slug: string, displayName: string, tokenHash: string, status: Status)

  datatype User = User(workspace: Id, externalId: string, displayName: string, status: Status)

  datatype Capability = Capability(
    id: string, workspace: Id, application: Id, name: string, version: int, provider: string,
    adapter: string, operation: string, authMode: AuthMode, risk: RiskClass,
    inputSchema: Json, outputSchema: Json, status: Status)

  datatype Role = Role(workspace: Id, slug: string, displayName: string, status: Status)

  datatype Binding = Binding(workspace: Id, agent: Id, user: Id, capability: string, role: Id, status: Status)

  datatype Secret = Secret(
    workspace: Id, application: Id, ownerType: OwnerType, owner: Id,
    secretType: string, cipher: string, status: SecretStatus)

  datatype Db = Db(
    workspaces: map<Id, Workspace>,
    applications: map<Id, Application>,
    agents: map<Id, Agent>,
    users: map<Id, User>,
    capabilities: map<string, Capability>,
    roles: map<Id, Role>,
    permissions: set<string>,
    rolePermissions: set<(Id, string)>,
    bindings: map<Id, Binding>,
    secrets: map<Id, Secret>)

  function CapabilityId(capability: Capability): string {
    capability.id
  }
}
