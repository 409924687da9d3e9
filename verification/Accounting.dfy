/** Which requests leave no event, and the logs over any run of requests (src/grantora/api/runtime.py). */
module Accounting {
  import opened Prelude
  import opened Text
  import opened Json
  import JsonSchema
  import opened Tables
  import opened AdminOps
  import opened Constraints
  import opened AdminRuns
  import opened Queries
  import opened ToolNames
  import opened NameMap
  import opened ToolSurfaces
  import opened Invocation

  // ----- Requests that never reach the handler -----

  /** Letters, digits and some further characters, the first a letter or a digit, 128 at most and not none. */
  ghost predicate WellFormed(text: string, further: set<char>) {
    && 1 <= |text| <= 128 && text[0] !in further
    && forall c :: c in text ==> 'a' <= c <= 'z' || 'A' <= c <= 'Z' || '0' <= c <= '9' || c in further
  }

  /** A request is refused exactly when the user's external id or the tool name it gives is malformed; it is
      answered 422, and neither recorded nor run. A capability id is never malformed. */
  lemma RefusedIff(a: Arrival)
    ensures Handled(a).Refused? <==>
      || !WellFormed(a.request.user, {'.', '_', '@', ':', '-'})
      || (a.request.McpCall? && !WellFormed(a.request.tool, {'_'}))
    ensures Handled(a).Refused? ==>
      Answer(a) == ApiError(422, "request_validation_failed") && LoggedBy(a) == ([], [], [])
  {
    hide AttemptOf;
    ExternalIdIff(a.request.user);
    if a.request.McpCall? { ToolNameIff(a.request.tool); }
  }

  lemma ExternalIdIff(s: string)
    ensures ValidExternalId(s) <==> WellFormed(s, {'.', '_', '@', ':', '-'})
  {
    forall c: char ensures c in "._@:-" <==> c in {'.', '_', '@', ':', '-'} {
      CharsOf(c);
    }
    if WellFormed(s, {'.', '_', '@', ':', '-'}) {
      assert s[0] in s;
      forall i | 0 <= i < |s| ensures IsAlnum(s[i]) || s[i] in "._@:-" { assert s[i] in s; }
    }
  }

  lemma CharsOf(c: char)
    ensures c in "._@:-" <==> c in {'.', '_', '@', ':', '-'}
  {
    var s := "._@:-";
    assert s[0] == '.' && s[1] == '_' && s[2] == '@' && s[3] == ':' && s[4] == '-' && |s| == 5;
  }

  lemma ToolNameIff(s: string)
    ensures Callable(s) <==> WellFormed(s, {'_'})
  {
    if WellFormed(s, {'_'}) {
      assert s[0] in s;
      forall i | 0 <= i < |s| ensures IsAlnum(s[i]) || s[i] == '_' { assert s[i] in s; }
    }
  }

  // ----- Requests without an event -----

  /** The ids of what the user may call, in order. */
  function VisibleIds(a: Arrival, user: Id): seq<string> {
    SortedIds(VisibleCapabilities(a.db, a.workspace, a.agent, user))
  }

  lemma LookupFailsIff(visible: seq<Capability>, tool: string, sha: string -> Digest)
    ensures Lookup(visible, tool, sha).None? <==> Names(SortedIds(visible), Duplicated(SortedIds(visible)), sha).None?
  {
    hide Sort, Names, Duplicated;
    SortCorrect(visible, CapabilityId);
    SortOfSorted(Sort(visible, CapabilityId), CapabilityId);
  }

  /** A tool call of an active user one of whose visible capabilities, its base name shared, finds all eight
      candidates among the names given before it. */
  ghost predicate Crowded(a: Arrival) {
    && a.request.McpCall? && ActiveSelectedUser(a.db, a.workspace, a.request.user).Some?
    && var ids := VisibleIds(a, ActiveSelectedUser(a.db, a.workspace, a.request.user).value);
       exists n :: 0 <= n < |ids| && CrowdedAt(ids, Duplicated(ids), a.services.sha, n)
  }

  /** The name map raises for exactly those requests. */
  lemma MapRaisesIff(a: Arrival)
    ensures AttemptOf(a).None? <==> Crowded(a)
  {
    hide VisibleCapabilities, Names, Duplicated, SortedIds, CrowdedAt, ActiveSelectedUser, SelectedUser, InvokeById,
      Lookup;
    if a.request.McpCall? && ActiveSelectedUser(a.db, a.workspace, a.request.user).Some? {
      var user := ActiveSelectedUser(a.db, a.workspace, a.request.user).value;
      var ids := VisibleIds(a, user);
      LookupFailsIff(VisibleCapabilities(a.db, a.workspace, a.agent, user), a.request.tool, a.services.sha);
      NamesFailIff(ids, Duplicated(ids), a.services.sha);
    }
  }

  /** It takes nine visible capabilities. */
  lemma MapRaisesOnlyWhenCrowded(a: Arrival)
    requires AttemptOf(a).None?
    ensures a.request.McpCall? && ActiveSelectedUser(a.db, a.workspace, a.request.user).Some?
    ensures var user := ActiveSelectedUser(a.db, a.workspace, a.request.user).value;
      |VisibleCapabilities(a.db, a.workspace, a.agent, user)| >= 9
  {
    hide VisibleCapabilities, Names, Duplicated, Sort, ActiveSelectedUser, SelectedUser, Lookup;
    var user := ActiveSelectedUser(a.db, a.workspace, a.request.user).value;
    var visible := VisibleCapabilities(a.db, a.workspace, a.agent, user);
    LookupFailsIff(visible, a.request.tool, a.services.sha);
    NamesFailOnlyWhenCrowded(SortedIds(visible), Duplicated(SortedIds(visible)), a.services.sha);
    SortCorrect(visible, CapabilityId);
    SameElements(visible, Sort(visible, CapabilityId));
  }

  /** The capability text an attempt records: the id asked for, or the tool's capability, or the tool name. */
  function RecordedName(a: Arrival): string {
    match a.request
    case Invoke(_, id, _) => id
    case McpCall(externalId, tool, _) =>
      match ActiveSelectedUser(a.db, a.workspace, externalId)
      case None => tool
      case Some(user) =>
        match Lookup(VisibleCapabilities(a.db, a.workspace, a.agent, user), tool, a.services.sha)
        case Some(Some(capability)) => capability.id
        case _ => tool
  }

  lemma InvocationRecordsItsId(a: Arrival, externalId: string, id: string, input: Json)
    requires KeyedCapabilities(a.db)
    ensures var t := InvokeById(a, externalId, id, input); t.audit.capability == id == t.usage.capability
  {
    hide Granted, ResolveSecret, UserByExternalId, CapabilityRuns;
    var user := ActiveSelectedUser(a.db, a.workspace, externalId);
    if user.Some? && ActiveCapabilityById(a.db, a.workspace, id).Some? {
      AuthorizedKey(a.db, a.workspace, id);
    }
  }

  lemma AttemptRecordsItsName(a: Arrival)
    requires KeyedCapabilities(a.db) && AttemptOf(a).Some?
    ensures var t := AttemptOf(a).value; t.audit.capability == RecordedName(a) == t.usage.capability
  {
    hide VisibleCapabilities, ActiveSelectedUser, SelectedUser, InvokeById, Lookup;
    match a.request
    case Invoke(user, id, input) => InvocationRecordsItsId(a, user, id, input);
    case McpCall(user, tool, input) => InvocationRecordsItsId(a, user, RecordedName(a), input);
  }

  /** What the request itself puts into the events fits: its id, the caller's address, the name. */
  predicate TextsFit(a: Arrival, name: string) {
    && |a.requestId| <= 128 && '\0' !in a.requestId
    && (a.remoteAddress.Some? ==> |a.remoteAddress.value| <= 64 && '\0' !in a.remoteAddress.value)
    && |name| <= 128 && '\0' !in name
  }

  /** What the services and the adapter put into them fits: the error code and the units. */
  predicate ResultFits(t: Attempt) {
    && (t.audit.errorCode.Some? ==> |t.audit.errorCode.value| <= 128 && '\0' !in t.audit.errorCode.value)
    && t.usage.units <= 2147483647
  }

  /** A request that reaches the handler leaves no event exactly when the name map raises for it or a value
      does not fit its column. */
  lemma UnaccountedIff(a: Arrival)
    requires KeyedCapabilities(a.db) && Admissible(a.request)
    ensures !Handled(a).Recorded?
      <==> Crowded(a) || !TextsFit(a, RecordedName(a)) || (AttemptOf(a).Some? && !ResultFits(AttemptOf(a).value))
  {
    hide AttemptOf, RecordedName, Crowded, Admissible;
    MapRaisesIff(a);
    if AttemptOf(a).Some? { AttemptRecordsItsName(a); }
  }

  /** Error codes and usage units within bounds, as the built-in checks and adapters give them. */
  ghost predicate ModestServices(a: Arrival) {
    && (forall input, schema ::
          a.services.inputError(input, schema).Some? ==>
            FitsColumn(a.services.inputError(input, schema).value, TEXT_WIDTH))
    && (forall data, schema ::
          a.services.outputError(data, schema).Some? ==>
            FitsColumn(a.services.outputError(data, schema).value, TEXT_WIDTH))
    && (a.outcome.Reported? && a.outcome.code.Some? ==> FitsColumn(a.outcome.code.value, TEXT_WIDTH))
    && (a.outcome.Returned? ==> a.outcome.usageUnits <= MAX_INTEGER)
  }

  /** Then what is lost can be told from the request and the tables alone. */
  lemma UnaccountedIffOnRequest(a: Arrival)
    requires KeyedCapabilities(a.db) && Admissible(a.request) && ModestServices(a)
    ensures !Handled(a).Recorded? <==> Crowded(a) || !TextsFit(a, RecordedName(a))
  {
    hide AttemptOf, RecordedName, Crowded, FitsColumn, Admissible, ModestServices, ResultFits, TextsFit;
    UnaccountedIff(a);
    if AttemptOf(a).Some? { ModestResultsFit(a); }
  }

  lemma ModestResultsFit(a: Arrival)
    requires ModestServices(a) && AttemptOf(a).Some?
    ensures ResultFits(AttemptOf(a).value)
  {
    hide InvokeById, ResultFits, Lookup, VisibleCapabilities, ActiveSelectedUser, SelectedUser, ModestServices;
    if a.request.Invoke? {
      ModestInvocationFits(a, a.request.user, a.request.capability, a.request.input);
    } else {
      DenialFits(SelectedUser(a.db, a.workspace, a.request.user), a.request.tool, None);
      var user := ActiveSelectedUser(a.db, a.workspace, a.request.user);
      if user.Some? {
        DenialFits(user, a.request.tool, None);
        var found :=
          Lookup(VisibleCapabilities(a.db, a.workspace, a.agent, user.value), a.request.tool, a.services.sha);
        if found.Some? && found.value.Some? {
          ModestInvocationFits(a, a.request.user, found.value.value.id, a.request.input);
        }
      }
    }
  }

  lemma DenialFits(user: Option<Id>, name: string, application: Option<Id>)
    ensures ResultFits(Refusal(user, name, application, false, 403, "capability_denied", []))
  {
  }

  lemma ModestInvocationFits(a: Arrival, externalId: string, id: string, input: Json)
    requires ModestServices(a)
    ensures ResultFits(InvokeById(a, externalId, id, input))
  {
    hide Granted, ActiveCapabilityById, Serve, ActiveSelectedUser, SelectedUser, ModestServices, ResultFits;
    DenialFits(SelectedUser(a.db, a.workspace, externalId), id, None);
    var user := ActiveSelectedUser(a.db, a.workspace, externalId);
    if user.Some? {
      DenialFits(user, id, None);
      var found := ActiveCapabilityById(a.db, a.workspace, id);
      if found.Some? {
        DenialFits(user, id, Some(found.value.application));
        ModestServiceFits(a, user.value, found.value, input);
      }
    }
  }

  lemma ModestServiceFits(a: Arrival, user: Id, capability: Capability, input: Json)
    requires ModestServices(a)
    ensures ResultFits(Serve(a, user, capability, input))
  {
    hide ResolveSecret;
    OwnCodesFit(a.db, capability, user, a.services.unseal);
  }

  /** The pipeline's own error codes are short. */
  lemma OwnCodesFit(db: Db, capability: Capability, user: Id, unseal: string -> Option<string>)
    ensures FitsColumn("adapter_not_found", TEXT_WIDTH) && FitsColumn("adapter_error", TEXT_WIDTH)
    ensures var secret := ResolveSecret(db, capability, user, unseal);
      secret.Err? ==> FitsColumn(secret.error, TEXT_WIDTH)
  {
    hide ActiveSecret;
  }

  // ----- Such requests exist -----

  function PlainCapability(id: string): Capability {
    Capability(id, 0, 0, "search", 1, "nethvoice", "nethvoice", "phonebook.search", UserAuth, ReadOnly,
      JsonSchema.SEARCH_INPUT_SCHEMA, JsonSchema.NETHVOICE_OUTPUT_SCHEMA, Active)
  }

  /** One workspace, application, agent, user and role, and a binding for each of the crowded ids, and a secret. */
  function CrowdedDb(sha: string -> Digest): Db {
    Db(
      map[0 := Workspace("demo", "Demo", Active)],
      map[0 := Application(0, "phone", "Phone", "nethvoice", None, Active)],
      map[0 := Agent(0, "agent", "Agent", "token", Active)],
      map[0 := User(0, "mario", "Mario", Active)],
      map id | id in CrowdedIds(sha) :: PlainCapability(id),
      map[0 := Role(0, "caller", "Caller", Active)],
      DEFAULT_PERMISSIONS,
      {(0, DESCRIBE_PERMISSION), (0, "capability.invoke.read_only")},
      map i: nat | i < 10 :: Binding(0, 0, 0, CrowdedIds(sha)[i], 0, Active),
      map[0 := Secret(0, 0, UserOwner, 0, "bearer_token", "sealed", Live)])
  }

  /** The database accepts it, and its references are in order. */
  lemma CrowdedDbIsSound(sha: string -> Digest)
    ensures Inv(CrowdedDb(sha)) && KeyedCapabilities(CrowdedDb(sha))
  {
    hide CrowdedIds, CrowdedDb, WellReferenced, Accepts;
    CrowdedKeysDiffer(sha);
    CrowdedReferences(sha);
    assert WellReferenced(CrowdedDb(sha)) by { ReferenceParts(CrowdedDb(sha)); }
    assert Accepts(CrowdedDb(sha)) by { AcceptParts(CrowdedDb(sha)); }
  }

  lemma AcceptParts(db: Db)
    ensures Accepts(db) <==> (
      && UniqueWorkspaces(db) && UniqueApplications(db) && UniqueUsers(db) && UniqueAgents(db) && UniqueRoles(db)
      && UniqueActiveBindings(db) && UniqueActiveSecrets(db))
  {
  }

  lemma ReferenceParts(db: Db)
    ensures WellReferenced(db) <==> (
      && ApplicationsOk(db) && UsersOk(db) && AgentsOk(db) && RolesOk(db) && CapabilitiesOk(db)
      && RolePermissionsOk(db) && BindingsOk(db) && SecretsOk(db))
  {
  }

  lemma CrowdedKeysDiffer(sha: string -> Digest)
    ensures var db := CrowdedDb(sha);
      && UniqueWorkspaces(db) && UniqueApplications(db) && UniqueUsers(db) && UniqueAgents(db) && UniqueRoles(db)
      && UniqueActiveBindings(db) && UniqueActiveSecrets(db)
  {
    hide CrowdedIds, DEFAULT_PERMISSIONS, PlainCapability;
    CrowdedIdsDiffer(sha);
  }

  lemma CrowdedReferences(sha: string -> Digest)
    ensures var db := CrowdedDb(sha);
      && ApplicationsOk(db) && UsersOk(db) && AgentsOk(db) && RolesOk(db) && CapabilitiesOk(db)
      && RolePermissionsOk(db) && BindingsOk(db) && SecretsOk(db)
    ensures KeyedCapabilities(CrowdedDb(sha))
  {
    hide CrowdedIds, DEFAULT_PERMISSIONS, PlainCapability, BindingsOk, RolePermissionsOk, CapabilitiesOk;
    CrowdedCapabilities(sha);
    CrowdedBindings(sha);
    CrowdedGrants(sha);
  }

  lemma CrowdedCapabilities(sha: string -> Digest)
    ensures CapabilitiesOk(CrowdedDb(sha)) && KeyedCapabilities(CrowdedDb(sha))
  {
    hide CrowdedIds, DEFAULT_PERMISSIONS, JsonSchema.SEARCH_INPUT_SCHEMA, JsonSchema.NETHVOICE_OUTPUT_SCHEMA;
  }

  lemma CrowdedBindings(sha: string -> Digest)
    ensures BindingsOk(CrowdedDb(sha))
  {
    hide CrowdedIds, DEFAULT_PERMISSIONS, JsonSchema.SEARCH_INPUT_SCHEMA, JsonSchema.NETHVOICE_OUTPUT_SCHEMA;
    CrowdedCount(sha);
    var db := CrowdedDb(sha);
    assert forall k :: k in db.bindings ==> db.bindings[k].capability in db.capabilities;
  }

  lemma CrowdedGrants(sha: string -> Digest)
    ensures RolePermissionsOk(CrowdedDb(sha))
  {
    hide CrowdedIds, DEFAULT_PERMISSIONS, PlainCapability;
    DefaultsHold();
  }

  lemma DefaultsHold()
    ensures DESCRIBE_PERMISSION in DEFAULT_PERMISSIONS && "capability.invoke.read_only" in DEFAULT_PERMISSIONS
  {
  }

  lemma CrowdedIdsDiffer(sha: string -> Digest)
    ensures forall i, j :: 0 <= i < j < 10 ==> CrowdedIds(sha)[i] != CrowdedIds(sha)[j]
  {
    hide Before, CrowdedIds;
    forall i, j | 0 <= i < j < 10 ensures CrowdedIds(sha)[i] != CrowdedIds(sha)[j] {
      CrowdedIdsInOrder(sha, i, j);
      BeforeTotal(CrowdedIds(sha)[i], CrowdedIds(sha)[j]);
    }
  }

  /** The user may call exactly the crowded ids. */
  lemma CrowdedVisible(sha: string -> Digest, id: string)
    ensures Authorize(CrowdedDb(sha), 0, 0, 0, id).Some? <==> id in CrowdedIds(sha)
  {
    hide CrowdedIds, Authorize, Inv, Before, JsonSchema.SEARCH_INPUT_SCHEMA, JsonSchema.NETHVOICE_OUTPUT_SCHEMA;
    var db := CrowdedDb(sha);
    CrowdedDbIsSound(sha);
    assert UniqueActiveBindings(db) by { InvGivesIndex(db); }
    AuthorizedIff(db, 0, 0, 0, id);
    if id in CrowdedIds(sha) {
      var k: nat :| k < 10 && CrowdedIds(sha)[k] == id;
      assert Authorizes(db, 0, 0, 0, id, k);
    }
    if k: nat :| Authorizes(db, 0, 0, 0, id, k) {
      assert db.bindings[k].capability == CrowdedIds(sha)[k];
    }
  }

  lemma InvGivesIndex(db: Db)
    ensures Inv(db) ==> UniqueActiveBindings(db)
  {
  }

  function Same(s: string): string { s }

  /** Two strictly increasing lists of the same strings are equal. */
  lemma IncreasingListsAgree(xs: seq<string>, ys: seq<string>)
    requires StrictlySorted(xs, Same) && StrictlySorted(ys, Same) && Elems(xs) == Elems(ys)
    ensures xs == ys
  {
    hide Before;
    forall i, j | 0 <= i < j < |xs| ensures xs[i] != xs[j] { BeforeTotal(Same(xs[i]), Same(xs[j])); }
    forall i, j | 0 <= i < j < |ys| ensures ys[i] != ys[j] { BeforeTotal(Same(ys[i]), Same(ys[j])); }
    NoDupCardinality(xs);
    NoDupCardinality(ys);
    forall x ensures x in xs <==> x in ys {
      assert x in Elems(xs) <==> x in Elems(ys);
    }
    StrictIsUnique(xs, ys, Same);
  }

  lemma CrowdedVisibleIds(sha: string -> Digest)
    ensures SortedIds(VisibleCapabilities(CrowdedDb(sha), 0, 0, 0)) == CrowdedIds(sha)
  {
    hide CrowdedIds, CrowdedDb, VisibleCapabilities, Before, Authorize, Inv;
    var db := CrowdedDb(sha);
    CrowdedDbIsSound(sha);
    assert UniqueActiveBindings(db) by { InvGivesIndex(db); }
    var visible := VisibleCapabilities(db, 0, 0, 0);
    VisibleStrictlySorted(db, 0, 0, 0);
    StrictIsSorted(visible);
    SortOfSorted(visible, CapabilityId);
    var ids := SortedIds(visible);
    forall id ensures id in Elems(ids) <==> id in Elems(CrowdedIds(sha)) {
      DiscoveryIsTheGate(db, 0, 0, 0, id);
      CrowdedVisible(sha, id);
      if c :| c in visible && c.id == id {
        var i :| 0 <= i < |visible| && visible[i] == c;
        assert ids[i] == id;
      }
      if id in ids {
        var i :| 0 <= i < |ids| && ids[i] == id;
        assert visible[i] in visible;
      }
    }
    forall i, j | 0 <= i < j < 10 ensures Before(CrowdedIds(sha)[i], CrowdedIds(sha)[j]) {
      CrowdedIdsInOrder(sha, i, j);
    }
    forall i, j | 0 <= i < j < |ids| ensures Before(Same(ids[i]), Same(ids[j])) {
      assert Before(CapabilityId(visible[i]), CapabilityId(visible[j]));
    }
    assert |CrowdedIds(sha)| == 10 by { CrowdedCount(sha); }
    IncreasingListsAgree(ids, CrowdedIds(sha));
  }

  lemma CrowdedCount(sha: string -> Digest)
    ensures |CrowdedIds(sha)| == 10
  {
  }

  lemma StrictIsSorted(visible: seq<Capability>)
    requires StrictlySorted(visible, CapabilityId)
    ensures Sorted(visible, CapabilityId)
  {
    hide Before;
    forall i, j | 0 <= i < j < |visible| ensures !Before(CapabilityId(visible[j]), CapabilityId(visible[i])) {
      BeforeTotal(CapabilityId(visible[i]), CapabilityId(visible[j]));
    }
  }

  function CrowdedCall(services: Services, outcome: AdapterOutcome, tool: string, input: Json): Arrival {
    Arrival(CrowdedDb(services.sha), 0, 0, McpCall("mario", tool, input), services, outcome, "request", None)
  }

  /** Whatever the hash, there is a sound database in which no tool call of this user leaves an event. */
  lemma SomeToolCallsLeaveNoEvent(services: Services, outcome: AdapterOutcome, tool: string, input: Json)
    requires Callable(tool)
    ensures var a := CrowdedCall(services, outcome, tool, input); Inv(a.db) && Handled(a) == MapRaised
  {
    hide CrowdedIds, VisibleCapabilities, Names, Duplicated, SortedIds, Inv, Lookup, CrowdedDb, Callable;
    var a := CrowdedCall(services, outcome, tool, input);
    CrowdedDbIsSound(services.sha);
    CrowdedVisibleIds(services.sha);
    SomeIdsRaise(services.sha);
    CrowdedUser(services.sha);
    LookupFailsIff(VisibleCapabilities(a.db, 0, 0, 0), tool, services.sha);
    MarioIsValid();
  }

  lemma MarioIsValid()
    ensures ValidExternalId("mario")
  {
  }

  /** No request under an id longer than 128 leaves an event. */
  lemma LongRequestIdIsLost(a: Arrival)
    requires |a.requestId| > 128
    ensures !Handled(a).Recorded? && LoggedBy(a).0 == [] && LoggedBy(a).1 == []
  {
    hide AttemptOf, Admissible;
  }

  /** Nor does an invocation of a capability id longer than 128. */
  lemma LongCapabilityIdIsLost(a: Arrival)
    requires KeyedCapabilities(a.db) && a.request.Invoke? && |a.request.capability| > 128
    ensures !Handled(a).Recorded? && LoggedBy(a).0 == [] && LoggedBy(a).1 == []
  {
    hide InvokeById, Admissible;
    AttemptRecordsItsName(a);
  }

  function NoError(instance: Json, schema: Json): Option<string> { None }
  function Open(cipher: string): Option<string> { Some(cipher) }

  /** A plain invocation under a request id of 129 characters. */
  function LongIdCall(sha: string -> Digest): Arrival {
    Arrival(CrowdedDb(sha), 0, 0, Invoke("mario", "a.b", Obj(map[])),
      Services(NoError, NoError, Open, {"nethvoice"}, sha),
      Returned(Obj(map[]), 1), seq(129, _ => 'x'), None)
  }

  /** Its adapter is called and nothing is recorded: the calls outnumber the events. */
  lemma SomeSideEffectLeavesNoEvent(sha: string -> Digest)
    ensures var a := LongIdCall(sha); Inv(a.db) && Handled(a).Unrecorded? && |LoggedBy(a).2| == 1
    ensures var (audit, usage, calls) := Logs([LongIdCall(sha)]); |calls| == 1 && audit == [] && usage == []
  {
    hide CrowdedIds, InvokeById, Inv, Authorize, CrowdedDb, SecretRuns;
    var a := LongIdCall(sha);
    CrowdedDbIsSound(sha);
    CrowdedUser(sha);
    MarioIsValid();
    InvocationOutcomes(a, "mario", "a.b", Obj(map[]));
    CrowdedVisible(sha, "a.b");
    assert "a.b" in CrowdedIds(sha) by { CrowdedHolds(sha); }
    CrowdedSecret(sha);
    AuthorizedRow(a.db, 0, 0, 0, "a.b");
    assert [a][..0] == [];
    assert Logs([]) == ([], [], []);
  }

  lemma CrowdedHolds(sha: string -> Digest)
    ensures "a.b" in CrowdedIds(sha) && "a.b" in CrowdedDb(sha).capabilities
  {
    assert CrowdedIds(sha)[8] == "a.b";
  }

  lemma CrowdedSecret(sha: string -> Digest)
    ensures "a.b" in CrowdedDb(sha).capabilities
    ensures CrowdedDb(sha).capabilities["a.b"] == PlainCapability("a.b")
    ensures ResolveSecret(CrowdedDb(sha), PlainCapability("a.b"), 0, Open).Ok?
  {
    hide CrowdedIds, Inv;
    var db := CrowdedDb(sha);
    CrowdedDbIsSound(sha);
    CrowdedHolds(sha);
    assert UniqueActiveSecrets(db);
    ResolvedSecretIsTheOwners(db, PlainCapability("a.b"), 0, Open);
    assert OwnedSecret(db, PlainCapability("a.b"), 0, db.secrets[0]);
  }

  lemma CrowdedUser(sha: string -> Digest)
    ensures ActiveSelectedUser(CrowdedDb(sha), 0, "mario") == Some(0)
  {
    hide CrowdedIds;
    var db := CrowdedDb(sha);
    assert LiveWorkspace(db, 0) && db.users[0] == User(0, "mario", "Mario", Active);
    var found := set k | k in db.users && db.users[k].workspace == 0 && db.users[k].externalId == "mario"
      && LiveWorkspace(db, 0);
    assert 0 in found && forall k :: k in found ==> k == 0;
    assert Smallest(found) == 0;
  }

  // ----- Over a run of requests -----

  /** The logs after a run of requests. */
  function Logs(run: seq<Arrival>): (seq<RuntimeAudit>, seq<UsageEvent>, seq<AdapterCall>)
    decreases |run|
  {
    if run == [] then ([], [], [])
    else
      var before, added := Logs(run[..|run| - 1]), LoggedBy(run[|run| - 1]);
      (before.0 + added.0, before.1 + added.1, before.2 + added.2)
  }

  /** The requests that are recorded, in order. */
  function Accounted(run: seq<Arrival>): seq<Arrival> {
    if run == [] then []
    else Accounted(run[..|run| - 1]) + if Handled(run[|run| - 1]).Recorded? then [run[|run| - 1]] else []
  }

  /** How many adapter calls were made by requests that are not. */
  function UnrecordedCalls(run: seq<Arrival>): nat {
    if run == [] then 0
    else
      UnrecordedCalls(run[..|run| - 1])
        + if Handled(run[|run| - 1]).Unrecorded? then |Handled(run[|run| - 1]).attempt.calls| else 0
  }

  function Count(usage: seq<UsageEvent>, status: UsageStatus): nat {
    if usage == [] then 0
    else Count(usage[..|usage| - 1], status) + if usage[|usage| - 1].status == status then 1 else 0
  }

  function Units(usage: seq<UsageEvent>): int {
    if usage == [] then 0 else Units(usage[..|usage| - 1]) + usage[|usage| - 1].units
  }

  /** Event i is that of the i-th recorded request, and its two halves agree. */
  ghost predicate EventsAgree(recorded: seq<Arrival>, audit: seq<RuntimeAudit>, usage: seq<UsageEvent>) {
    && |audit| == |usage| == |recorded|
    && forall i :: 0 <= i < |recorded| ==> (
         && Handled(recorded[i]).Recorded?
         && audit[i] == Handled(recorded[i]).attempt.audit && usage[i] == Handled(recorded[i]).attempt.usage
         && (!audit[i].allowed <==> usage[i].status.Denied?)
         && (audit[i].errorCode.None? <==> usage[i].status.Success?)
         && audit[i].user == usage[i].user && audit[i].capability == usage[i].capability
         && usage[i].units >= 1)
  }

  /** Over any run there is one audit and one usage event for each recorded request, in order and in
      agreement. The adapter calls, less those of unrecorded requests, lie between the successes and the
      attempts not denied. */
  lemma {:induction false} RunIsFullyAccounted(run: seq<Arrival>)
    ensures var (audit, usage, calls) := Logs(run);
      && EventsAgree(Accounted(run), audit, usage)
      && Count(usage, Success) <= |calls| - UnrecordedCalls(run) <= |usage| - Count(usage, Denied)
      && Units(usage) >= |usage|
    decreases |run|
  {
    hide Handled, IsRecordable, EventsAgree, Count, Units, WellAccounted;
    if run == [] {
      NothingLogged();
    } else {
      var front, last := run[..|run| - 1], run[|run| - 1];
      RunIsFullyAccounted(front);
      HandledWell(last);
      var before, added := Logs(front), LoggedBy(last);
      if Handled(last).Recorded? {
        assert added == ([Handled(last).attempt.audit], [Handled(last).attempt.usage], Handled(last).attempt.calls);
        EventAdded(Accounted(front), before.0, before.1, last);
      } else {
        assert before.0 + added.0 == before.0 && before.1 + added.1 == before.1;
        assert Accounted(run) == Accounted(front);
      }
    }
  }

  lemma NothingLogged()
    ensures EventsAgree([], [], []) && Count([], Success) == 0 == Count([], Denied) && Units([]) == 0
  {
  }

  /** One more recorded request. */
  lemma EventAdded(recorded: seq<Arrival>, audit: seq<RuntimeAudit>, usage: seq<UsageEvent>, a: Arrival)
    requires EventsAgree(recorded, audit, usage) && Handled(a).Recorded? && WellAccounted(Handled(a).attempt)
    ensures var t := Handled(a).attempt;
      && EventsAgree(recorded + [a], audit + [t.audit], usage + [t.usage])
      && Count(usage + [t.usage], Success) <= Count(usage, Success) + |t.calls|
      && |t.calls| <= 1 - (Count(usage + [t.usage], Denied) - Count(usage, Denied))
      && Units(usage + [t.usage]) >= Units(usage) + 1
  {
    hide Handled, Count, Units;
    UsageGrows(usage, Handled(a).attempt.usage);
  }

  lemma UsageGrows(usage: seq<UsageEvent>, event: UsageEvent)
    ensures Units(usage + [event]) == Units(usage) + event.units
    ensures forall status ::
      Count(usage + [event], status) == Count(usage, status) + if event.status == status then 1 else 0
  {
    assert (usage + [event])[..|usage|] == usage;
  }

  lemma HandledWell(a: Arrival)
    ensures Handled(a).Recorded? ==> WellAccounted(Handled(a).attempt) && IsRecordable(a, Handled(a).attempt)
    ensures Handled(a).Unrecorded? ==> !IsRecordable(a, Handled(a).attempt)
  {
    hide AttemptOf, Admissible, Recordable;
    if AttemptOf(a).Some? { EveryAttemptIsWellAccounted(a); }
  }

  /** No request is missing from the logs exactly when each is recorded. */
  lemma {:induction false} AllAccountedIff(run: seq<Arrival>)
    ensures |Accounted(run)| <= |run|
    ensures |Accounted(run)| == |run| <==> forall i :: 0 <= i < |run| ==> Handled(run[i]).Recorded?
  {
    hide Handled;
    if run != [] {
      AllAccountedIff(run[..|run| - 1]);
    }
  }
}
