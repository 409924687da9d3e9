# Grantora: a verified model of its core

Grantora lets agents call capabilities of upstream applications on behalf of users. These Dafny modules model
its five connected mechanisms and prove what each keeps over whole runs. Verify everything with
`dafny verify dfyconfig.toml`.

**Route reconciler** (`Routes`, `SyncRun`, `Convergence`, `Reconciler`, `DriftCheck`). The remote gateway is a
map from route id to route. Every client call meets a fault of its own: none, lost before taking effect, or
landed although the call failed. A run is a function of the rows, the mode, the listing order and the faults;
`Reconciler` is the imperative form, proved equal to it. Assumption: no other writer during a run.

**MCP tool names** (`ToolNames`, `NameMap`, `ToolSurfaces`). Capability ids are normalised to base names, and
shared ones get hash suffixes of growing length. SHA-256 is an arbitrary function to 64 hex characters.

**Authorization** (`Tables`, `Constraints`, `AdminOps`, `AdminRuns`, `AdminHistory`, `AdminOutcomes`,
`AdminEffects`, `Queries`, `Revocation`).
Tables are maps from primary key to row, unique and partial unique indexes are predicates tested at flush,
and the admin endpoints are staged changes that a session commits or rolls back. Runtime queries are set
comprehensions over the tables.

**Invocation and adapters** (`Invocation`, `Accounting`, `Retry`, `Json`, `JsonSchema`, `AdapterFields`,
`NethVoice`, `Nextcloud`, `SchemaWalk`, `TemplateShapes`, `Delivery`). JSON is a datatype, and the evaluator knows
the keywords the templates use, as JSON Schema Core 2020-12 (sections 10.3.1.2, 10.3.2.1, 10.3.2.3) and JSON Schema Validation 2020-12
(sections 6.1.1, 6.1.3, 6.2.2, 6.2.4, 6.3.2, 6.5.3) define them. `Delivery` joins the parts: template, admin
history, pipeline and adapter.

**Demo seeding** (`DemoSeed`, `DemoProgress`, `DemoToken`, `DemoReady`). The client protocol runs against the admin model, and any
request may be lost or land without an answer.

`Prelude` and `Text` hold shared datatypes, Python's string order, stable sorting and trimming.

## Where the code does less than one would expect

Each of these is proved with an input that shows it and with the exact condition.

- Tool names are not always injective: an unshared base name is assigned without looking at the used names
  (`NameMap.SomeIdsClash`, `NameMap.NamesInjectiveIff`, and on the ids alone `NameMap.NamesInjectiveIffOnIds`).
- Requests that reach the handler may leave no audit or usage event: the name map can raise for valid ids
  (`NameMap.SomeIdsRaise`, `NameMap.NamesFailIff`, `Accounting.SomeToolCallsLeaveNoEvent`), and a request id,
  capability id or error code longer than its PostgreSQL column fails the commit, even after the adapter was called
  (`Accounting.LongRequestIdIsLost`, `Accounting.LongCapabilityIdIsLost`, `Accounting.SomeSideEffectLeavesNoEvent`).
  The two causes together are exact (`Accounting.UnaccountedIff`, `Accounting.UnaccountedIffOnRequest`).
- The 128-character limit binds hashed names only; a digit-led id gets eleven more characters
  (`ToolNames.LongDigitLedIdOverflows`, `ToolNames.BaseNameOverflowsIff`, `NameMap.NamesFitIff`). Such a name is
  listed but refused in a call (`ToolSurfaces.LongToolIsListedButNotCallable`, `ToolSurfaces.ListedNamesFitIff`,
  `ToolSurfaces.CallsReachTheListedCapabilityIff`).
- A change of the rate-limit settings never reaches the default route, whose row keeps the settings it was made
  under; it reaches exactly the rows without a limit of their own (`Routes.DefaultRouteServes`,
  `Routes.SettingsAreUnseenIff`).
- The drift check built on an unpersisted default row sees no status and reports drift where the sync sees none
  (`DriftCheck.UnpersistedDefaultLooksDrifted`, `DriftCheck.CheckAgreesWithSyncIff`).
- The input schema accepts the limit 5.0, which both adapters replace by 50 (`AdapterFields.FloatLimitIsReplaced`,
  `AdapterFields.AcceptedLimitIsKeptIff`).
- An agent token whose answer was lost is lost for good (`DemoToken.LostAnswerCreatesTheAgent`,
  `DemoToken.LostTokenStaysLost`, `DemoToken.TokenReportedIff`).
- Seeding whose requests are all answered may still end in a refused POST (`DemoProgress.SeedingCanStop`,
  `DemoProgress.SeedingCompletesIff`).
- `changed_routes` misses a write that landed although its call failed: the count is short by one exactly then
  (`Convergence.LandedWriteIsNotCounted`, `Convergence.AnyRunCountsItsDrop`).

## Model

| member | source | states |
|---|---|---|
| `Convergence.ConvergesAfterFailures` | src/grantora/apisix/reconciler.py:62-129 | for fixed rows and no other writer, any history of runs, each interrupted at any client call whose write may or may not have landed, followed by one run without failures, ends in exactly the remote map that one uninterrupted run of either mode reaches from the start, and that map is the target |
| `Convergence.CleanRunReachesTarget` | src/grantora/apisix/reconciler.py:62-129 | a run without failures ends in the target (desired ids match, stale managed ids gone, every other route as it was) with drift zero, and its `changed_routes` is the drift it started from |
| `Convergence.CleanRunServes` | src/grantora/apisix/reconciler.py:62-129 | after a run reported ok every row's route is there and serves the row field by field: name, upstream, labels, activity, uri, its own plugins, and for each baseline plugin it does not set the baseline, the rate limit being the settings' count and time window with code 429 |
| `Convergence.AnyRunCountsItsDrop` | src/grantora/apisix/reconciler.py:83-129 | a run reports exactly the drop in drift, less one if and only if it failed at a put, or a delete of a present route, that landed; it fails exactly when one of its calls meets a fault, and that call is its last |
| `SyncRun.RunTraced` | src/grantora/apisix/reconciler.py:62-129 | the calls of a run meet the faults of the tape one by one up to the first |
| `Convergence.LandedWriteIsNotCounted` | src/grantora/apisix/reconciler.py:83-129 | such a write is met: a put that lands although its call failed takes the drift from one to zero and leaves the count at zero |
| `Convergence.AnyRunKeepsTheTarget` | src/grantora/apisix/reconciler.py:62-129 | no run, however it fails, changes the map the rows call for |
| `SyncRun.WriteLowersDrift` | src/grantora/apisix/reconciler.py:87-100 | one write that puts a drifted id into its target state lowers the drift by exactly one |
| `SyncRun.RunTracks` | src/grantora/apisix/reconciler.py:62-129 | after any run, failed or not, each id is where it was or in its target state and count plus drift is accounted for; after an ok run every row matches and every listed stale route is gone |
| `Convergence.ModesAgree` | src/grantora/apisix/reconciler.py:76-100 | without failures fail_closed on and off give the same final map and the same `changed_routes`, although one lists before the puts and the other after |
| `Convergence.FailedPreloadWritesNothing` | src/grantora/apisix/reconciler.py:76-81 | fail_closed: if any of the first gets or the listing fails, no route was written |
| `Convergence.ReadsFailIff` | src/grantora/apisix/reconciler.py:176-183 | the preload fails exactly when one of its calls does |
| `Convergence.NoDriftNoWrites` | src/grantora/apisix/reconciler.py:83-100 | with no drift a run of any mode, order and fault pattern writes nothing |
| `Convergence.RunAfterCleanRunWritesNothing` | src/grantora/apisix/reconciler.py:83-100 | the run after a clean one makes no writes |
| `Convergence.RunWithoutFaultsIsOk` | src/grantora/apisix/reconciler.py:62-129 | a run that meets no fault is reported ok |
| `Convergence.RunOwnsWhatItChanges` | src/grantora/apisix/reconciler.py:87-100 | a run leaves a route as it found it, removes it, or leaves it carrying the managed label |
| `Convergence.EpochsKeepOwnership` | src/grantora/apisix/reconciler.py:94-100 | through any runs with edits of the route table in between, a managed id stays managed or is absent |
| `Convergence.RemovedRowDisappears` | src/grantora/apisix/reconciler.py:94-100 | a route some run put for a row is absent after the next clean run without that row, whatever failed or was edited in between |
| `Convergence.ForeignRouteUntouched` | src/grantora/apisix/reconciler.py:94-100 | an unlabelled route whose id no row ever uses is untouched by every run, failed or not |
| `Routes.EditIsUnseenIff` | src/grantora/apisix/reconciler.py:229-246 | which edits of a row the comparison sees: a pushed route matches a later version of its row exactly when name, upstream, effective plugins and activity agree, and the uri too unless the row is the default route |
| `Routes.InSyncIffServes` | src/grantora/apisix/reconciler.py:219-281 | a remote route matches a row's payload exactly when it serves the row, spelled out field by field with the plugin, label and uri values written in full |
| `Routes.PayloadCarriesTheLimit` | src/grantora/apisix/reconciler.py:229-273 | a payload serves its row, and for a row without a limit of its own carries the settings' count, time window and code 429 as integers |
| `Routes.DefaultRouteServes` | src/grantora/apisix/reconciler.py:219-281 | the default route forwards to exactly the one upstream node of the settings it was made under, round robin, and keeps their rate limit |
| `Routes.SettingsAreUnseenIff` | src/grantora/apisix/reconciler.py:229-273 | a change of the settings shows up as drift exactly on the rows without a rate limit of their own, and only if count or window changed; so never on the default route |
| `Routes.MatchingRouteIsManaged` | src/grantora/apisix/reconciler.py:244-261 | a remote route that matches a desired payload carries the managed label |
| `Routes.PayloadIsManaged` | src/grantora/apisix/reconciler.py:229-261 | every payload ever put carries the managed label |
| `Routes.TargetIsStable` | src/grantora/apisix/reconciler.py:83-100 | the target state of an id is a fixed point |
| `Routes.DirtyIffOffTarget` | src/grantora/apisix/reconciler.py:83-100 | the drift measure counts exactly the ids that are not in their target state |
| `Reconciler.ApisixAdmin.GetRoute` | src/grantora/apisix/client.py:41-45 | the client as a map store: a get reads one id or fails |
| `Reconciler.ApisixAdmin.ListRoutes` | src/grantora/apisix/client.py:47-49 | a listing returns all routes, in an order the server chooses, or fails |
| `Reconciler.ApisixAdmin.PutRoute` | src/grantora/apisix/client.py:51-53 | a put replaces one route, or fails before or after taking effect |
| `Reconciler.ApisixAdmin.DeleteRoute` | src/grantora/apisix/client.py:55-57 | a delete removes one route, or fails before or after taking effect |
| `Reconciler.RouteStore.EnsureDefaultRoute` | src/grantora/apisix/reconciler.py:186-194 | the persisted table gains the default row exactly when it lacks one, and stays sorted with unique ids |
| `Reconciler.LoadCurrentRoutes` | src/grantora/apisix/reconciler.py:176-183 | the preload reads every row id, or stops at the first failure |
| `Reconciler.PutRoutes` | src/grantora/apisix/reconciler.py:83-91 | the loop over the rows changes the remote, the count and the failure exactly as the put phase of a run, one read and at most one put a row |
| `Reconciler.DeleteStaleRoutes` | src/grantora/apisix/reconciler.py:93-100 | the loop over the listing changes the remote, the count and the failure exactly as the delete phase of a run, deleting only managed routes no row wants |
| `Reconciler.SyncRoutes` | src/grantora/apisix/reconciler.py:75-100 | either mode is one run, in a listing order that covers every route the run may have to delete |
| `Reconciler.Reconcile` | src/grantora/apisix/reconciler.py:62-129 | the whole call: the row table gains the default row, the recorded status is the result with its error code, ok means that every row's route serves it field by field, no drift is left and `changed` equals the initial drift, and a failed run undercounts the drop by at most one |
| `DriftCheck.CheckDrift` | src/grantora/apisix/reconciler.py:132-173 | without a failure the check counts exactly the mismatched and the missing rows and is in_sync exactly when none is mismatched; always missing <= drifted <= checked |
| `DriftCheck.CheckAgreesWithSync` | src/grantora/apisix/reconciler.py:132-173 | with the default row persisted, the check reports the puts a clean sync makes, the sync changes those plus the stale routes, and a check after it is in sync |
| `DriftCheck.CheckAgreesWithSyncIff` | src/grantora/apisix/reconciler.py:211-226 | in general the check and the sync count the same mismatches exactly when the default row is persisted or the remote default route matches neither version of it |
| `DriftCheck.UnpersistedDefaultLooksDrifted` | src/grantora/apisix/reconciler.py:186-226 | the disagreement is real: with an empty table and a gateway synced already, the unflushed default row has no status and its route is reported as drifted |
| `DriftCheck.NoRouteMatchesBothStatuses` | src/grantora/apisix/reconciler.py:229-246 | no route matches both the active and the unset-status default payload |
| `ToolNames.BaseNameIdempotent` | src/grantora/openapi/tools.py:56-62 | `capability_tool_name` is idempotent |
| `ToolNames.BaseNameShape` | src/grantora/openapi/tools.py:56-62 | a base name starts with a lower-case letter, has no doubled or outer underscores, fits the MCP pattern and is at most 11 longer than the id |
| `ToolNames.HashedToolName` | src/grantora/openapi/tools.py:65-76 | the while loop returns the first free candidate, within eight rounds, or raises |
| `ToolNames.CandidateShape` | src/grantora/openapi/tools.py:65-76 | each candidate ends in an underscore and 8, 16, … 64 hex characters, fits the pattern and is at most 128 long |
| `ToolNames.CandidateOfBaseName` | src/grantora/openapi/tools.py:65-76 | exactly what a candidate is: the base name, cut to what fits in 128 characters with an underscore and the hash, less an underscore at the cut, then the underscore and 8, 16, … 64 characters of the digest |
| `ToolNames.CandidatesDiffer` | src/grantora/openapi/tools.py:65-76 | the eight candidates are pairwise distinct, since the suffix is what follows the last underscore |
| `ToolNames.FirstFreeCorrect` | src/grantora/openapi/tools.py:65-76 | the result is the candidate of the first round whose candidate is unused, and failure means every candidate is used |
| `ToolNames.HashedNameFailsOnlyWhenCrowded` | src/grantora/openapi/tools.py:65-76 | pigeonhole: the loop can raise only when at least eight names are in use |
| `NameMap.CountBaseNames` | src/grantora/openapi/tools.py:37-40 | the counter holds, for each base name, the number of ids that share it |
| `NameMap.DuplicateBaseNames` | src/grantora/openapi/tools.py:37-42 | a base name is a duplicate exactly when two different ids share it |
| `NameMap.CapabilityToolNameMap` | src/grantora/openapi/tools.py:35-53 | the loop over the sorted capabilities fills the map id by id, or raises |
| `NameMap.ClashesAreShadowedBaseNames` | src/grantora/openapi/tools.py:44-52 | two capabilities share a name exactly when the later one has an unshared base name equal to the hashed name of the earlier one |
| `NameMap.NamesInjectiveIff` | src/grantora/openapi/tools.py:44-52 | the names are injective exactly when no unshared base name is an earlier hashed name |
| `NameMap.NamesInjectiveUnlessABaseLooksHashed` | src/grantora/openapi/tools.py:44-52 | a condition on the ids alone: injective if no unshared base name ends in an underscore and a hash-length block of hex |
| `NameMap.NamesInjectiveUnlessABaseIsACandidate` | src/grantora/openapi/tools.py:44-52 | a sharper one: injective if no unshared base name is a candidate of an earlier id with a shared one |
| `NameMap.NamesInjectiveIffOnIds` | src/grantora/openapi/tools.py:44-52 | where the first-round candidates are free the map does not raise, and it is injective exactly when no unshared base name is the first-round candidate of an earlier id with a shared one |
| `NameMap.SomeIdsClash` | src/grantora/openapi/tools.py:49-50 | injectivity does fail: for every hash function three valid ids are given for which the map does not raise and two of them get one name |
| `NameMap.NamesFitIff` | src/grantora/openapi/tools.py:44-76 | every name fits the MCP pattern, and fits the 128 limit exactly when it was hashed or its base name fits |
| `ToolNames.BaseNameOfValidId` | src/grantora/openapi/tools.py:56-62 | the base name of a valid capability id is the id with underscores for separators, behind `capability_` if it starts with a digit |
| `ToolNames.BaseNameIgnoresRuns` | src/grantora/openapi/tools.py:56-62 | in any id a run of characters other than ASCII letters and digits counts as one underscore |
| `ToolNames.BaseNameOfSeparators` | src/grantora/openapi/tools.py:56-62 | an id without any letter or digit is called capability |
| `ToolNames.BaseNameOverflowsIff` | src/grantora/openapi/tools.py:60-62 | a valid id gets a base name over the limit exactly when it starts with a digit and is longer than 117 |
| `ToolNames.LongDigitLedIdOverflows` | src/grantora/openapi/tools.py:60-62 | such an id exists, separator included |
| `NameMap.NamesFailOnlyWhenCrowded` | src/grantora/openapi/tools.py:44-52 | the map can raise only with at least nine capabilities |
| `NameMap.NamesFailIff` | src/grantora/openapi/tools.py:44-52 | the map raises exactly when some id with a shared base name finds all its eight candidates among the names given before it |
| `NameMap.SomeIdsRaise` | src/grantora/openapi/tools.py:65-76 | it does raise: for every hash function ten valid ids in increasing order are given for which it does |
| `NameMap.SortedIdsDistinct` | src/grantora/openapi/tools.py:44-45 | rows with distinct primary keys give strictly increasing ids |
| `NameMap.ToolNameMapInjectiveIff` | src/grantora/openapi/tools.py:35-53 | the map is defined on exactly the given ids, and gives two of them one name exactly under the shadowing condition |
| `ToolSurfaces.NameMapIgnoresOrder` | src/grantora/openapi/tools.py:35-53 | the map depends only on the set of capabilities, not on the order they are given in |
| `ToolSurfaces.SurfacesAgree` | src/grantora/openapi/description.py:35-82 | for any input orders the MCP list and the OpenAPI document describe the same capabilities under the same names, or both fail |
| `ToolSurfaces.OpenApiPathsCorrect` | src/grantora/openapi/description.py:48-59 | one path per capability, carrying its own id, tool name, operation id, name, risk, caller, input and output schema, and no others |
| `ToolSurfaces.McpToolsDescribe` | src/grantora/openapi/tools.py:16-32 | the MCP list has one tool per capability in the order of their ids, each with the name, description, input schema and invocation path of its own capability |
| `ToolSurfaces.CapabilityByToolName` | src/grantora/api/runtime.py:551-565 | the loop finds the first visible capability, by id, that has the name |
| `ToolSurfaces.ListedNamesCanBeCalledIff` | src/grantora/schemas/runtime.py:45-61 | a listed name is accepted by a call request exactly when it is at most 128 long, and then the lookup finds a visible capability listed under it |
| `ToolSurfaces.MappedNameFitsIff` | src/grantora/openapi/tools.py:44-76 | a name of the map is longer than 128 only as an unshared base name |
| `ToolSurfaces.ListedNamesFitIff` | src/grantora/openapi/tools.py:49-62 | on the ids: all listed names are short enough exactly when every digit-led id longer than 117 shares its base name |
| `ToolSurfaces.LongToolIsListedButNotCallable` | src/grantora/schemas/runtime.py:45-61 | the bound bites: a capability with such an id, alone in the list, has a name that no call may use |
| `ToolSurfaces.CallsReachTheListedCapabilityIff` | src/grantora/api/runtime.py:551-565 | every listed name reaches the very capability listed exactly when the names are injective and none is longer than a call may name |
| `AdminRuns.AdminSession.Flush` | src/grantora/api/admin.py:1178-1183 | a failing constraint rolls the session back to the committed tables |
| `AdminRuns.AdminSession.Commit` | src/grantora/api/admin.py:1186-1191 | staged rows become durable together or not at all |
| `AdminRuns.AdminSession.Handle` | src/grantora/api/admin.py:133-149 | the common shape of the create and update endpoints, first of them create_workspace (guards, staged change, flush, audit event, commit): it keeps the invariant and is one Step |
| `AdminRuns.AdminSession.CreateRoleInSteps` | src/grantora/api/admin.py:574-606 | create_role row by row, with its earlier flush of the missing default permissions and the refusals after that flush: it keeps the invariant and is still one Step, all or nothing |
| `AdminRuns.DedupePermissionCodes` | src/grantora/api/admin.py:1463-1464 | the codes without repetitions, the same ones |
| `AdminRuns.AdminSession.Rotate` | src/grantora/api/admin.py:858-896 | rotation row by row: keeps the invariant and is one Step |
| `AdminRuns.StageKeepsReferences` | src/grantora/api/admin.py:338-388 | whatever an endpoint stages, references still resolve inside the row's own workspace and provider types still agree |
| `AdminRuns.PerformKeepsInv` | src/grantora/api/admin.py:1178-1191 | one admin call keeps the invariant |
| `AdminRuns.EveryReachableStoreIsSound` | src/grantora/db/models.py:347-405 | over any sequence of admin calls: bindings, capabilities and secrets refer only to rows of their own workspace, provider types agree, and at most one binding or secret is active per key |
| `AdminRuns.EveryStoreFromEmptyIsSound` | src/grantora/db/models.py:347-405 | in particular whenever the database starts empty |
| `AdminRuns.StepIsAtomic` | src/grantora/api/admin.py:1178-1218 | the Step that Handle, CreateRoleInSteps and Rotate are proved to perform commits its change with exactly one audit event, or leaves the tables and the trail as they were |
| `AdminRuns.RotationReplacesTheSecret` | src/grantora/api/admin.py:858-896 | after a rotation the old secret is revoked, the replacement carries the new encrypted value under the new type, or the old one if none is given, it is the only active one for that owner, and every other secret is as it was |
| `AdminEffects.RotationReachesTheOwner` | src/grantora/api/admin.py:858-896 | whoever resolved the old secret before a rotation resolves the new value right after it |
| `AdminEffects.IssuedSecretIsUnsealed` | src/grantora/api/admin.py:758-896 | a created secret or the replacement of a rotated one is what its owner's calls unseal, after any further admin calls that leave it live |
| `AdminEffects.RevokedSecretIsNotResolved` | src/grantora/api/admin.py:840-856 | revoking a secret leaves its owner without one, and making it live again restores every table |
| `AdminRuns.ActivatedBindingIsSupported` | src/grantora/api/admin.py:732-754 | a binding becomes active only while its workspace, agent, user, capability and role are |
| `AdminRuns.ActivatedSecretIsSupported` | src/grantora/api/admin.py:840-854 | a secret becomes active only through the secret endpoints, and only while its workspace, application and owner are |
| `AdminRuns.ActivatedCapabilityIsSupported` | src/grantora/api/admin.py:504-530 | a capability becomes active only through the capability endpoints, and only while its workspace and application are |
| `AdminRuns.DisableThenEnableRestores` | src/grantora/api/admin.py:174-186 | switching an active row off leaves it off, and on again restores every table, for all seven status endpoints |
| `AdminOutcomes.StatusUpdateSucceedsIff` | src/grantora/api/admin.py:174-756 | a status update of any of the seven kinds succeeds exactly when the row is there, in scope, and is switched off or has everything active around it and, for a binding, no other active one for its key |
| `AdminOutcomes.UpdateRefusals` | src/grantora/api/admin.py:174-756 | otherwise it is refused as out of scope, not found or in conflict |
| `AdminOutcomes.CreationSucceedsIff` | src/grantora/api/admin.py:133-806 | a creation of any of the ten kinds succeeds exactly when its scope, the rows around it, the checks on its definition, the free id and the free name allow it |
| `AdminOutcomes.SecretUpdateSucceedsIff` | src/grantora/api/admin.py:840-856 | a secret can be revoked whenever it is in scope, and made live exactly when its surroundings are active and no other is live for its owner |
| `AdminOutcomes.RotationSucceedsIff` | src/grantora/api/admin.py:858-896 | a rotation succeeds exactly for a live secret in scope with active surroundings, while encryption works and the drawn id is free |
| `AdminOutcomes.TokenRotationSucceedsIff` | src/grantora/api/admin.py:1073-1090 | an agent token can be replaced by any hash no other agent has |
| `AdminEffects.NewTokenIdentifiesItsAgent` | src/grantora/db/queries.py:57-68 | a new token identifies its agent while agent and workspace are active, the one it replaces identifies nobody, and every other token identifies whom it did |
| `AdminEffects.CreatedUserIsSelected` | src/grantora/api/admin.py:271-290 | a created user is the one its external id selects, and every other selection is as before |
| `AdminEffects.CreatedBindingOpensTheGateIff` | src/grantora/api/admin.py:655-693 | an active binding opens the gate exactly when the application is active and the role holds the permissions of the capability's risk class |
| `AdminEffects.CreatedRoleGrantsIff` | src/grantora/api/admin.py:574-607 | a created role grants exactly the permissions it was given, and the default permissions are there |
| `AdminEffects.CreatedPermissionIsThere` | src/grantora/api/admin.py:538-550 | a created permission is there, held by no role, and nothing else changed |
| `AdminEffects.CreatedFromTemplate` | src/grantora/api/admin.py:414-473 | a capability made from a template bears the overriding id, name and version where given, else those of the template, for the workspace and application asked for |
| `AdminEffects.EventTellsTheChange` | src/grantora/api/admin.py:1194-1218 | the one audit event of a committed call names each row it inserted or changed, or the parties of the binding or secret, and their workspace |
| `AdminRuns.ScopedAdminStaysInside` | src/grantora/api/admin.py:1153-1160 | a workspace-scoped admin's call leaves every row owned by another workspace as it was |
| `AdminHistory.HistoryContinues` | src/grantora/api/admin.py:504-530 | over any sequence of admin calls no row disappears, and capability definitions, the parties of a binding, the permissions of a role and the owner and content of a secret never change |
| `Revocation.OffStaysOff` | src/grantora/api/admin.py:1093-1107 | a disabled row stays disabled through any admin calls other than switching that very row on |
| `Revocation.OffDenies` | src/grantora/db/queries.py:121-225 | while a workspace, application, user, agent, capability, role or binding is disabled, every call that runs through it is refused authorization; a call runs through a role or binding when no other binding for it is active |
| `Revocation.RunsThroughLasts` | src/grantora/api/admin.py:655-692 | a call runs through the same row as long as no admin call gives the caller another binding |
| `Revocation.RevokedStaysRevoked` | src/grantora/api/admin.py:655-754 | revoked access comes back only through a call that switches the row on or, for a role or binding, creates or activates another binding for the caller |
| `Queries.ListVisibleCapabilities` | src/grantora/api/runtime.py:585-610 | the loop keeps exactly the granted rows of the list query, in order |
| `Queries.ListedAreRunning` | src/grantora/db/queries.py:142-225 | the list query and the binding query select the same binding rows |
| `Queries.DiscoveryIsTheGate` | src/grantora/api/runtime.py:321-371 | an active user is shown a capability exactly when invoking it passes every check before input validation |
| `Queries.AuthorizedIff` | src/grantora/db/queries.py:121-225 | the gate opens exactly when some one binding with live rows around it has a role that holds the describe permission and, by risk class, capability.invoke.read_only, capability.invoke.side_effect (draft and side effect) or capability.invoke.destructive; never for the admin class |
| `Queries.ActiveCapabilityIsLive` | src/grantora/api/runtime.py:321-345 | the second application status test in the pipeline never fires |
| `Queries.UniqueIndexGivesOneBindingEach` | src/grantora/db/models.py:347-357 | under the partial unique index no capability is reached by two running bindings |
| `Queries.ListedStrictlySortedIff` | src/grantora/db/queries.py:142-175 | the list is strictly sorted by id exactly when no capability is reached by two running bindings |
| `Queries.VisibleStrictlySorted` | src/grantora/api/runtime.py:585-610 | under the index the visible list is strictly sorted by id, with no duplicates |
| `Queries.WorkspaceConjunctsAreRedundant` | src/grantora/db/queries.py:191-252 | in every state the admin calls can reach, the same-workspace conjuncts of the runtime queries change no result |
| `Invocation.ResolvedSecretIsTheOwners` | src/grantora/secrets/resolution.py:22-86 | resolution gives the one active secret for the capability's application in its workspace that the caller owns or, in system mode, the workspace, unsealed; admin mode is denied, no such secret is not found, and one that cannot be unsealed is unavailable |
| `Invocation.Runtime.Record` | src/grantora/api/runtime.py:693-742 | one audit event and one usage event, or neither when a value does not fit its column |
| `Invocation.Runtime.RecordError` | src/grantora/api/runtime.py:660-690 | a refusal records both events and answers with its code, or ends in a server error when they cannot be stored |
| `Invocation.Runtime.InvokeCapability` | src/grantora/api/runtime.py:293-535 | the early-exit pipeline makes exactly the calls of one attempt and adds its events, in that order of checks, or answers with a server error when they cannot be stored |
| `Invocation.Runtime.CallMcpTool` | src/grantora/api/runtime.py:156-209 | a tool call adds one attempt, or nothing at all when the name map raises |
| `Invocation.Runtime.Handle` | src/grantora/schemas/runtime.py:28-61 | a request from its schema to its answer: refused before the handler, ended by the name map, done but not recorded, or recorded |
| `Invocation.EveryAttemptIsWellAccounted` | src/grantora/api/runtime.py:660-742 | deny holds exactly when usage is denied, success exactly when there is no error code, both events name the same user, capability and application, units are at least 1 and exactly 1 unless success, denied attempts never call the adapter and successful ones call it once |
| `Invocation.InvocationOutcomes` | src/grantora/api/runtime.py:321-535 | exactly when an invocation is denied, reaches the adapter and succeeds, with which secret the adapter is called, that success hands on the adapter's data and units, and with which status and code each failing stage answers |
| `Invocation.SelectedUserIff` | src/grantora/db/queries.py:104-118 | a request selects the user with the external id it names in the live workspace, and goes on only if that user is active |
| `Invocation.AttemptIsTheNamedUsers` | src/grantora/api/runtime.py:157-535 | both events of an attempt name the user with the external id of the request, or nobody, and the adapter is only called for that user, active, with the input of the request |
| `Invocation.InvocationNamesItsApplication` | src/grantora/api/runtime.py:293-535 | the events name an application exactly when the user is active and the capability live, and then its own |
| `Invocation.McpCallIsAnInvocation` | src/grantora/api/runtime.py:156-209 | a tool call that finds its capability is authorized already and is the invocation of that id |
| `Invocation.VisibleIsAuthorized` | src/grantora/api/runtime.py:585-610 | every visible capability is authorized as the row it was listed as |
| `Accounting.MapRaisesIff` | src/grantora/api/runtime.py:551-565 | the name map raises exactly for a tool call of an active user one of whose visible capabilities, with a shared base name, finds all eight candidates taken |
| `Accounting.RefusedIff` | src/grantora/schemas/validation.py:10-29 | a request is refused with 422, unrecorded and without a call, exactly when the external id or the tool name it gives is malformed |
| `Accounting.AttemptRecordsItsName` | src/grantora/api/runtime.py:156-209 | the events name the capability id asked for, or that of the tool, or the tool name if there is none |
| `Accounting.UnaccountedIff` | src/grantora/api/runtime.py:693-742 | a request that reaches the handler leaves no event exactly when its name map raises or its request id, address, capability text, error code or units do not fit their columns |
| `Accounting.UnaccountedIffOnRequest` | src/grantora/db/models.py:462-519 | with error codes and units within bounds, that can be told from the request and the tables alone |
| `Accounting.LongRequestIdIsLost` | src/grantora/db/models.py:462 | no request under an id longer than 128 leaves an event |
| `Accounting.LongCapabilityIdIsLost` | src/grantora/db/models.py:471 | no invocation of a capability id longer than 128 leaves an event |
| `Accounting.SomeSideEffectLeavesNoEvent` | src/grantora/api/runtime.py:438-535 | such requests still act: for every hash function an invocation is given whose adapter is called and which leaves no event |
| `Accounting.SomeToolCallsLeaveNoEvent` | src/grantora/api/runtime.py:156-209 | such requests exist: for every hash function a database within all constraints is given in which every tool call of a user is lost to the logs |
| `Accounting.MapRaisesOnlyWhenCrowded` | src/grantora/api/runtime.py:551-565 | a raising name map takes nine visible capabilities |
| `Accounting.RunIsFullyAccounted` | src/grantora/api/runtime.py:660-742 | over any run of requests there is one audit and one usage event for each recorded request, in order, they agree event by event, and the adapter calls, less those of unrecorded requests, lie between the successes and the attempts not denied |
| `Accounting.AllAccountedIff` | src/grantora/api/runtime.py:660-742 | no request of a run is missing from the logs exactly when each is recorded |
| `Retry.Attempts` | src/grantora/adapters/http.py:58-61 | more than one attempt for read-only capabilities only, and then the configured number |
| `Retry.SendWithReadOnlyRetries` | src/grantora/adapters/http.py:21-55 | the first non-retryable outcome among the allowed attempts, else the last, is reported as exactly one of a response and an error; that many sends are made, one unless read-only, and the return after the loop is unreachable |
| `JsonSchema.ClosedObjectValidatesIff` | src/grantora/adapters/templates.py:60-80 | what the object keywords of the templates ask for: the required keys, no others, valid values |
| `JsonSchema.ListValidatesIff` | src/grantora/adapters/templates.py:60-80 | a wrapped list validates exactly when every item does |
| `JsonSchema.SearchInputValidatesIff` | src/grantora/adapters/templates.py:51-59 | exactly the inputs the templates accept |
| `JsonSchema.TemplateOutputsIff` | src/grantora/adapters/templates.py:60-134 | the outputs the two templates accept: one key with a list of valid items |
| `JsonSchema.ContactValidatesIff` | src/grantora/adapters/templates.py:60-82 | a valid contact has exactly four texts, one of them the source |
| `JsonSchema.FileValidatesIff` | src/grantora/adapters/templates.py:104-134 | a valid file has exactly six fields, with an integer or null size and a text or null time |
| `AdapterFields.RequestedLimit` | src/grantora/adapters/nethvoice.py:192-210 | the limit sent upstream is at least 1 and at most the schema's maximum |
| `AdapterFields.AcceptedLimitIsKeptIff` | src/grantora/adapters/nethvoice.py:192-210 | a limit the input schema accepts is sent unchanged exactly when it is written as an integer or as 50.0 |
| `AdapterFields.FloatLimitIsReplaced` | src/grantora/adapters/nextcloud.py:201-219 | the schema accepts 5.0 and the adapter asks for 50 |
| `AdapterFields.RetryableErrorsAreTheRetriedOnes` | src/grantora/adapters/nethvoice.py:213-247 | an upstream error is flagged retryable exactly when the retry loop sends such an answer again |
| `AdapterFields.ErrorCodes` | src/grantora/adapters/nethvoice.py:213-247 | every status from 400 on is an error, under the code of its kind, and retryable exactly for 429 and from 500 on |
| `AdapterFields.SchemaLimitIs` | src/grantora/adapters/nethvoice.py:200-210 | the bound on the limit is the schema's integer maximum, at least 1, or else 50 |
| `AdapterFields.RequestedLimitIsNearest` | src/grantora/adapters/nethvoice.py:192-197 | an integer limit becomes the nearest value between 1 and the bound, anything else the bound |
| `AdapterFields.FirstStringIff` | src/grantora/adapters/nethvoice.py:391-397 | what is picked is the stripped text of the first key that has any |
| `AdapterFields.FirstPresentIff` | src/grantora/adapters/nethvoice.py:298-302 | what is present is the value of the first key that is there |
| `AdapterFields.NormalizeAll` | src/grantora/adapters/nethvoice.py:262-273 | one result per item in order, or what the first item that cannot be normalised does: no answer, or an exception |
| `AdapterFields.PickedIsTrimmed` | src/grantora/adapters/nethvoice.py:391-398 | a picked string is stripped and not blank |
| `Text.StripCorrect` | src/grantora/adapters/nethvoice.py:391-398 | stripping keeps one stretch of the text, drops only white space and leaves none at either end |
| `NethVoice.NormalizedContacts` | src/grantora/adapters/nethvoice.py:262-273 | the appending loop with its early return agrees with the item-by-item normalisation of the first `limit` items |
| `NethVoice.ContactsConform` | src/grantora/adapters/nethvoice.py:262-324 | for every payload and limit: an answer has min(limit, items) contacts and validates against the template, there is none exactly when no list of objects is found or one of those items lacks a name or phone, and nothing raises |
| `NethVoice.ContactTells` | src/grantora/adapters/nethvoice.py:305-388 | the fields of a contact from the payload: the whole name or first and last in that order, a phone of its own or the first of a list, the company or none, the source |
| `NethVoice.ContactItemsTell` | src/grantora/adapters/nethvoice.py:276-295 | which list of the payload the contacts are read from |
| `NethVoice.ContactIsNormal` | src/grantora/adapters/nethvoice.py:305-388 | a normalised contact normalises to itself |
| `NethVoice.AnswerIsNormal` | src/grantora/adapters/nethvoice.py:262-324 | the adapter reads its own answer back unchanged |
| `NethVoice.InvokeConforms` | src/grantora/adapters/nethvoice.py:46-123 | an ok result comes exactly from an answer below 400, within the size and normalisable, is its contacts, validates against the template and has at most `limit` of them; an unsupported call, a missing base URL and an unusable secret have their own codes; nothing raises |
| `NethVoice.Invoke` | src/grantora/adapters/nethvoice.py:46-123 | nothing is sent for an unsupported call, never more than the allowed attempts, and the result is that of the last outcome |
| `Nextcloud.NormalizePathInSteps` | src/grantora/adapters/nextcloud.py:355-364 | the reassigned local ends as the path below the DAV root, always absolute, unless the URL cannot be parsed |
| `Nextcloud.DavPathIsBelowTheUser` | src/grantora/adapters/nextcloud.py:355-364 | a DAV path loses its prefix and the user segment |
| `Nextcloud.OtherPathIsKept` | src/grantora/adapters/nextcloud.py:355-364 | a path without the DAV marker is only made absolute |
| `Nextcloud.UnnamedFileIsItsLastSegment` | src/grantora/adapters/nextcloud.py:319-342 | a file without a name is called by the last segment of its path, trailing slashes aside |
| `Nextcloud.NormalizedFiles` | src/grantora/adapters/nextcloud.py:271-282 | the appending loop with its early return agrees with the item-by-item normalisation of the first `limit` items |
| `Nextcloud.FileCrashesIff` | src/grantora/adapters/nextcloud.py:319-407 | one file raises exactly when urlparse rejects the text of its path, or it has a path and a size text that isdigit passes and int rejects, or a numeric time that fromtimestamp rejects; it is unusable exactly when it has no path |
| `Nextcloud.FilesConform` | src/grantora/adapters/nextcloud.py:271-407 | count and conformance as for contacts; an exception exactly when the first file that cannot be normalised raises, and no answer in the remaining cases |
| `Nextcloud.FileTells` | src/grantora/adapters/nextcloud.py:319-414 | the fields of a file from the payload: path, display name, MIME type, size as an integer, time as text, source, each from its own keys in the file or its attributes |
| `Nextcloud.FileItemsTell` | src/grantora/adapters/nextcloud.py:285-316 | which list of the payload the files are read from, the OCS envelope first |
| `Nextcloud.InvokeConforms` | src/grantora/adapters/nextcloud.py:46-130 | an ok result comes exactly from an answer below 400, within the size and normalisable, is its files, validates against the template and has at most `limit` of them; an unsupported call, a missing base URL and an unusable secret have their own codes; an exception comes from normalising only |
| `Nextcloud.Invoke` | src/grantora/adapters/nextcloud.py:46-130 | as for the phonebook, over files |
| `Delivery.AdapterConforms` | src/grantora/adapters/templates.py:60-133 | what either adapter returns on success validates against its template's output schema and is no longer than asked |
| `Delivery.AdapterSucceedsIff` | src/grantora/adapters/nethvoice.py:43-123 | either adapter succeeds exactly when the capability's application has a base URL, the secret is of a usable kind, and the last answer is in bounds and can be normalised |
| `Delivery.AdapterResultIsDelivered` | src/grantora/api/runtime.py:422-535 | an adapter result reaches the caller, data under one success event or the adapter's error code, exactly when the request's own texts fit the event columns |
| `Delivery.TemplateDefinitionLasts` | src/grantora/api/admin.py:414-472 | a capability made from a template keeps that template's definition through any admin calls since |
| `Delivery.TemplateAnswersAreDelivered` | src/grantora/api/runtime.py:321-535 | end to end through template, admin history, pipeline, retry loop and normalisation: whenever an invocation of a capability made from a template reaches its adapter, the input was valid and the attempt's answer is what that adapter's invoke returns, data or error code, never a rejection of its output, with no more items than an integer limit asked for; it is recorded and sent exactly when the request's own texts fit |
| `SchemaWalk.WalkCountsNodes` | src/grantora/capabilities/validation.py:157-172 | the recursive walk returns exactly the number of nodes when the document is acceptable, and raises otherwise |
| `SchemaWalk.AcceptableIff` | src/grantora/capabilities/validation.py:157-172 | acceptable (no node deeper than 12, no mapping holding a reference key) seen one level down |
| `SchemaWalk.ShapeOkIff` | src/grantora/capabilities/validation.py:125-137 | a schema passes exactly when it is a closed object schema of at most 400 nodes, none deeper than 12, with neither $ref nor $dynamicRef as a key in any mapping |
| `SchemaWalk.SubtreesInherit` | src/grantora/capabilities/validation.py:157-172 | every node of an accepted document is accepted by itself and has no more nodes |
| `TemplateShapes.TemplateSchemasPass` | src/grantora/capabilities/validation.py:125-137 | every schema the templates carry passes the shape check that runs before each validation |
| `DemoSeed.DemoClient.EnsureSlot` | src/grantora/cli/demo_workflow.py:323-576 | one request sequence per object: a usable one is reused without a POST, an unusable one ends the run, a missing one is created |
| `DemoSeed.DemoClient.SeedDemo` | src/grantora/cli/demo_workflow.py:210-266 | the steps in order, ended by the first failure |
| `DemoSeed.LookupFindsTheObject` | src/grantora/cli/demo_workflow.py:704-723 | each lookup finds exactly this seeding's object, usable, once it exists, and nothing before |
| `DemoSeed.StagesTheNextObject` | src/grantora/cli/demo_workflow.py:323-576 | each POST leads from the objects of the first steps to those of one step more |
| `DemoSeed.EnsureMovesForward` | src/grantora/cli/demo_workflow.py:323-576 | a step issues at most one POST, creates at most one object, and none if it is there already |
| `DemoSeed.RunMovesForward` | src/grantora/cli/demo_workflow.py:210-266 | a run stopped anywhere leaves the server on the same line of states |
| `DemoSeed.SeedMovesForward` | src/grantora/cli/demo_workflow.py:210-266 | the same for a whole run; from the last state it issues no POST |
| `DemoSeed.HistoryMovesForward` | src/grantora/cli/demo_workflow.py:210-266 | the same over any history of interrupted runs |
| `DemoSeed.SeedingIsResumable` | src/grantora/cli/demo_workflow.py:210-266 | after any history of interrupted runs, a run that completes leaves the base plus exactly the eight objects, each created once over the whole history, and reports their ids: the state of an uninterrupted run up to the drawn values |
| `DemoSeed.SeedingAgainChangesNothing` | src/grantora/cli/demo_workflow.py:210-266 | after a completed run a further one issues no POST, changes nothing and reports the same ids |
| `DemoReady.SeededIsAsConfigured` | src/grantora/cli/demo_workflow.py:210-576 | a run that completes, on whatever database and whatever it found there, leaves every object as configured, active, and belonging to the others |
| `DemoReady.SeededDemoIsCallable` | src/grantora/cli/demo_workflow.py:210-576 | on any sound database a completed run leaves a demo that works: the user is selected by its external id, the gate opens for the demo capability through the demo agent, and the call unseals the demo secret |
| `DemoToken.TokenReportedIff` | src/grantora/cli/demo_workflow.py:485-506 | a completed run reports a new token, the one whose hash the server stored, exactly when it created the agent itself, and the configured one otherwise |
| `DemoToken.LostTokenStaysLost` | src/grantora/cli/demo_workflow.py:485-506 | once the agent is there no later run learns its token |
| `DemoToken.LostAnswerCreatesTheAgent` | src/grantora/cli/demo_workflow.py:485-506 | a lost answer to its POST leaves the agent there and the run without the token |
| `DemoProgress.CreationSucceedsIff` | src/grantora/cli/demo_workflow.py:323-576 | a POST is accepted exactly when its drawn id is free in its own table, the token is new at the agent step and the secret can be sealed at the secret step |
| `DemoProgress.EnsureSucceedsIff` | src/grantora/cli/demo_workflow.py:323-576 | an answered step succeeds exactly when its object is there already or the values drawn for its POST fit |
| `DemoProgress.SeedingCompletesIff` | src/grantora/cli/demo_workflow.py:210-266 | after any history of interrupted runs, a run whose requests are answered completes exactly when the values drawn for each POST still due fit |
| `DemoProgress.SeedingCompletes` | src/grantora/cli/demo_workflow.py:210-266 | in particular it never gets stuck half-way when they all fit |
| `DemoProgress.WithoutEncryptionSeedingStops` | src/grantora/cli/demo_workflow.py:545-576 | while encryption is unavailable no first run completes, however well its requests are answered |
| `DemoProgress.SeedingCanStop` | src/grantora/cli/demo_workflow.py:545-576 | for example on the empty database |

## Left out

- Gateway responses: a put stores exactly the payload, without the ids and timestamps the server adds, and a PUT answered with 404, which the client takes for success, is not a separate outcome.
- APISIX client parsing, HTTP transport, FastAPI routing, bearer headers, token hashing, `httpx`: the client is the contract of a map store, the lookup of an agent by its token hash is modelled, and otherwise the agent and admin of a request are given.
- Concurrent transactions: admin calls are serial.
- Row by row assignment inside the endpoints: one staged change each, since the session only reaches the database at its flush; secret rotation and role creation, which do more, are modelled row by row.
- Generated values (UUIDs, tokens, ciphertexts): parameters of each call.
- Capability definition, capability schema and raw-passthrough checks of the admin endpoints: booleans; the recursive part of the schema check is `SchemaWalk`.
- Admin list endpoints, pagination, CIDR allowlisting, base-URL checks, retention, health, metrics, tracing, logging: single filters or plumbing that would only add easy members.
- Decryption and the external secret store: one function that succeeds or fails; the metric calls in `src/grantora/secrets/resolution.py` are dropped.
- SQL collation: ORDER BY and Python's sort both use code-point order; rows with equal keys come in some fixed order.
- Library calls of the Nextcloud adapter (`urlparse`, `unquote`, `isdigit` with `int`, `datetime.fromtimestamp`): parameters, which decide for each input whether they raise.
- Request parameters sent upstream (the stripped query and headers): only the limit is modelled.
- JSON Schema keywords the templates do not use, and `Draft202012Validator.check_schema`.
- Delivery.ChecksSchemas: on the template schemas, the pipeline's validation is taken to be the shape check followed by what the schema says; on other schemas it is an arbitrary function.
- The demo's lookup pages of 500 rows and its configuration: every list is taken to fit its page, the configured values to pass the request schemas, and the demo capability's definition to pass its checks.
- Column widths and request schemas of the admin endpoints: every value is taken to pass its schema, and the admin audit event to fit its columns; a request id longer than 128 would fail the commit and leave the tables as they were.
- Other ends of a request in mid-flight: a lost database connection, a cancelled or killed process, and exceptions of the input and output validation other than its own error; the elapsed time always fits its column.
- Public server entry of the OpenAPI document (`_add_public_server`) and descriptive text of the operations.
