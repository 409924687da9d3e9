/** The surfaces built on the name map: the MCP tool list, the capability OpenAPI document and the
    lookup of a called tool (src/grantora/openapi/tools.py, src/grantora/openapi/description.py,
    src/grantora/api/runtime.py). None stands for the ValueError of the name map. */
module ToolSurfaces {
  import opened Prelude
  import opened Text
  import opened Json
  import opened Tables
  import opened ToolNames
  import opened NameMap

  datatype Tool = Tool(name: string, description: string, inputSchema: Json, capability: string, path: string)

  datatype Operation = Operation(
    summary: string, operationId: string, capability: string, toolName: string, risk: RiskClass,
    user: string, input: Json, output: Json)

  function InvocationPath(capability: string): string {
    "/v1/invoke/" + capability
  }

  /** build_mcp_tool_list */
  function McpToolList(capabilities: seq<Capability>, sha: string -> Digest): Option<seq<Tool>> {
    var sorted := Sort(capabilities, CapabilityId);
    match ToolNameMap(sorted, sha)
    case None => None
    case Some(names) =>
      NamesCover(sorted, sha);
      Some(seq(|sorted|, i requires 0 <= i < |sorted| =>
        Tool(names[sorted[i].id], sorted[i].name, sorted[i].inputSchema, sorted[i].id, InvocationPath(sorted[i].id))))
  }

  /** The "paths" of build_capability_openapi; a later capability with the same id would replace the path. */
  function OpenApiPaths(capabilities: seq<Capability>, names: map<string, string>, user: string): map<string, Operation>
    requires forall c :: c in capabilities ==> c.id in names
  {
    if capabilities == [] then map[]
    else
      var c := capabilities[|capabilities| - 1];
      OpenApiPaths(capabilities[..|capabilities| - 1], names, user)[InvocationPath(c.id) :=
        Operation(c.name, "invoke_" + names[c.id], c.id, names[c.id], c.risk, user, c.inputSchema, c.outputSchema)]
  }

  function CapabilityOpenApi(capabilities: seq<Capability>, user: string,
                             sha: string -> Digest): Option<map<string, Operation>> {
    var sorted := Sort(capabilities, CapabilityId);
    match ToolNameMap(sorted, sha)
    case None => None
    case Some(names) => NamesCover(sorted, sha); Some(OpenApiPaths(sorted, names, user))
  }

  /** Every capability has a name. */
  lemma NamesCover(capabilities: seq<Capability>, sha: string -> Digest)
    requires ToolNameMap(capabilities, sha).Some?
    ensures forall c :: c in capabilities ==> c.id in ToolNameMap(capabilities, sha).value
  {
    hide Duplicated, Names, Sort;
    var sorted := Sort(capabilities, CapabilityId);
    SortCorrect(capabilities, CapabilityId);
    SameElements(sorted, capabilities);
    forall c | c in capabilities ensures c.id in SortedIds(capabilities) {
      assert c in sorted;
      var i :| 0 <= i < |sorted| && sorted[i] == c;
      assert Ids(sorted)[i] == c.id;
    }
  }

  /** The first capability of the list whose tool name is the one called. */
  function FirstNamed(capabilities: seq<Capability>, names: map<string, string>, toolName: string): Option<Capability>
    requires forall c :: c in capabilities ==> c.id in names
  {
    if capabilities == [] then None
    else if names[capabilities[0].id] == toolName then Some(capabilities[0])
    else FirstNamed(capabilities[1..], names, toolName)
  }

  /** _get_mcp_capability_by_tool_name over the visible capabilities; the outer None is the ValueError. */
  method CapabilityByToolName(visible: seq<Capability>, toolName: string, sha: string -> Digest)
    returns (found: Option<Option<Capability>>)
    ensures found == Lookup(visible, toolName, sha)
  {
    hide Duplicated, Names, Sort;
    var sorted := Sort(visible, CapabilityId);
    var toolNames := CapabilityToolNameMap(sorted, sha);
    if toolNames.None? {
      return None;
    }
    NamesCover(sorted, sha);
    for i := 0 to |sorted|
      invariant FirstNamed(sorted, toolNames.value, toolName) == FirstNamed(sorted[i..], toolNames.value, toolName)
    {
      if toolNames.value[sorted[i].id] == toolName {
        return Some(Some(sorted[i]));
      }
      assert sorted[i..][1..] == sorted[i + 1..];
    }
    return Some(None);
  }

  function Lookup(visible: seq<Capability>, toolName: string, sha: string -> Digest): Option<Option<Capability>> {
    var sorted := Sort(visible, CapabilityId);
    match ToolNameMap(sorted, sha)
    case None => None
    case Some(names) => NamesCover(sorted, sha); Some(FirstNamed(sorted, names, toolName))
  }

  // ----- The surfaces agree -----

  lemma NameMapIgnoresOrder(a: seq<Capability>, b: seq<Capability>, sha: string -> Digest)
    requires DistinctKeys(a, CapabilityId) && multiset(a) == multiset(b)
    ensures ToolNameMap(a, sha) == ToolNameMap(b, sha)
  {
    SortOfPermutation(a, b, CapabilityId);
  }

  /** An operation carries its capability's id and tool name, and tells what the capability is called, risks,
      takes and gives, and for whom the document was made. */
  predicate Describes(operation: Operation, c: Capability, name: string, user: string) {
    && operation.capability == c.id && operation.toolName == name && operation.operationId == "invoke_" + name
    && operation.summary == c.name && operation.risk == c.risk && operation.user == user
    && operation.input == c.inputSchema && operation.output == c.outputSchema
  }

  lemma NewOperationDescribes(c: Capability, name: string, user: string)
    ensures Describes(
      Operation(c.name, "invoke_" + name, c.id, name, c.risk, user, c.inputSchema, c.outputSchema), c, name, user)
  {
  }

  /** The tools are the capabilities in the order of their ids, each with its own name, description, input
      schema and invocation path. */
  lemma McpToolsDescribe(capabilities: seq<Capability>, sha: string -> Digest)
    requires McpToolList(capabilities, sha).Some?
    ensures var tools, sorted := McpToolList(capabilities, sha).value, Sort(capabilities, CapabilityId);
      && |tools| == |sorted| == |capabilities| && Sorted(sorted, CapabilityId)
      && multiset(sorted) == multiset(capabilities)
      && forall i :: 0 <= i < |tools| ==>
           var t, c := tools[i], sorted[i];
           && t.capability == c.id && t.description == c.name && t.inputSchema == c.inputSchema
           && t.path == "/v1/invoke/" + c.id
           && c.id in ToolNameMap(sorted, sha).value && t.name == ToolNameMap(sorted, sha).value[c.id]
  {
    hide Sort, ToolNameMap;
    var sorted := Sort(capabilities, CapabilityId);
    SortCorrect(capabilities, CapabilityId);
    SameElements(sorted, capabilities);
    NamesCover(sorted, sha);
    assert forall i :: 0 <= i < |sorted| ==> sorted[i] in sorted;
  }

  lemma {:induction false} OpenApiPathsCorrect(capabilities: seq<Capability>, names: map<string, string>, user: string)
    requires DistinctKeys(capabilities, CapabilityId)
    requires forall c :: c in capabilities ==> c.id in names
    ensures var paths := OpenApiPaths(capabilities, names, user);
      && (forall c :: c in capabilities ==>
            InvocationPath(c.id) in paths && Describes(paths[InvocationPath(c.id)], c, names[c.id], user))
      && |paths| == |capabilities|
  {
    hide InvocationPath, Describes, OpenApiPaths, DistinctKeys;
    if capabilities == [] {
      NoPaths(names, user);
    } else {
      var n := |capabilities| - 1;
      var front, last := capabilities[..n], capabilities[n];
      LastIsNew(capabilities);
      OpenApiPathsCorrect(front, names, user);
      PathsComeFromCapabilities(front, names, user);
      NewPath(capabilities, names, user);
      NewOperationDescribes(last, names[last.id], user);
      assert capabilities == front + [last];
    }
  }

  lemma NoPaths(names: map<string, string>, user: string)
    ensures OpenApiPaths([], names, user) == map[]
  {
  }

  lemma NewPath(capabilities: seq<Capability>, names: map<string, string>, user: string)
    requires capabilities != [] && forall c :: c in capabilities ==> c.id in names
    ensures var c := capabilities[|capabilities| - 1];
      OpenApiPaths(capabilities, names, user)
      == OpenApiPaths(capabilities[..|capabilities| - 1], names, user)[InvocationPath(c.id) :=
        Operation(c.name, "invoke_" + names[c.id], c.id, names[c.id], c.risk, user, c.inputSchema, c.outputSchema)]
  {
  }

  lemma LastIsNew(capabilities: seq<Capability>)
    requires capabilities != [] && DistinctKeys(capabilities, CapabilityId)
    ensures var n := |capabilities| - 1;
      && DistinctKeys(capabilities[..n], CapabilityId)
      && forall c :: c in capabilities[..n] ==> InvocationPath(c.id) != InvocationPath(capabilities[n].id)
  {
    hide InvocationPath;
    var n := |capabilities| - 1;
    forall c | c in capabilities[..n] ensures InvocationPath(c.id) != InvocationPath(capabilities[n].id) {
      var i :| 0 <= i < n && capabilities[..n][i] == c;
      assert CapabilityId(capabilities[i]) != CapabilityId(capabilities[n]);
      PathsDiffer(c.id, capabilities[n].id);
    }
  }

  lemma PathsDiffer(a: string, b: string)
    requires a != b
    ensures InvocationPath(a) != InvocationPath(b)
  {
    assert InvocationPath(a)[11..] == a && InvocationPath(b)[11..] == b;
  }

  lemma {:induction false} PathsComeFromCapabilities(capabilities: seq<Capability>, names: map<string, string>,
          user: string)
    requires forall c :: c in capabilities ==> c.id in names
    ensures forall p :: p in OpenApiPaths(capabilities, names, user) ==>
      exists c :: c in capabilities && p == InvocationPath(c.id)
  {
    if capabilities != [] {
      PathsComeFromCapabilities(capabilities[..|capabilities| - 1], names, user);
      assert capabilities[|capabilities| - 1] in capabilities;
    }
  }

  /** Whatever order the rows arrive in, the MCP list and the OpenAPI document describe the same
      capabilities under the same names, or both fail. */
  lemma SurfacesAgree(mcpRows: seq<Capability>, openApiRows: seq<Capability>, user: string, sha: string -> Digest)
    requires DistinctKeys(mcpRows, CapabilityId) && multiset(mcpRows) == multiset(openApiRows)
    ensures McpToolList(mcpRows, sha).Some? <==> CapabilityOpenApi(openApiRows, user, sha).Some?
    ensures McpToolList(mcpRows, sha).Some? ==>
      var tools := McpToolList(mcpRows, sha).value;
      var paths := CapabilityOpenApi(openApiRows, user, sha).value;
      && |tools| == |paths| == |mcpRows|
      && (forall t :: t in tools ==> (
            && t.path in paths && paths[t.path].capability == t.capability
            && paths[t.path].toolName == t.name && paths[t.path].operationId == "invoke_" + t.name))
  {
    hide Duplicated, Names, Sort, ToolNameMap;
    SortOfPermutation(mcpRows, openApiRows, CapabilityId);
    SortStrict(mcpRows, CapabilityId);
    SortCorrect(mcpRows, CapabilityId);
    var sorted := Sort(mcpRows, CapabilityId);
    SameElements(sorted, mcpRows);
    if ToolNameMap(sorted, sha).Some? {
      NamesCover(sorted, sha);
      OpenApiPathsCorrect(sorted, ToolNameMap(sorted, sha).value, user);
      assert forall i :: 0 <= i < |sorted| ==> sorted[i] in sorted;
    }
  }

  // ----- Calling a listed tool -----

  lemma {:induction false} FirstNamedIsFirst(sorted: seq<Capability>, names: map<string, string>, toolName: string,
          i: nat)
    requires forall c :: c in sorted ==> c.id in names
    requires i < |sorted| && names[sorted[i].id] == toolName
    requires forall j :: 0 <= j < i ==> names[sorted[j].id] != toolName
    ensures FirstNamed(sorted, names, toolName) == Some(sorted[i])
  {
    if i > 0 {
      assert names[sorted[0].id] != toolName;
      forall j | 0 <= j < i - 1 ensures names[sorted[1..][j].id] != toolName {
        assert sorted[1..][j] == sorted[j + 1];
      }
      FirstNamedIsFirst(sorted[1..], names, toolName, i - 1);
    }
  }

  lemma {:induction false} FirstNamedHasTheName(sorted: seq<Capability>, names: map<string, string>, toolName: string)
    requires forall c :: c in sorted ==> c.id in names
    ensures var r := FirstNamed(sorted, names, toolName);
      && (r.Some? ==> r.value in sorted && names[r.value.id] == toolName)
      && (r.None? ==> forall c :: c in sorted ==> names[c.id] != toolName)
  {
    if sorted != [] && names[sorted[0].id] != toolName {
      FirstNamedHasTheName(sorted[1..], names, toolName);
      assert sorted == [sorted[0]] + sorted[1..];
    }
  }

  // ----- Calling what is listed -----

  /** MCPToolName, what a call request may name: the pattern, and at most 128 characters. The list has no such bound. */
  predicate Callable(name: string) {
    FitsPattern(name) && |name| <= MAX_TOOL_NAME_LENGTH
  }

  /** A listed name is accepted in a call request exactly when it is at most 128 long, and then the lookup
      finds a visible capability that is listed under that name. */
  lemma ListedNamesCanBeCalledIff(visible: seq<Capability>, sha: string -> Digest, t: Tool)
    requires McpToolList(visible, sha).Some? && t in McpToolList(visible, sha).value
    ensures Callable(t.name) <==> |t.name| <= MAX_TOOL_NAME_LENGTH
    ensures var found := Lookup(visible, t.name, sha);
      && found.Some? && found.value.Some? && found.value.value in visible
      && exists u :: u in McpToolList(visible, sha).value && u.capability == found.value.value.id && u.name == t.name
  {
    hide Duplicated, Names, Sort, ToolNameMap, FitsPattern;
    var sorted := Sort(visible, CapabilityId);
    SortCorrect(visible, CapabilityId);
    SameElements(sorted, visible);
    var names := ToolNameMap(sorted, sha).value;
    NamesCover(sorted, sha);
    var tools := McpToolList(visible, sha).value;
    var i :| 0 <= i < |tools| && tools[i] == t;
    assert sorted[i] in sorted;
    FirstNamedHasTheName(sorted, names, t.name);
    var c := FirstNamed(sorted, names, t.name).value;
    var k :| 0 <= k < |sorted| && sorted[k] == c;
    assert tools[k] in tools;
    MappedNameFitsIff(sorted, sha, sorted[i].id);
  }

  /** A name of the map fits the pattern, and the bound unless it is an unshared base name that does not. */
  lemma MappedNameFitsIff(capabilities: seq<Capability>, sha: string -> Digest, id: string)
    requires ToolNameMap(capabilities, sha).Some? && id in ToolNameMap(capabilities, sha).value
    ensures var name, ids := ToolNameMap(capabilities, sha).value[id], SortedIds(capabilities);
      && FitsPattern(name)
      && (|name| <= MAX_TOOL_NAME_LENGTH <==> BaseName(id) in Duplicated(ids) || |BaseName(id)| <= MAX_TOOL_NAME_LENGTH)
  {
    hide Duplicated, Names, SortedIds, BaseName, FitsPattern;
    var ids := SortedIds(capabilities);
    var i := ToMapFrom(ids, Names(ids, Duplicated(ids), sha).value, id);
    NamesFitIff(ids, sha, i);
  }

  /** Every entry of the map comes from some position. */
  lemma {:induction false} ToMapFrom(ids: seq<string>, names: seq<string>, id: string) returns (i: nat)
    requires |names| == |ids| && id in ToMap(ids, names)
    ensures i < |ids| && ids[i] == id && names[i] == ToMap(ids, names)[id]
  {
    var n := |ids| - 1;
    if ids[n] == id {
      i := n;
    } else {
      i := ToMapFrom(ids[..n], names[..n], id);
    }
  }

  /** Calling a listed name is accepted and reaches the capability it is listed for. */
  ghost predicate CallReaches(visible: seq<Capability>, sha: string -> Digest, t: Tool) {
    var found := Lookup(visible, t.name, sha);
    Callable(t.name) && found.Some? && found.value.Some? && found.value.value.id == t.capability
  }

  /** Every listed name reaches the very capability listed exactly when the names are injective and none is
      longer than a call may name. */
  lemma CallsReachTheListedCapabilityIff(visible: seq<Capability>, sha: string -> Digest)
    requires DistinctKeys(visible, CapabilityId) && McpToolList(visible, sha).Some?
    ensures var tools := McpToolList(visible, sha).value;
      (forall i :: 0 <= i < |tools| ==> CallReaches(visible, sha, tools[i]))
      <==> (
        && (forall i, j :: 0 <= i < j < |tools| ==> tools[i].name != tools[j].name)
        && (forall i :: 0 <= i < |tools| ==> |tools[i].name| <= MAX_TOOL_NAME_LENGTH))
  {
    hide Duplicated, Names, Sort, ToolNameMap, CallReaches, FitsPattern;
    var tools := McpToolList(visible, sha).value;
    if forall i :: 0 <= i < |tools| ==> CallReaches(visible, sha, tools[i]) {
      forall i, j | 0 <= i < j < |tools| ensures tools[i].name != tools[j].name {
        SameNameSameTarget(visible, sha, i, j);
      }
      forall i | 0 <= i < |tools| ensures |tools[i].name| <= MAX_TOOL_NAME_LENGTH {
        ReachedIsCallable(visible, sha, tools[i]);
      }
    }
    if (forall i, j :: 0 <= i < j < |tools| ==> tools[i].name != tools[j].name)
      && (forall i :: 0 <= i < |tools| ==> |tools[i].name| <= MAX_TOOL_NAME_LENGTH) {
      forall i | 0 <= i < |tools| ensures CallReaches(visible, sha, tools[i]) {
        UniqueNameReached(visible, sha, i);
      }
    }
  }

  lemma ReachedIsCallable(visible: seq<Capability>, sha: string -> Digest, t: Tool)
    requires CallReaches(visible, sha, t)
    ensures |t.name| <= MAX_TOOL_NAME_LENGTH
  {
  }

  /** On the ids: all listed names are short enough exactly when no id longer than 117 that starts with a
      digit has an unshared base name. */
  lemma ListedNamesFitIff(visible: seq<Capability>, sha: string -> Digest)
    requires McpToolList(visible, sha).Some? && forall c :: c in visible ==> ValidId(c.id)
    ensures var tools, shared := McpToolList(visible, sha).value, Duplicated(SortedIds(visible));
      (forall i :: 0 <= i < |tools| ==> |tools[i].name| <= MAX_TOOL_NAME_LENGTH)
      <==> (forall c :: c in visible && LongDigitLed(c.id) ==> BaseName(c.id) in shared)
  {
    hide Duplicated, Names, Sort, ToolNameMap, FitsPattern, BaseName, ValidId, SortedIds, LongDigitLed;
    var sorted := Sort(visible, CapabilityId);
    SortCorrect(visible, CapabilityId);
    SameElements(sorted, visible);
    SortedTwice(visible);
    NamesCover(sorted, sha);
    var tools := McpToolList(visible, sha).value;
    var shared := Duplicated(SortedIds(visible));
    forall i | 0 <= i < |tools|
      ensures sorted[i] in visible
      ensures |tools[i].name| <= MAX_TOOL_NAME_LENGTH
        <==> (LongDigitLed(sorted[i].id) ==> BaseName(sorted[i].id) in shared)
    {
      assert sorted[i] in sorted;
      MappedNameFitsIff(sorted, sha, sorted[i].id);
      BaseNameOverflowsIff(sorted[i].id);
    }
    if forall i :: 0 <= i < |tools| ==> |tools[i].name| <= MAX_TOOL_NAME_LENGTH {
      forall c | c in visible && LongDigitLed(c.id) ensures BaseName(c.id) in shared {
        assert c in sorted;
        var i :| 0 <= i < |sorted| && sorted[i] == c;
        assert |tools[i].name| <= MAX_TOOL_NAME_LENGTH;
      }
    }
  }

  lemma SortedTwice(visible: seq<Capability>)
    ensures SortedIds(Sort(visible, CapabilityId)) == SortedIds(visible)
  {
    hide Sort;
    SortCorrect(visible, CapabilityId);
    SortOfSorted(Sort(visible, CapabilityId), CapabilityId);
  }

  /** The bound does bite: a capability with such an id, alone in the list, is listed under a name that no
      call may use, although its names are injective. */
  lemma LongToolIsListedButNotCallable(c: Capability, sha: string -> Digest)
    requires ValidId(c.id) && LongDigitLed(c.id)
    ensures McpToolList([c], sha).Some? && |McpToolList([c], sha).value| == 1
    ensures var t := McpToolList([c], sha).value[0];
      t.capability == c.id && |t.name| > MAX_TOOL_NAME_LENGTH && !CallReaches([c], sha, t)
  {
    hide BaseName, ValidId, FitsPattern;
    assert Sort([c], CapabilityId) == [c];
    var ids := SortedIds([c]);
    assert ids == [c.id] && Duplicated(ids) == {};
    assert ids[..0] == [];
    assert Names([], {}, sha) == Some([]);
    BaseNameOverflowsIff(c.id);
  }

  lemma SameNameSameTarget(visible: seq<Capability>, sha: string -> Digest, i: nat, j: nat)
    requires DistinctKeys(visible, CapabilityId) && McpToolList(visible, sha).Some?
    requires i < j < |McpToolList(visible, sha).value|
    requires CallReaches(visible, sha, McpToolList(visible, sha).value[i])
    requires CallReaches(visible, sha, McpToolList(visible, sha).value[j])
    ensures McpToolList(visible, sha).value[i].name != McpToolList(visible, sha).value[j].name
  {
    hide Duplicated, Names, Sort, ToolNameMap, Lookup, Callable;
    SortStrict(visible, CapabilityId);
    var sorted := Sort(visible, CapabilityId);
    assert CapabilityId(sorted[i]) != CapabilityId(sorted[j]);
  }

  lemma UniqueNameReached(visible: seq<Capability>, sha: string -> Digest, i: nat)
    requires McpToolList(visible, sha).Some? && i < |McpToolList(visible, sha).value|
    requires var tools := McpToolList(visible, sha).value;
      (forall j, k :: 0 <= j < k < |tools| ==> tools[j].name != tools[k].name)
        && |tools[i].name| <= MAX_TOOL_NAME_LENGTH
    ensures CallReaches(visible, sha, McpToolList(visible, sha).value[i])
  {
    hide Duplicated, Names, Sort, ToolNameMap, FitsPattern;
    var sorted := Sort(visible, CapabilityId);
    var names := ToolNameMap(sorted, sha).value;
    NamesCover(sorted, sha);
    var tools := McpToolList(visible, sha).value;
    forall j | 0 <= j < i ensures names[sorted[j].id] != tools[i].name {
      assert tools[j].name == names[sorted[j].id];
    }
    FirstNamedIsFirst(sorted, names, tools[i].name, i);
    assert sorted[i] in sorted;
    MappedNameFitsIff(sorted, sha, sorted[i].id);
  }
}
